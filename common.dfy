/** Values shared by every part of the model: nullable values, server-action
    responses, and the array operations the screens and actions use
    (`filter`, `slice(0, n)` / `limit(n)`). */
module Common {

  /** A nullable value (`null` / `undefined` in the source). */
  datatype Option<T> = None | Some(value: T)

  /** What a server action hands back: `{ error: message }` or a success value. */
  datatype Response<T> = Ok(value: T) | Err(message: string)

  /** `s.filter(p)`: the elements of `s` that satisfy `p`, in their original order. */
  function Filter<T>(s: seq<T>, p: T -> bool): (r: seq<T>)
    ensures |r| <= |s|
    ensures forall x :: x in r ==> x in s && p(x)
    ensures forall x :: x in s && p(x) ==> x in r
  {
    if s == [] then []
    else
      var init := Filter(s[..|s| - 1], p);
      assert s == s[..|s| - 1] + [s[|s| - 1]];
      if p(s[|s| - 1]) then init + [s[|s| - 1]] else init
  }

  /** `s.slice(0, n)`, also what a query's `.limit(n)` returns: the first `n` elements. */
  function Take<T>(s: seq<T>, n: nat): (r: seq<T>)
    ensures |r| == if |s| < n then |s| else n
    ensures r == s[..|r|]
    ensures forall x :: x in r ==> x in s
    ensures |r| < n ==> r == s
  {
    if |s| <= n then s else s[..n]
  }

  /** Every element comes `before` every later one (an ordering such as `created_at` descending). */
  ghost predicate Chain<T>(s: seq<T>, before: (T, T) -> bool)
  {
    forall i, j :: 0 <= i < j < |s| ==> before(s[i], s[j])
  }

  /** Filtering keeps the order of what it keeps. */
  lemma {:induction false} FilterKeepsChain<T>(s: seq<T>, p: T -> bool, before: (T, T) -> bool)
    requires Chain(s, before)
    ensures Chain(Filter(s, p), before)
  {
    if s != [] {
      var n := |s|;
      var init := s[..n - 1];
      assert Chain(init, before) by {
        forall i, j | 0 <= i < j < |init| ensures before(init[i], init[j]) {
          assert init[i] == s[i] && init[j] == s[j];
        }
      }
      FilterKeepsChain(init, p, before);
      var fi := Filter(init, p);
      if p(s[n - 1]) {
        forall i | 0 <= i < |fi| ensures before(fi[i], s[n - 1]) {
          assert fi[i] in init;
          var k :| 0 <= k < |init| && init[k] == fi[i];
          assert s[k] == fi[i];
        }
        var r := fi + [s[n - 1]];
        forall i, j | 0 <= i < j < |r| ensures before(r[i], r[j]) {
          if j < |fi| {
            assert r[i] == fi[i] && r[j] == fi[j];
          } else {
            assert r[i] == fi[i] && r[j] == s[n - 1];
          }
        }
      }
    }
  }

  /** A prefix of an ordered sequence is ordered. */
  lemma TakeKeepsChain<T>(s: seq<T>, n: nat, before: (T, T) -> bool)
    requires Chain(s, before)
    ensures Chain(Take(s, n), before)
  {
    var r := Take(s, n);
    forall i, j | 0 <= i < j < |r| ensures before(r[i], r[j]) {
      assert r[i] == s[i] && r[j] == s[j];
    }
  }

  /** Two pointwise-equivalent tests keep the same elements. */
  lemma {:induction false} FilterSame<T>(s: seq<T>, p: T -> bool, q: T -> bool)
    requires forall x :: p(x) <==> q(x)
    ensures Filter(s, p) == Filter(s, q)
  {
    if s != [] {
      FilterSame(s[..|s| - 1], p, q);
    }
  }

  /** Filtering by `p` and then by `q` is filtering once by their conjunction `pq`. */
  lemma {:induction false} FilterFilter<T>(s: seq<T>, p: T -> bool, q: T -> bool, pq: T -> bool)
    requires forall x :: pq(x) <==> p(x) && q(x)
    ensures Filter(Filter(s, p), q) == Filter(s, pq)
  {
    if s != [] {
      var init, last := s[..|s| - 1], s[|s| - 1];
      FilterFilter(init, p, q, pq);
      if p(last) {
        var a := Filter(init, p) + [last];
        assert a[..|a| - 1] == Filter(init, p);
      }
    }
  }

  /** Counting an element class and its complement counts everything. */
  lemma {:induction false} CountComplement<T>(s: seq<T>, p: T -> bool, q: T -> bool)
    requires forall x :: q(x) <==> !p(x)
    ensures |Filter(s, p)| + |Filter(s, q)| == |s|
  {
    if s != [] {
      CountComplement(s[..|s| - 1], p, q);
    }
  }

  /** The counts of two disjoint classes add up to the count of their union. */
  lemma {:induction false} CountDisjointUnion<T>(s: seq<T>, p: T -> bool, q: T -> bool, pq: T -> bool)
    requires forall x :: !(p(x) && q(x))
    requires forall x :: pq(x) <==> p(x) || q(x)
    ensures |Filter(s, p)| + |Filter(s, q)| == |Filter(s, pq)|
  {
    if s != [] {
      CountDisjointUnion(s[..|s| - 1], p, q, pq);
    }
  }

  /** A narrower class never counts more. */
  lemma {:induction false} CountMono<T>(s: seq<T>, p: T -> bool, q: T -> bool)
    requires forall x :: p(x) ==> q(x)
    ensures |Filter(s, p)| <= |Filter(s, q)|
  {
    if s != [] {
      CountMono(s[..|s| - 1], p, q);
    }
  }
}
