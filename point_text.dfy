/** The `POINT(lng lat)` text both action files write into location columns,
    and the parse `getAvailableDeliveries` applies to it: drop the first
    "POINT(" and the first ")", split at spaces, read the first token as the
    longitude and the second as the latitude with `Number.parseFloat`. */
module PointText {
  import opened Common

  predicate IsDigit(c: char) { '0' <= c <= '9' }

  function DigitValue(c: char): (d: nat)
    requires IsDigit(c)
    ensures d < 10
  {
    c as int - '0' as int
  }

  function DigitChar(d: nat): (c: char)
    requires d < 10
    ensures IsDigit(c) && DigitValue(c) == d
  {
    ('0' as int + d) as char
  }

  predicate AllDigits(s: string) { forall i :: 0 <= i < |s| ==> IsDigit(s[i]) }

  /** Decimal digits of `n`, most significant first, without leading zeros. */
  function Digits(n: nat): (s: string)
    ensures |s| > 0 && AllDigits(s)
    ensures s[0] != '0' || n == 0
  {
    if n < 10 then [DigitChar(n)] else Digits(n / 10) + [DigitChar(n % 10)]
  }

  /** `${x}` of an integral number: an optional minus sign and its decimal digits. */
  function NumberText(x: int): (s: string)
    ensures forall i :: 0 <= i < |s| ==> IsDigit(s[i]) || s[i] == '-'
  {
    if x < 0 then "-" + Digits(-x) else Digits(x)
  }

  /** The value of a run of decimal digits. */
  function DigitsValue(s: string): nat
    requires AllDigits(s)
  {
    if s == [] then 0 else DigitsValue(s[..|s| - 1]) * 10 + DigitValue(s[|s| - 1])
  }

  /** Length of the longest prefix of `s` made of digits. */
  function DigitRun(s: string): (n: nat)
    ensures n <= |s| && AllDigits(s[..n])
    ensures n < |s| ==> !IsDigit(s[n])
  {
    if s == [] || !IsDigit(s[0]) then 0
    else
      var n := 1 + DigitRun(s[1..]);
      assert forall i :: 1 <= i < n ==> s[..n][i] == s[1..][..n - 1][i - 1];
      n
  }

  /** `Number.parseFloat(t)` on the integral part of a number: an optional sign
      followed by the longest run of digits, NaN (`None`) when there is none. */
  function ParseNumber(t: string): Option<int>
  {
    var signed := |t| > 0 && (t[0] == '-' || t[0] == '+');
    var body := if signed then t[1..] else t;
    var n := DigitRun(body);
    var magnitude: int := if n == 0 then 0 else DigitsValue(body[..n]);
    if n == 0 then None
    else if signed && t[0] == '-' then Some(-magnitude)
    else Some(magnitude)
  }

  /** `s.replace(pat, rep)` with a string pattern: only the first occurrence is replaced. */
  function ReplaceFirst(s: string, pat: string, rep: string): string
  {
    if pat <= s then rep + s[|pat|..]
    else if s == [] then s
    else [s[0]] + ReplaceFirst(s[1..], pat, rep)
  }

  /** `s.split(sep)` with a one-character separator: the pieces between separators. */
  function Split(s: string, sep: char): (pieces: seq<string>)
    ensures |pieces| > 0
    ensures forall i :: 0 <= i < |pieces| ==> sep !in pieces[i]
  {
    if s == [] then [[]]
    else
      var rest := Split(s[1..], sep);
      if s[0] == sep then [[]] + rest else [[s[0]] + rest[0]] + rest[1..]
  }

  /** `pieces.join(sep)`: the inverse of `Split`. */
  function Join(pieces: seq<string>, sep: char): string
    requires |pieces| > 0
  {
    if |pieces| == 1 then pieces[0] else pieces[0] + [sep] + Join(pieces[1..], sep)
  }

  /** The location text written by both actions: `POINT(${lng} ${lat})`. */
  function FormatPoint(lng: int, lat: int): string
  {
    "POINT(" + NumberText(lng) + " " + NumberText(lat) + ")"
  }

  /** The parse of driver.ts lines 53-55; the result is (longitude, latitude),
      each NaN (`None`) when its token does not start with a number. */
  function ParsePoint(text: string): (lngLat: (Option<int>, Option<int>))
  {
    var coords := Split(ReplaceFirst(ReplaceFirst(text, "POINT(", ""), ")", ""), ' ');
    (ParseNumber(coords[0]), if |coords| > 1 then ParseNumber(coords[1]) else None)
  }

  lemma {:induction false} DigitsValueOfDigits(n: nat)
    ensures DigitsValue(Digits(n)) == n
  {
    if n >= 10 {
      var s := Digits(n);
      assert s[..|s| - 1] == Digits(n / 10);
      DigitsValueOfDigits(n / 10);
    }
  }

  lemma {:induction false} DigitRunOfDigits(s: string)
    requires AllDigits(s)
    ensures DigitRun(s) == |s|
  {
    if s != [] {
      DigitRunOfDigits(s[1..]);
    }
  }

  /** Reading back a rendered number gives the number. */
  lemma NumberRoundTrip(x: int)
    ensures ParseNumber(NumberText(x)) == Some(x)
  {
    var t := NumberText(x);
    var d := if x < 0 then Digits(-x) else Digits(x);
    assert d[0] != '-' && d[0] != '+';
    if x < 0 {
      assert t[1..] == d;
    }
    DigitRunOfDigits(d);
    assert d[..|d|] == d;
    DigitsValueOfDigits(if x < 0 then -x else x);
  }

  /** Splitting text that starts with a separator-free piece `a` glues `a` onto the first piece. */
  lemma {:induction false} SplitAfterPiece(a: string, rest: string, sep: char)
    requires sep !in a
    ensures Split(a + rest, sep) == [a + Split(rest, sep)[0]] + Split(rest, sep)[1..]
  {
    if a != [] {
      var s := a + rest;
      assert s[0] == a[0] && s[0] != sep;
      assert s[1..] == a[1..] + rest;
      SplitAfterPiece(a[1..], rest, sep);
      var inner := Split(s[1..], sep);
      var tail := Split(rest, sep);
      assert inner == [a[1..] + tail[0]] + tail[1..];
      assert inner[0] == a[1..] + tail[0] && inner[1..] == tail[1..];
      assert Split(s, sep) == [[s[0]] + inner[0]] + inner[1..];
      assert [s[0]] + inner[0] == a + tail[0];
    } else {
      var tail := Split(rest, sep);
      assert a + rest == rest && a + tail[0] == tail[0];
      assert tail == [tail[0]] + tail[1..];
    }
  }

  /** Splitting joined separator-free pieces gives the pieces back. */
  lemma {:induction false} SplitJoin(pieces: seq<string>, sep: char)
    requires |pieces| > 0
    requires forall i :: 0 <= i < |pieces| ==> sep !in pieces[i]
    ensures Split(Join(pieces, sep), sep) == pieces
  {
    if |pieces| == 1 {
      SplitAfterPiece(pieces[0], [], sep);
      assert pieces[0] + [] == pieces[0];
    } else {
      var tail := Join(pieces[1..], sep);
      SplitJoin(pieces[1..], sep);
      assert pieces[0] + [sep] + tail == pieces[0] + ([sep] + tail);
      SplitAfterPiece(pieces[0], [sep] + tail, sep);
      assert ([sep] + tail)[1..] == tail;
      var afterSep := Split([sep] + tail, sep);
      assert afterSep == [[]] + Split(tail, sep);
      assert afterSep[0] == [] && afterSep[1..] == pieces[1..];
      assert pieces[0] + afterSep[0] == pieces[0];
      assert pieces == [pieces[0]] + pieces[1..];
    }
  }

  /** Dropping the first `c` from text whose first `c` follows the piece `u`. */
  lemma {:induction false} ReplaceFirstChar(u: string, c: char, w: string)
    requires c !in u
    ensures ReplaceFirst(u + [c] + w, [c], "") == u + w
  {
    if u != [] {
      assert (u + [c] + w)[1..] == u[1..] + [c] + w;
      ReplaceFirstChar(u[1..], c, w);
      assert u + w == [u[0]] + (u[1..] + w);
    }
  }

  /** Dropping a leading pattern. */
  lemma ReplaceFirstPrefix(pat: string, w: string)
    ensures ReplaceFirst(pat + w, pat, "") == w
  {
    assert pat <= pat + w;
    assert (pat + w)[|pat|..] == w;
  }

  /** The tokens of a formatted point are the two rendered numbers. */
  lemma PointTokens(lng: int, lat: int)
    ensures Split(ReplaceFirst(ReplaceFirst(FormatPoint(lng, lat), "POINT(", ""), ")", ""), ' ')
         == [NumberText(lng), NumberText(lat)]
  {
    var a, b := NumberText(lng), NumberText(lat);
    var body := a + [' '] + b;
    assert FormatPoint(lng, lat) == "POINT(" + (body + [')'] + "");
    ReplaceFirstPrefix("POINT(", body + [')'] + "");
    assert ')' !in body;
    ReplaceFirstChar(body, ')', "");
    assert body + "" == body;
    assert ' ' !in a && ' ' !in b;
    assert Join([a, b], ' ') == body;
    SplitJoin([a, b], ' ');
  }

  /** The parse inverts the format: the first token is the longitude, the second the latitude. */
  lemma PointRoundTrip(lng: int, lat: int)
    ensures ParsePoint(FormatPoint(lng, lat)) == (Some(lng), Some(lat))
  {
    PointTokens(lng, lat);
    NumberRoundTrip(lng);
    NumberRoundTrip(lat);
  }
}
