/** The counters and labels of the admin accident screen (app/admin/accidents/page.tsx). */
module AccidentStats {
  import opened Common

  /** The two columns of an accident report the screen decides on. */
  datatype Accident = Accident(accidentType: string, status: string)

  datatype Stats = Stats(total: nat, reported: nat, investigating: nat, resolved: nat, closed: nat)

  predicate IsReported(a: Accident) { a.status == "reported" }
  predicate IsInvestigating(a: Accident) { a.status == "investigating" }
  predicate IsResolved(a: Accident) { a.status == "resolved" }
  predicate IsClosed(a: Accident) { a.status == "closed" }
  predicate IsResolvedOrClosed(a: Accident) { IsResolved(a) || IsClosed(a) }
  predicate IsReportedOrInvestigating(a: Accident) { IsReported(a) || IsInvestigating(a) }
  predicate IsKnownStatus(a: Accident) { IsReportedOrInvestigating(a) || IsResolvedOrClosed(a) }
  predicate IsUnknownStatus(a: Accident) { !IsKnownStatus(a) }

  /** The `stats` object of the screen. */
  function AccidentStats(accidents: seq<Accident>): Stats
  {
    Stats(
      total := |accidents|,
      reported := |Filter(accidents, IsReported)|,
      investigating := |Filter(accidents, IsInvestigating)|,
      resolved := |Filter(accidents, IsResolved)|,
      closed := |Filter(accidents, IsClosed)|)
  }

  /** The number on the "해결됨" card. */
  function ResolvedCard(s: Stats): nat { s.resolved + s.closed }

  /** The "해결됨" card counts the reports that are resolved or closed. */
  lemma {:induction false} ResolvedCardCounts(accidents: seq<Accident>)
    ensures ResolvedCard(AccidentStats(accidents)) == |Filter(accidents, IsResolvedOrClosed)|
  {
    CountDisjointUnion(accidents, IsResolved, IsClosed, IsResolvedOrClosed);
  }

  /** The four status counters are disjoint; with the reports of any other status they make up the total. */
  lemma {:induction false} StatusCountsPartition(accidents: seq<Accident>)
    ensures var s := AccidentStats(accidents);
      s.reported + s.investigating + s.resolved + s.closed + |Filter(accidents, IsUnknownStatus)| == s.total
  {
    CountDisjointUnion(accidents, IsReported, IsInvestigating, IsReportedOrInvestigating);
    CountDisjointUnion(accidents, IsResolved, IsClosed, IsResolvedOrClosed);
    CountDisjointUnion(accidents, IsReportedOrInvestigating, IsResolvedOrClosed, IsKnownStatus);
    CountComplement(accidents, IsKnownStatus, IsUnknownStatus);
  }

  /** The cards add up to the total exactly when every report has one of the four statuses. */
  lemma CardsAddUpIff(accidents: seq<Accident>)
    ensures var s := AccidentStats(accidents);
      s.reported + s.investigating + ResolvedCard(s) == s.total <==>
      forall a :: a in accidents ==> IsKnownStatus(a)
  {
    StatusCountsPartition(accidents);
    var unknown := Filter(accidents, IsUnknownStatus);
    if |unknown| > 0 {
      assert unknown[0] in unknown;
    }
  }

  /** The type label: three known types, "기타" for every other type. */
  function TypeLabel(accidentType: string): (text: string)
    ensures accidentType == "vehicle" ==> text == "차량 사고"
    ensures accidentType == "package_damage" ==> text == "물품 손상"
    ensures accidentType == "injury" ==> text == "부상"
    ensures text == "기타" <==> accidentType !in {"vehicle", "package_damage", "injury"}
  {
    if accidentType == "vehicle" then "차량 사고"
    else if accidentType == "package_damage" then "물품 손상"
    else if accidentType == "injury" then "부상"
    else "기타"
  }

  /** The status badge text: three named statuses, "접수됨" for every other one, "reported" included. */
  function StatusLabel(status: string): (text: string)
    ensures status == "closed" ==> text == "종료"
    ensures status == "resolved" ==> text == "해결됨"
    ensures status == "investigating" ==> text == "조사 중"
    ensures text == "접수됨" <==> status !in {"closed", "resolved", "investigating"}
    ensures status == "reported" ==> text == "접수됨"
  {
    if status == "closed" then "종료"
    else if status == "resolved" then "해결됨"
    else if status == "investigating" then "조사 중"
    else "접수됨"
  }

  /** The status badge colours, chosen by the same case split as its text. */
  function StatusStyle(status: string): string
  {
    if status == "closed" then "bg-gray-100 text-gray-800"
    else if status == "resolved" then "bg-green-100 text-green-800"
    else if status == "investigating" then "bg-blue-100 text-blue-800"
    else "bg-yellow-100 text-yellow-800"
  }

  /** Style and text always come as a pair: two statuses share a badge style exactly when they share its text. */
  lemma BadgeConsistent(s1: string, s2: string)
    ensures StatusStyle(s1) == StatusStyle(s2) <==> StatusLabel(s1) == StatusLabel(s2)
  {
  }
}
