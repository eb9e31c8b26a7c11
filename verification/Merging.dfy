/** Merging the detections of a page that overlap. */
module Merging {
  import opened PageText
  import opened Sorting
  import Domain

  predicate Overlaps(a: Domain.Box, b: Domain.Box) {
    !(a.x2 < b.x1 || b.x2 < a.x1 || a.y2 < b.y1 || b.y2 < a.y1)
  }

  predicate Contains(outer: Domain.Box, inner: Domain.Box) {
    outer.x1 <= inner.x1 && outer.y1 <= inner.y1 && inner.x2 <= outer.x2 && inner.y2 <= outer.y2
  }

  function Min(a: int, b: int): int {
    if b < a then b else a
  }

  function Max(a: int, b: int): int {
    if b > a then b else a
  }

  function Union(a: Domain.Box, b: Domain.Box): Domain.Box {
    Domain.Box(Min(a.x1, b.x1), Min(a.y1, b.y1), Max(a.x2, b.x2), Max(a.y2, b.y2))
  }

  predicate Fits(a: Detection, b: Detection) {
    a.page == b.page && a.category == b.category && Overlaps(a.box, b.box)
  }

  function Combined(a: Detection, b: Detection): Detection {
    a.(box := Union(a.box, b.box), confidence := if b.confidence > a.confidence then b.confidence else a.confidence)
  }

  /** The name of a category, as it is stored and sorted. */
  function Name(c: Domain.Category): string {
    match c
    case PersonName => "person_name"
    case OrganizationName => "organization_name"
    case StreetAddress => "street_address"
    case Email => "email"
    case Phone => "phone"
    case Ssn => "ssn"
    case Itin => "itin"
    case Ein => "ein"
    case Ptin => "ptin"
    case Efin => "efin"
    case IpPin => "ip_pin"
    case CafNumber => "caf_number"
    case BankAccount => "bank_account"
    case RoutingNumber => "routing_number"
    case PaymentCard => "payment_card"
    case StateTaxId => "state_tax_id"
    case EmployeeId => "employee_id"
    case HealthInsuranceId => "health_insurance_id"
    case OtherPrivateId => "other_private_id"
    case DateOfBirth => "date_of_birth"
    case DateOfDeath => "date_of_death"
    case DriverLicense => "driver_license"
    case Passport => "passport"
    case IpAddress => "ip_address"
    case Signature => "signature"
    case UserAdded => "user_added"
  }

  /** Page, category name, top edge, left edge; the name ends in a mark below every character. */
  function ReadingOrder(d: Detection): seq<int> {
    var name := Name(d.category);
    [d.page as int] + seq(|name|, i requires 0 <= i < |name| => name[i] as int) + [-1, d.box.y1, d.box.x1]
  }

  // ---------------------------------------------------------------- the groups behind the merged detections

  /** Grown from its first member: each further one overlaps the hull of those before it. */
  ghost predicate Chained(group: seq<Detection>) {
    group != [] && forall k | 0 < k < |group| :: Fits(Hull(group[..k]), group[k])
  }

  /** The first detection with the smallest box around the whole group and its largest confidence. */
  function Hull(group: seq<Detection>): Detection
    requires group != []
  {
    if |group| == 1 then group[0] else Combined(Hull(group[..|group| - 1]), group[|group| - 1])
  }

  /** Every merged detection is the hull of its group. */
  ghost predicate Merged(merged: seq<Detection>, groups: seq<seq<Detection>>) {
    |merged| == |groups| && forall i | 0 <= i < |groups| :: Chained(groups[i]) && merged[i] == Hull(groups[i])
  }

  lemma JoinGroup(group: seq<Detection>, d: Detection)
    requires Chained(group) && Fits(Hull(group), d)
    ensures Chained(group + [d]) && Hull(group + [d]) == Combined(Hull(group), d)
  {
    assert (group + [d])[..|group|] == group;
    forall k | 0 < k < |group| + 1
      ensures Fits(Hull((group + [d])[..k]), (group + [d])[k])
    {
      assert k < |group| ==> (group + [d])[..k] == group[..k];
    }
  }

  /** The index of the first merged detection the new one overlaps, or the number of them. */
  function Candidate(merged: seq<Detection>, d: Detection): (i: nat)
    ensures i <= |merged| && (i < |merged| ==> Fits(merged[i], d)) && forall k | 0 <= k < i :: !Fits(merged[k], d)
  {
    if merged == [] then 0 else if Fits(merged[0], d) then 0 else 1 + Candidate(merged[1..], d)
  }

  lemma {:induction false} CandidateIsFirst(merged: seq<Detection>, d: Detection, i: nat)
    requires i <= |merged| && (i < |merged| ==> Fits(merged[i], d)) && forall k | 0 <= k < i :: !Fits(merged[k], d)
    ensures Candidate(merged, d) == i
  {
    if i > 0 {
      CandidateIsFirst(merged[1..], d, i - 1);
    }
  }

  function MergeOne(merged: seq<Detection>, d: Detection): seq<Detection> {
    var i := Candidate(merged, d);
    if i < |merged| then merged[i := Combined(merged[i], d)] else merged + [d]
  }

  /** Merging one detection after the other. */
  function MergeAll(ordered: seq<Detection>): seq<Detection> {
    if ordered == [] then [] else MergeOne(MergeAll(ordered[..|ordered| - 1]), ordered[|ordered| - 1])
  }

  lemma OneIsAGroup(d: Detection)
    ensures Chained([d]) && Hull([d]) == d
  {
  }

  lemma {:induction false} MergeAllGroups(ordered: seq<Detection>) returns (groups: seq<seq<Detection>>)
    ensures Merged(MergeAll(ordered), groups) && multiset(Flatten(groups)) == multiset(ordered)
  {
    groups := [];
    hide Chained, Hull, Combined, Fits, Candidate;
    if ordered != [] {
      var rest, last := ordered[..|ordered| - 1], ordered[|ordered| - 1];
      assert ordered == rest + [last];
      groups := MergeAllGroups(rest);
      var i := Candidate(MergeAll(rest), last);
      if i < |groups| {
        JoinGroup(groups[i], last);
        FlattenGrow(groups, i, last);
        groups := groups[i := groups[i] + [last]];
      } else {
        OneIsAGroup(last);
        FlattenAppend(groups, [last]);
        groups := groups + [[last]];
      }
    }
  }

  function MergeDetections(detections: seq<Detection>): seq<Detection> {
    MergeAll(SortBy(detections, ReadingOrder))
  }

  lemma MergeNext(ordered: seq<Detection>, n: nat)
    requires n < |ordered|
    ensures MergeAll(ordered[..n + 1]) == MergeOne(MergeAll(ordered[..n]), ordered[n])
  {
    assert ordered[..n + 1][..n] == ordered[..n];
  }

  method MergePageDetections(detections: seq<Detection>) returns (merged: seq<Detection>)
    ensures merged == MergeDetections(detections)
  {
    merged := [];
    var ordered := SortBy(detections, ReadingOrder);
    for n := 0 to |ordered|
      invariant merged == MergeAll(ordered[..n])
    {
      MergeNext(ordered, n);
      var i := Candidate(merged, ordered[n]);
      if i == |merged| {
        merged := merged + [ordered[n]];
      } else {
        merged := merged[i := Combined(merged[i], ordered[n])];
      }
    }
    assert ordered[..|ordered|] == ordered;
  }

  // ---------------------------------------------------------------- what merging promises

  /** The detections fall into groups, and every output is the exact hull of one of them. */
  lemma MergePartitions(detections: seq<Detection>) returns (groups: seq<seq<Detection>>)
    ensures Merged(MergeDetections(detections), groups) && multiset(Flatten(groups)) == multiset(detections)
  {
    SortByIsSorted(detections, ReadingOrder);
    groups := MergeAllGroups(SortBy(detections, ReadingOrder));
  }

  /** The box of `h` has that of `d` in it, on the same page and for the same category. */
  predicate Around(h: Detection, d: Detection) {
    d.page == h.page && d.category == h.category && Contains(h.box, d.box) && d.confidence <= h.confidence
  }

  /** A hull has the page and category of all members and contains them, */
  lemma {:induction false} HullContains(group: seq<Detection>)
    requires Chained(group)
    ensures forall k | 0 <= k < |group| :: Around(Hull(group), group[k])
  {
    var n := |group| - 1;
    if n > 0 {
      ChainedPart(group);
      HullContains(group[..n]);
      assert Fits(Hull(group[..n]), group[n]);
      forall k | 0 <= k < |group|
        ensures Around(Hull(group), group[k])
      {
        assert k < n ==> Around(Hull(group[..n]), group[..n][k]);
      }
    }
  }

  lemma ChainedPart(group: seq<Detection>)
    requires Chained(group) && |group| > 1
    ensures Chained(group[..|group| - 1])
  {
    var rest := group[..|group| - 1];
    forall k | 0 < k < |rest|
      ensures Fits(Hull(rest[..k]), rest[k])
    {
      assert rest[..k] == group[..k];
    }
  }

  /** and is no larger and no surer than they require: each side, and the confidence, is that of a member. */
  lemma {:induction false} HullIsTight(group: seq<Detection>)
    returns (left: nat, top: nat, right: nat, bottom: nat, sure: nat)
    requires group != []
    ensures left < |group| && group[left].box.x1 == Hull(group).box.x1
    ensures top < |group| && group[top].box.y1 == Hull(group).box.y1
    ensures right < |group| && group[right].box.x2 == Hull(group).box.x2
    ensures bottom < |group| && group[bottom].box.y2 == Hull(group).box.y2
    ensures sure < |group| && group[sure].confidence == Hull(group).confidence
  {
    var n := |group| - 1;
    left, top, right, bottom, sure := n, n, n, n, n;
    if n > 0 {
      var l, t, r, b, c := HullIsTight(group[..n]);
      var h, d := Hull(group[..n]), group[n];
      if h.box.x1 <= d.box.x1 { left := l; }
      if h.box.y1 <= d.box.y1 { top := t; }
      if h.box.x2 >= d.box.x2 { right := r; }
      if h.box.y2 >= d.box.y2 { bottom := b; }
      if h.confidence >= d.confidence { sure := c; }
    }
  }

  lemma {:induction false} GroupWith(groups: seq<seq<Detection>>, d: Detection) returns (g: nat, k: nat)
    requires d in multiset(Flatten(groups))
    ensures g < |groups| && k < |groups[g]| && groups[g][k] == d
  {
    g := |groups| - 1;
    if d in groups[g] {
      k :| 0 <= k < |groups[g]| && groups[g][k] == d;
    } else {
      g, k := GroupWith(groups[..g], d);
    }
  }

  /** No detection is lost: each lies inside a merged one of its page and category. */
  lemma MergeCovers(detections: seq<Detection>, d: Detection)
    requires d in detections
    ensures exists m :: m in MergeDetections(detections) && m.page == d.page && m.category == d.category
                        && Contains(m.box, d.box) && d.confidence <= m.confidence
  {
    var groups := MergePartitions(detections);
    assert d in multiset(detections);
    var g, k := GroupWith(groups, d);
    HullContains(groups[g]);
    assert MergeDetections(detections)[g] == Hull(groups[g]);
  }

  /** And none appears from nowhere: the category of a merged detection was there before. */
  lemma MergeAddsNothing(detections: seq<Detection>, m: Detection)
    requires m in MergeDetections(detections)
    ensures exists d :: d in detections && d.page == m.page && d.category == m.category && Contains(m.box, d.box)
  {
    var groups := MergePartitions(detections);
    var g :| 0 <= g < |groups| && Hull(groups[g]) == m;
    HullContains(groups[g]);
    assert Around(Hull(groups[g]), groups[g][0]);
    InFlatten(groups, g, 0);
    assert groups[g][0] in multiset(detections);
  }

  lemma {:induction false} SamePrefix(p: seq<int>, x: seq<int>, y: seq<int>)
    ensures LexLeq(p + x, p + y) == LexLeq(x, y)
  {
    if p == [] {
      assert p + x == x && p + y == y;
    } else {
      assert (p + x)[1..] == p[1..] + x && (p + y)[1..] == p[1..] + y;
      SamePrefix(p[1..], x, y);
    }
  }

  lemma SamePageAndCategory(a: Detection, b: Detection)
    requires a.page == b.page && a.category == b.category && a.box.y1 < b.box.y1
    ensures LexLeq(ReadingOrder(a), ReadingOrder(b))
  {
    var name := Name(a.category);
    var p := [a.page as int] + seq(|name|, i requires 0 <= i < |name| => name[i] as int) + [-1];
    assert ReadingOrder(a) == p + [a.box.y1, a.box.x1] && ReadingOrder(b) == p + [b.box.y1, b.box.x1];
    SamePrefix(p, [a.box.y1, a.box.x1], [b.box.y1, b.box.x1]);
  }

  lemma SortedTriple(a: Detection, b: Detection, c: Detection)
    requires LexLeq(ReadingOrder(a), ReadingOrder(b)) && LexLeq(ReadingOrder(b), ReadingOrder(c))
    ensures SortBy([a, b, c], ReadingOrder) == [a, b, c]
  {
    assert [a, b, c][..2] == [a, b] && [a, b][..1] == [a] && [a][..0] == [];
    assert SortBy([a], ReadingOrder) == [a];
    assert SortBy([a, b], ReadingOrder) == [a, b];
  }

  /** Merged boxes may still overlap: growing one can reach another that is already there. */
  lemma ThirdJoinsFirst(a: Detection, b: Detection, c: Detection)
    requires !Fits(a, b) && Fits(a, c)
    ensures MergeAll([a, b, c]) == [Combined(a, c), b]
  {
    hide Fits, Combined;
    assert [a, b, c][..2] == [a, b] && [a, b][..1] == [a] && [a][..0] == [];
    assert MergeAll([a]) == [a];
    CandidateIsFirst([a], b, 1);
    assert MergeAll([a, b]) == [a, b];
    CandidateIsFirst([a, b], c, 0);
  }

  lemma MergedBoxesMayOverlap()
    ensures exists detections, d, e :: MergeDetections(detections) == [d, e] && Fits(d, e)
  {
    var a := Detection(0, Domain.Ssn, Domain.Box(0, 0, 10, 50), 1.0);
    var b := Detection(0, Domain.Ssn, Domain.Box(20, 10, 30, 20), 1.0);
    var c := Detection(0, Domain.Ssn, Domain.Box(5, 15, 25, 20), 1.0);
    hide SortBy, LexLeq, ReadingOrder, MergeAll;
    SamePageAndCategory(a, b);
    SamePageAndCategory(b, c);
    SortedTriple(a, b, c);
    ThirdJoinsFirst(a, b, c);
    assert MergeDetections([a, b, c]) == [Combined(a, c), b] && Fits(Combined(a, c), b);
  }
}
