/**
 Drawing the sample: entries per stratum by largest remainder, then the tuning split per
 stratum by largest remainder of what was drawn.
 */
module SampleManifest {
  import opened Wrappers
  import opened Sorting
  import opened Allocation
  import opened ShardManifest

  datatype SampleError = InvalidSplit | NotEnoughReadable | Corpus(error: CorpusError)

  datatype Band = Single | Short | Medium | Long

  function PageBand(pages: nat): Band {
    if pages == 1 then Single else if pages <= 5 then Short else if pages <= 20 then Medium else Long
  }

  type Stratum = (Band, TextKind)

  function StratumOf(e: Entry): Stratum {
    (PageBand(e.pages), e.kind)
  }

  /** The groups of the corpus: non-empty, one for each stratum that occurs. */
  ghost predicate OfOneStratum(group: seq<Entry>) {
    group != [] && forall i | 0 <= i < |group| :: StratumOf(group[i]) == StratumOf(group[0])
  }

  ghost predicate WellGrouped(groups: seq<seq<Entry>>) {
    && (forall g | 0 <= g < |groups| :: OfOneStratum(groups[g]))
    && forall g, h | 0 <= g < h < |groups| :: StratumOf(groups[g][0]) != StratumOf(groups[h][0])
  }

  ghost predicate DistinctIds(s: seq<Entry>) {
    forall i, j | 0 <= i < j < |s| :: s[i].id != s[j].id
  }

  function Lengths(groups: seq<seq<Entry>>): (r: seq<nat>)
    ensures |r| == |groups| && forall g | 0 <= g < |r| :: r[g] == |groups[g]|
  {
    seq(|groups|, g requires 0 <= g < |groups| => |groups[g]|)
  }

  /** The entries of one stratum, in order. */
  function Of(s: seq<Entry>, key: Stratum): seq<Entry> {
    if s == [] then []
    else Of(s[..|s| - 1], key) + if StratumOf(s[|s| - 1]) == key then [s[|s| - 1]] else []
  }

  /** How many entries of the final sample are in the tuning split. */
  function TuningCount(s: seq<Entry>): nat {
    if s == [] then 0 else TuningCount(s[..|s| - 1]) + if s[|s| - 1].split == Tuning then 1 else 0
  }

  // ---------------------------------------------------------------- strata of a sequence

  lemma {:induction false} OfAppend(x: seq<Entry>, y: seq<Entry>, key: Stratum)
    ensures Of(x + y, key) == Of(x, key) + Of(y, key)
  {
    if y == [] {
      assert x + y == x;
    } else {
      assert (x + y)[..|x + y| - 1] == x + y[..|y| - 1];
      OfAppend(x, y[..|y| - 1], key);
    }
  }

  lemma {:induction false} OfContent(s: seq<Entry>, key: Stratum)
    ensures forall e :: multiset(Of(s, key))[e] == if StratumOf(e) == key then multiset(s)[e] else 0
  {
    if s != [] {
      assert s == s[..|s| - 1] + [s[|s| - 1]];
      OfContent(s[..|s| - 1], key);
    }
  }

  lemma OfIsOrderFree(s: seq<Entry>, t: seq<Entry>, key: Stratum)
    requires multiset(s) == multiset(t)
    ensures |Of(s, key)| == |Of(t, key)|
  {
    OfContent(s, key);
    OfContent(t, key);
    assert multiset(Of(s, key)) == multiset(Of(t, key));
    assert |multiset(Of(s, key))| == |Of(s, key)| && |multiset(Of(t, key))| == |Of(t, key)|;
  }

  lemma {:induction false} OfUniform(s: seq<Entry>, key: Stratum, same: bool)
    requires forall i | 0 <= i < |s| :: StratumOf(s[i]) == key <==> same
    ensures Of(s, key) == if same then s else []
  {
    if s != [] {
      OfUniform(s[..|s| - 1], key, same);
      assert s == s[..|s| - 1] + [s[|s| - 1]];
    }
  }

  // ---------------------------------------------------------------- identifiers

  function Ids(s: seq<Entry>): (r: set<string>)
    ensures forall x :: x in r <==> exists i :: 0 <= i < |s| && s[i].id == x
  {
    if s == [] then {} else Ids(s[..|s| - 1]) + {s[|s| - 1].id}
  }

  lemma {:induction false} DistinctIdsCount(s: seq<Entry>)
    requires DistinctIds(s)
    ensures |Ids(s)| == |s|
  {
    if s != [] {
      DistinctIdsCount(s[..|s| - 1]);
    }
  }

  /** Part of a sequence with distinct identifiers, in any order, has distinct identifiers. */
  lemma DistinctIdsOfPart(part: seq<Entry>, whole: seq<Entry>)
    requires multiset(part) <= multiset(whole) && DistinctIds(whole)
    ensures DistinctIds(part)
  {
    forall i, j | 0 <= i < j < |part|
      ensures part[i].id != part[j].id
    {
      if part[i] == part[j] {
        TwiceInSequence(part, i, j);
        OnlyOnce(whole, part[i]);
      } else {
        assert part[i] in multiset(whole) && part[j] in multiset(whole);
        var x :| 0 <= x < |whole| && whole[x] == part[i];
        var y :| 0 <= y < |whole| && whole[y] == part[j];
        assert x < y || y < x;
      }
    }
  }

  lemma {:induction false} OnlyOnce(s: seq<Entry>, e: Entry)
    requires DistinctIds(s)
    ensures multiset(s)[e] <= 1
  {
    if s != [] {
      var rest, last := s[..|s| - 1], s[|s| - 1];
      assert s == rest + [last];
      OnlyOnce(rest, e);
      forall i | 0 <= i < |rest|
        ensures rest[i] != last
      {
        assert s[i].id != s[|s| - 1].id;
      }
      assert last !in multiset(rest);
    }
  }

  // ---------------------------------------------------------------- marking the tuning split

  function Mark(e: Entry, tuning: set<string>): Entry {
    e.(split := if e.id in tuning then Tuning else Holdout)
  }

  function Marked(s: seq<Entry>, tuning: set<string>): (r: seq<Entry>)
    ensures |r| == |s|
  {
    Map(s, e => Mark(e, tuning))
  }

  lemma IntersectMore(t: set<string>, a: set<string>, x: string)
    requires x !in a
    ensures |t * (a + {x})| == |t * a| + if x in t then 1 else 0
  {
    assert t * (a + {x}) == t * a + if x in t then {x} else {};
  }

  lemma LastIdIsNew(s: seq<Entry>)
    requires s != [] && DistinctIds(s)
    ensures s[|s| - 1].id !in Ids(s[..|s| - 1]) && DistinctIds(s[..|s| - 1])
  {
  }

  lemma {:induction false} MarkedCount(s: seq<Entry>, tuning: set<string>)
    requires DistinctIds(s)
    ensures TuningCount(Marked(s, tuning)) == |tuning * Ids(s)|
  {
    if s == [] {
      assert tuning * Ids(s) == {};
    } else {
      var rest, last := s[..|s| - 1], s[|s| - 1];
      LastIdIsNew(s);
      MarkedCount(rest, tuning);
      IntersectMore(tuning, Ids(rest), last.id);
      assert Marked(s, tuning)[..|s| - 1] == Marked(rest, tuning);
      assert Marked(s, tuning)[|s| - 1] == Mark(last, tuning);
    }
  }

  // ---------------------------------------------------------------- the corpus in groups

  /** A file of the corpus: None where reading it failed. */
  datatype Candidate = Candidate(pages: Option<int>, digest: string, kind: TextKind)

  predicate HasPages(c: Candidate) {
    c.pages.Some? && c.pages.value >= 1
  }

  /** The entries of the corpus: the first file of each content that has pages. */
  function Readable(files: seq<Candidate>, rank: string -> string): seq<Entry> {
    if files == [] then []
    else
      var rest, last := files[..|files| - 1], files[|files| - 1];
      Readable(rest, rank)
      + if HasPages(last) && last.digest !in Contents(rest) then [EntryOf(last, rank)] else []
  }

  function EntryOf(file: Candidate, rank: string -> string): Entry
    requires HasPages(file)
  {
    Entry(rank(file.digest), file.pages.value, file.kind, Holdout)
  }

  function Contents(files: seq<Candidate>): set<string> {
    if files == [] then {}
    else Contents(files[..|files| - 1]) + if HasPages(files[|files| - 1]) then {files[|files| - 1].digest} else {}
  }

  /** Different contents have different identifiers. */
  ghost predicate RanksApart(rank: string -> string, contents: set<string>) {
    forall x, y | x in contents && y in contents && x != y :: rank(x) != rank(y)
  }

  ghost predicate RanksOne(id: string, rank: string -> string, contents: set<string>) {
    exists d :: d in contents && id == rank(d)
  }

  lemma {:induction false} ReadableComesFromContents(files: seq<Candidate>, rank: string -> string, i: nat)
    requires i < |Readable(files, rank)|
    ensures RanksOne(Readable(files, rank)[i].id, rank, Contents(files))
  {
    if files != [] {
      var rest, last := files[..|files| - 1], files[|files| - 1];
      if i < |Readable(rest, rank)| {
        ReadableComesFromContents(rest, rank, i);
      } else {
        assert last.digest in Contents(files);
      }
    }
  }

  /** The same content twice is one entry, so identifiers that tell contents apart are distinct. */
  lemma {:induction false} ReadableHasDistinctIds(files: seq<Candidate>, rank: string -> string)
    requires RanksApart(rank, Contents(files))
    ensures DistinctIds(Readable(files, rank))
  {
    if files != [] {
      var rest, last := files[..|files| - 1], files[|files| - 1];
      assert Contents(rest) <= Contents(files);
      ReadableHasDistinctIds(rest, rank);
      var r := Readable(rest, rank);
      forall i | 0 <= i < |r| && HasPages(last) && last.digest !in Contents(rest)
        ensures r[i].id != rank(last.digest)
      {
        ReadableComesFromContents(rest, rank, i);
        var d :| d in Contents(rest) && r[i].id == rank(d);
      }
    }
  }

  function GroupOf(groups: seq<seq<Entry>>, key: Stratum): (g: nat)
    requires forall i | 0 <= i < |groups| :: groups[i] != []
    ensures g <= |groups| && (g < |groups| ==> StratumOf(groups[g][0]) == key)
    ensures g == |groups| ==> forall i | 0 <= i < |groups| :: StratumOf(groups[i][0]) != key
  {
    if groups == [] then 0
    else
      var g := GroupOf(groups[..|groups| - 1], key);
      if g < |groups| - 1 then g
      else if StratumOf(groups[|groups| - 1][0]) == key then |groups| - 1 else |groups|
  }

  /** Appends to the group of the entry's stratum, opening it when it is new. */
  function Put(groups: seq<seq<Entry>>, e: Entry): seq<seq<Entry>>
    requires forall i | 0 <= i < |groups| :: groups[i] != []
  {
    var g := GroupOf(groups, StratumOf(e));
    if g < |groups| then groups[g := groups[g] + [e]] else groups + [[e]]
  }

  lemma PutKeepsStrata(groups: seq<seq<Entry>>, e: Entry, i: nat)
    requires WellGrouped(groups) && i < |Put(groups, e)|
    ensures OfOneStratum(Put(groups, e)[i])
    ensures StratumOf(Put(groups, e)[i][0]) == if i < |groups| then StratumOf(groups[i][0]) else StratumOf(e)
  {
    if i < |groups| {
      assert OfOneStratum(groups[i]);
    }
  }

  lemma PutKeepsGroupsApart(groups: seq<seq<Entry>>, e: Entry, i: nat, j: nat)
    requires WellGrouped(groups) && i < j < |Put(groups, e)|
    ensures OfOneStratum(Put(groups, e)[i]) && OfOneStratum(Put(groups, e)[j])
    ensures StratumOf(Put(groups, e)[i][0]) != StratumOf(Put(groups, e)[j][0])
  {
    PutKeepsStrata(groups, e, i);
    PutKeepsStrata(groups, e, j);
  }

  lemma PutAddsOne(groups: seq<seq<Entry>>, e: Entry)
    requires WellGrouped(groups)
    ensures multiset(Flatten(Put(groups, e))) == multiset(Flatten(groups)) + multiset{e}
  {
    var g, after := GroupOf(groups, StratumOf(e)), Put(groups, e);
    if g < |groups| {
      FlattenGrow(groups, g, e);
    } else {
      assert after[..|groups|] == groups;
    }
  }

  lemma PutKeepsGroups(groups: seq<seq<Entry>>, e: Entry)
    requires WellGrouped(groups)
    ensures WellGrouped(Put(groups, e))
    ensures multiset(Flatten(Put(groups, e))) == multiset(Flatten(groups)) + multiset{e}
  {
    PutAddsOne(groups, e);
    forall i | 0 <= i < |Put(groups, e)|
      ensures OfOneStratum(Put(groups, e)[i])
    {
      PutKeepsStrata(groups, e, i);
    }
    forall i, j | 0 <= i < j < |Put(groups, e)|
      ensures StratumOf(Put(groups, e)[i][0]) != StratumOf(Put(groups, e)[j][0])
    {
      PutKeepsGroupsApart(groups, e, i, j);
    }
  }

  /** One more file is one more entry when it is readable and its content is new. */
  lemma ReadableNext(files: seq<Candidate>, rank: string -> string, n: nat)
    requires n < |files|
    ensures var file, seen := files[n], Contents(files[..n]);
            && Contents(files[..n + 1]) == (if HasPages(file) then seen + {file.digest} else seen)
            && Readable(files[..n + 1], rank)
               == Readable(files[..n], rank)
                  + if HasPages(file) && file.digest !in seen then [EntryOf(file, rank)] else []
  {
    assert files[..n + 1][..n] == files[..n];
  }

  lemma GroupsHaveEntries(groups: seq<seq<Entry>>)
    requires WellGrouped(groups)
    ensures forall g | 0 <= g < |groups| :: groups[g] != []
  {
    forall g | 0 <= g < |groups|
      ensures groups[g] != []
    {
      assert OfOneStratum(groups[g]);
    }
  }

  /** Reads the corpus into its strata: every readable content once, in the group of its stratum. */
  method Group(files: seq<Candidate>, rank: string -> string) returns (groups: seq<seq<Entry>>)
    ensures WellGrouped(groups)
    ensures multiset(Flatten(groups)) == multiset(Readable(files, rank))
  {
    groups := [];
    var seen: set<string> := {};
    var n := 0;
    assert Contents(files[..0]) == {} && Readable(files[..0], rank) == [] && Flatten(groups) == [];
    assert WellGrouped(groups);
    hide Contents, Readable, Flatten, Put, WellGrouped, OfOneStratum, EntryOf;
    while n < |files|
      invariant n <= |files| && WellGrouped(groups)
      invariant seen == Contents(files[..n])
      invariant multiset(Flatten(groups)) == multiset(Readable(files[..n], rank))
    {
      var file := files[n];
      ReadableNext(files, rank, n);
      n := n + 1;
      if !HasPages(file) || file.digest in seen {
        continue;
      }
      seen := seen + {file.digest};
      var entry := EntryOf(file, rank);
      GroupsHaveEntries(groups);
      PutKeepsGroups(groups, entry);
      groups := Put(groups, entry);
    }
    assert files[..n] == files;
  }

  // ---------------------------------------------------------------- drawing from the groups

  lemma {:induction false} FlattenLength(groups: seq<seq<Entry>>)
    ensures Population(Lengths(groups)) == |Flatten(groups)|
  {
    if groups == [] {
      assert Sizes(Lengths(groups)) == [];
    } else {
      FlattenLength(groups[..|groups| - 1]);
      assert Sizes(Lengths(groups))[..|groups| - 1] == Sizes(Lengths(groups[..|groups| - 1]));
    }
  }

  /** `a` takes no more from a group than it has. */
  ghost predicate Fits(groups: seq<seq<Entry>>, a: seq<int>) {
    |a| == |groups| && forall g | 0 <= g < |a| :: 0 <= a[g] <= |groups[g]|
  }

  /** The first a[g] entries of every group g. */
  function Heads(groups: seq<seq<Entry>>, a: seq<int>): (r: seq<seq<Entry>>)
    requires Fits(groups, a)
    ensures |r| == |groups|
  {
    seq(|groups|, g requires 0 <= g < |groups| => groups[g][..a[g]])
  }

  lemma {:induction false} HeadsLength(groups: seq<seq<Entry>>, a: seq<int>)
    requires Fits(groups, a)
    ensures |Flatten(Heads(groups, a))| == Sum(a)
  {
    if groups != [] {
      var n := |groups| - 1;
      HeadsLength(groups[..n], a[..n]);
      assert Heads(groups, a)[..n] == Heads(groups[..n], a[..n]);
    }
  }

  /** What is flattened of stratum g is group g, when every group is of its own stratum. */
  lemma {:induction false} FlattenOf(groups: seq<seq<Entry>>, keys: seq<Stratum>, g: nat)
    requires |keys| == |groups| && g < |keys| && forall i, j | 0 <= i < j < |keys| :: keys[i] != keys[j]
    requires forall i | 0 <= i < |groups| :: AllOf(groups[i], keys[i])
    ensures Of(Flatten(groups), keys[g]) == groups[g]
  {
    var n := |groups| - 1;
    OfAppend(Flatten(groups[..n]), groups[n], keys[g]);
    OfUniform(groups[n], keys[g], g == n);
    if g == n {
      OfNone(groups[..n], keys[..n], keys[g]);
    } else {
      FlattenOf(groups[..n], keys[..n], g);
    }
  }

  ghost predicate AllOf(s: seq<Entry>, key: Stratum) {
    forall i | 0 <= i < |s| :: StratumOf(s[i]) == key
  }

  lemma {:induction false} OfNone(groups: seq<seq<Entry>>, keys: seq<Stratum>, key: Stratum)
    requires |keys| == |groups| && key !in keys && forall i | 0 <= i < |groups| :: AllOf(groups[i], keys[i])
    ensures Of(Flatten(groups), key) == []
  {
    if groups != [] {
      var n := |groups| - 1;
      OfNone(groups[..n], keys[..n], key);
      OfAppend(Flatten(groups[..n]), groups[n], key);
      OfUniform(groups[n], key, false);
    }
  }

  // ---------------------------------------------------------------- the strata of the sample

  function Keys(groups: seq<seq<Entry>>): (r: seq<Stratum>)
    requires forall i | 0 <= i < |groups| :: groups[i] != []
    ensures |r| == |groups| && forall i | 0 <= i < |r| :: r[i] == StratumOf(groups[i][0])
  {
    seq(|groups|, i requires 0 <= i < |groups| => StratumOf(groups[i][0]))
  }

  /** The entries of the sample in each of the strata, where there are any. */
  function Strata(sample: seq<Entry>, keys: seq<Stratum>): seq<seq<Entry>> {
    if keys == [] then []
    else
      var stratum := Of(sample, keys[|keys| - 1]);
      Strata(sample, keys[..|keys| - 1]) + if stratum == [] then [] else [stratum]
  }

  lemma {:induction false} OfIsAllOf(s: seq<Entry>, key: Stratum)
    ensures AllOf(Of(s, key), key)
  {
    if s != [] {
      OfIsAllOf(s[..|s| - 1], key);
    }
  }

  ghost predicate NoneRepeated(keys: seq<Stratum>) {
    forall i, j | 0 <= i < j < |keys| :: keys[i] != keys[j]
  }

  lemma {:induction false} StrataAreGroups(sample: seq<Entry>, keys: seq<Stratum>)
    requires NoneRepeated(keys)
    ensures WellGrouped(Strata(sample, keys))
    ensures forall j | 0 <= j < |Strata(sample, keys)| ::
              var s := Strata(sample, keys)[j]; StratumOf(s[0]) in keys && s == Of(sample, StratumOf(s[0]))
  {
    if keys != [] {
      var n := |keys| - 1;
      StrataAreGroups(sample, keys[..n]);
      OfIsAllOf(sample, keys[n]);
      forall i | 0 <= i < n
        ensures keys[i] != keys[n]
      {
      }
    }
  }

  lemma {:induction false} StrataContent(sample: seq<Entry>, keys: seq<Stratum>)
    requires NoneRepeated(keys)
    ensures forall e ::
              multiset(Flatten(Strata(sample, keys)))[e] == if StratumOf(e) in keys then multiset(sample)[e] else 0
  {
    if keys != [] {
      var n := |keys| - 1;
      StrataContent(sample, keys[..n]);
      OfContent(sample, keys[n]);
      var before, stratum := Strata(sample, keys[..n]), Of(sample, keys[n]);
      assert keys == keys[..n] + [keys[n]];
      assert before + [] == before && (before + [stratum])[..|before|] == before;
      assert multiset(Flatten(Strata(sample, keys))) == multiset(Flatten(before)) + multiset(stratum);
    }
  }

  // ---------------------------------------------------------------- the tuning split

  /** The identifiers of the first t[j] entries of stratum j, for the first k strata. */
  function TuningIds(strata: seq<seq<Entry>>, t: seq<int>, k: nat): set<string>
    requires Fits(strata, t) && k <= |strata|
  {
    if k == 0 then {} else TuningIds(strata, t, k - 1) + Ids(strata[k - 1][..t[k - 1]])
  }

  lemma {:induction false} StratumOfTuningId(strata: seq<seq<Entry>>, t: seq<int>, k: nat, id: string) returns (j: nat)
    requires Fits(strata, t) && k <= |strata| && id in TuningIds(strata, t, k)
    ensures j < k && id in Ids(strata[j][..t[j]]) && id in Ids(strata[j])
  {
    j := k - 1;
    if id in Ids(strata[j][..t[j]]) {
      IdsOfPrefix(strata[j], t[j]);
    } else {
      j := StratumOfTuningId(strata, t, k - 1, id);
    }
  }

  lemma {:induction false} HeadsAreTuningIds(strata: seq<seq<Entry>>, t: seq<int>, k: nat, j: nat)
    requires Fits(strata, t) && j < k <= |strata|
    ensures Ids(strata[j][..t[j]]) <= TuningIds(strata, t, k)
  {
    if j < k - 1 {
      HeadsAreTuningIds(strata, t, k - 1, j);
    }
  }

  lemma IdsOfPrefix(s: seq<Entry>, n: nat)
    requires n <= |s|
    ensures Ids(s[..n]) <= Ids(s)
  {
  }

  lemma {:induction false} FlattenHolds(groups: seq<seq<Entry>>, j: nat)
    requires j < |groups|
    ensures multiset(groups[j]) <= multiset(Flatten(groups))
  {
    var n := |groups| - 1;
    if j < n {
      FlattenHolds(groups[..n], j);
    }
  }

  /** Distinct identifiers overall: no identifier is in two strata. */
  lemma {:induction false} StrataShareNoId(strata: seq<seq<Entry>>, i: nat, j: nat)
    requires DistinctIds(Flatten(strata)) && i < j < |strata|
    ensures Ids(strata[i]) !! Ids(strata[j])
  {
    var n := |strata| - 1;
    var before, last := Flatten(strata[..n]), strata[n];
    if j < n {
      assert before == Flatten(strata)[..|before|];
      StrataShareNoId(strata[..n], i, j);
    } else {
      FlattenHolds(strata[..n], i);
      forall x, y | 0 <= x < |strata[i]| && 0 <= y < |last|
        ensures strata[i][x].id != last[y].id
      {
        assert strata[i][x] in multiset(strata[i]) && strata[i][x] in multiset(before);
        var z :| 0 <= z < |before| && before[z] == strata[i][x];
        assert Flatten(strata)[z] == before[z] && Flatten(strata)[|before| + y] == last[y];
      }
    }
  }

  lemma DistinctInStratum(strata: seq<seq<Entry>>, j: nat)
    requires DistinctIds(Flatten(strata)) && j < |strata|
    ensures DistinctIds(strata[j])
  {
    FlattenHolds(strata, j);
    DistinctIdsOfPart(strata[j], Flatten(strata));
  }

  lemma {:induction false} TuningIdsCount(strata: seq<seq<Entry>>, t: seq<int>, k: nat)
    requires Fits(strata, t) && k <= |strata| && DistinctIds(Flatten(strata))
    ensures |TuningIds(strata, t, k)| == Sum(t[..k])
  {
    if k > 0 {
      var j := k - 1;
      TuningIdsCount(strata, t, j);
      assert t[..k][..j] == t[..j];
      DistinctInStratum(strata, j);
      DistinctIdsCount(strata[j][..t[j]]);
      forall id | id in TuningIds(strata, t, j)
        ensures id !in Ids(strata[j])
      {
        var i := StratumOfTuningId(strata, t, j, id);
        StrataShareNoId(strata, i, j);
      }
      IdsOfPrefix(strata[j], t[j]);
    }
  }

  lemma IdsOfPart(part: seq<Entry>, whole: seq<Entry>)
    requires multiset(part) <= multiset(whole)
    ensures Ids(part) <= Ids(whole)
  {
    forall i | 0 <= i < |part|
      ensures part[i].id in Ids(whole)
    {
      assert part[i] in multiset(whole);
    }
  }

  /** The whole sample has as many tuning entries as the amounts say. */
  lemma TuningTotal(sample: seq<Entry>, strata: seq<seq<Entry>>, t: seq<int>)
    requires Fits(strata, t) && DistinctIds(sample) && multiset(Flatten(strata)) == multiset(sample)
    ensures TuningCount(Marked(sample, TuningIds(strata, t, |strata|))) == Sum(t)
  {
    var ids := TuningIds(strata, t, |strata|);
    DistinctIdsOfPart(Flatten(strata), sample);
    TuningIdsCount(strata, t, |strata|);
    assert t[..|strata|] == t;
    forall id | id in ids
      ensures id in Ids(sample)
    {
      var j := StratumOfTuningId(strata, t, |strata|, id);
      FlattenHolds(strata, j);
      IdsOfPart(strata[j], sample);
    }
    MarkedCount(sample, ids);
    assert ids * Ids(sample) == ids;
  }

  lemma {:induction false} OfMarked(s: seq<Entry>, ids: set<string>, key: Stratum)
    ensures Of(Marked(s, ids), key) == Marked(Of(s, key), ids)
  {
    if s != [] {
      assert Marked(s, ids)[..|s| - 1] == Marked(s[..|s| - 1], ids);
      OfMarked(s[..|s| - 1], ids, key);
    }
  }

  /** Within a stratum the tuning identifiers are those of its first entries. */
  lemma TuningIdsOfStratum(strata: seq<seq<Entry>>, t: seq<int>, j: nat)
    requires Fits(strata, t) && DistinctIds(Flatten(strata)) && j < |strata|
    ensures TuningIds(strata, t, |strata|) * Ids(strata[j]) == Ids(strata[j][..t[j]])
  {
    HeadsAreTuningIds(strata, t, |strata|, j);
    IdsOfPrefix(strata[j], t[j]);
    forall id | id in TuningIds(strata, t, |strata|) && id in Ids(strata[j])
      ensures id in Ids(strata[j][..t[j]])
    {
      var i := StratumOfTuningId(strata, t, |strata|, id);
      if i < j {
        StrataShareNoId(strata, i, j);
      } else if j < i {
        StrataShareNoId(strata, j, i);
      }
    }
  }

  /** And so has every stratum of it. */
  lemma TuningOfStratum(sample: seq<Entry>, strata: seq<seq<Entry>>, t: seq<int>, j: nat, key: Stratum)
    requires Fits(strata, t) && DistinctIds(sample) && multiset(Flatten(strata)) == multiset(sample)
    requires j < |strata| && strata[j] == Of(sample, key)
    ensures TuningCount(Of(Marked(sample, TuningIds(strata, t, |strata|)), key)) == t[j]
  {
    var ids := TuningIds(strata, t, |strata|);
    DistinctIdsOfPart(Flatten(strata), sample);
    DistinctInStratum(strata, j);
    OfMarked(sample, ids, key);
    MarkedCount(strata[j], ids);
    TuningIdsOfStratum(strata, t, j);
    DistinctIdsCount(strata[j][..t[j]]);
  }

  lemma {:induction false} OfAt(s: seq<Entry>, i: nat)
    requires i < |s|
    ensures var stratum, k := Of(s, StratumOf(s[i])), |Of(s[..i], StratumOf(s[i]))|;
            k < |stratum| && stratum[k] == s[i]
  {
    var n := |s| - 1;
    if i < n {
      assert s[..n][..i] == s[..i];
      OfAt(s[..n], i);
    }
  }

  lemma IdsOfFirst(s: seq<Entry>, n: nat, k: nat)
    requires DistinctIds(s) && n <= |s| && k < |s|
    ensures s[k].id in Ids(s[..n]) <==> k < n
  {
    if k < n {
      assert s[..n][k].id == s[k].id;
    }
  }

  /** An entry is for tuning exactly when it is one of the first t[j] of its stratum. */
  lemma FirstOnesAreTuning(sample: seq<Entry>, strata: seq<seq<Entry>>, t: seq<int>, j: nat, i: nat)
    requires Fits(strata, t) && DistinctIds(sample) && multiset(Flatten(strata)) == multiset(sample)
    requires j < |strata| && i < |sample| && strata[j] == Of(sample, StratumOf(sample[i]))
    ensures Marked(sample, TuningIds(strata, t, |strata|))[i].split == Tuning <==>
            |Of(sample[..i], StratumOf(sample[i]))| < t[j]
  {
    var ids, k := TuningIds(strata, t, |strata|), |Of(sample[..i], StratumOf(sample[i]))|;
    DistinctIdsOfPart(Flatten(strata), sample);
    DistinctInStratum(strata, j);
    TuningIdsOfStratum(strata, t, j);
    OfAt(sample, i);
    IdsOfFirst(strata[j], t[j], k);
    assert strata[j][k].id in Ids(strata[j]);
    assert Marked(sample, ids)[i] == Mark(sample[i], ids);
  }

  // ---------------------------------------------------------------- the sample

  /** `s` has the same entries as the group, in the order of their identifiers. */
  ghost predicate InOrder(s: seq<Entry>, group: seq<Entry>) {
    multiset(s) == multiset(group) && Sorted(s, IdKey)
  }

  lemma {:induction false} SortedGroups(groups: seq<seq<Entry>>, sorted: seq<seq<Entry>>)
    requires |sorted| == |groups| && forall g | 0 <= g < |groups| :: InOrder(sorted[g], groups[g])
    ensures multiset(Flatten(sorted)) == multiset(Flatten(groups))
  {
    if groups != [] {
      var n := |groups| - 1;
      SortedGroups(groups[..n], sorted[..n]);
    }
  }

  lemma SortedGroupsStayGroups(groups: seq<seq<Entry>>, sorted: seq<seq<Entry>>)
    requires WellGrouped(groups) && |sorted| == |groups|
    requires forall g | 0 <= g < |groups| :: InOrder(sorted[g], groups[g])
    ensures WellGrouped(sorted)
  {
    forall g | 0 <= g < |groups|
      ensures sorted[g] != [] && AllOf(sorted[g], StratumOf(groups[g][0]))
    {
      assert groups[g][0] in multiset(sorted[g]);
      forall i | 0 <= i < |sorted[g]|
        ensures StratumOf(sorted[g][i]) == StratumOf(groups[g][0])
      {
        assert sorted[g][i] in multiset(groups[g]);
      }
    }
  }

  /** From every stratum, the readable contents of lowest rank, as many as its largest-remainder share. */
  ghost predicate DrawnByRank(readable: seq<Entry>, count: nat, groups: seq<seq<Entry>>, draws: seq<int>,
                              selected: seq<Entry>)
  {
    && WellGrouped(groups) && multiset(Flatten(groups)) == multiset(readable)
    && (forall g | 0 <= g < |groups| :: Sorted(groups[g], IdKey))
    && Population(Lengths(groups)) > 0 && LargestRemainder(Lengths(groups), count, draws)
    && Fits(groups, draws) && multiset(selected) == multiset(Flatten(Heads(groups, draws)))
  }

  lemma SameLength(a: seq<Entry>, b: seq<Entry>)
    requires multiset(a) == multiset(b)
    ensures |a| == |b|
  {
    assert |a| == |multiset(a)| && |b| == |multiset(b)|;
  }

  lemma DrawnCount(groups: seq<seq<Entry>>, draws: seq<int>, selected: seq<Entry>)
    requires Fits(groups, draws) && multiset(selected) == multiset(Flatten(Heads(groups, draws)))
    ensures |selected| == Sum(draws) && multiset(selected) <= multiset(Flatten(groups))
  {
    HeadsLength(groups, draws);
    SameLength(selected, Flatten(Heads(groups, draws)));
    HeadsArePart(groups, draws);
  }

  lemma DrawnPerStratum(groups: seq<seq<Entry>>, draws: seq<int>, selected: seq<Entry>, g: nat)
    requires WellGrouped(groups) && Fits(groups, draws) && g < |groups|
    requires multiset(selected) == multiset(Flatten(Heads(groups, draws)))
    ensures |Of(selected, StratumOf(groups[g][0]))| == draws[g]
  {
    FlattenOf(Heads(groups, draws), Keys(groups), g);
    OfIsOrderFree(selected, Flatten(Heads(groups, draws)), Keys(groups)[g]);
  }

  lemma StratumIsKnown(groups: seq<seq<Entry>>, e: Entry)
    requires WellGrouped(groups) && e in multiset(Flatten(groups))
    ensures StratumOf(e) in Keys(groups)
  {
    var g := GroupHolding(groups, e);
    assert Keys(groups)[g] == StratumOf(e);
  }

  /** A draw has `count` entries, and from every stratum exactly its share. */
  lemma DrawnCounts(readable: seq<Entry>, count: nat, groups: seq<seq<Entry>>, draws: seq<int>, selected: seq<Entry>)
    requires DrawnByRank(readable, count, groups, draws, selected)
    ensures |selected| == count && multiset(selected) <= multiset(readable)
    ensures forall g | 0 <= g < |groups| :: |Of(selected, StratumOf(groups[g][0]))| == draws[g]
    ensures forall e | e in selected :: StratumOf(e) in Keys(groups)
  {
    DrawnCount(groups, draws, selected);
    forall g | 0 <= g < |groups|
      ensures |Of(selected, StratumOf(groups[g][0]))| == draws[g]
    {
      DrawnPerStratum(groups, draws, selected, g);
    }
    forall e | e in selected
      ensures StratumOf(e) in Keys(groups)
    {
      assert e in multiset(selected);
      StratumIsKnown(groups, e);
    }
  }

  lemma {:induction false} HeadsArePart(groups: seq<seq<Entry>>, a: seq<int>)
    requires Fits(groups, a)
    ensures multiset(Flatten(Heads(groups, a))) <= multiset(Flatten(groups))
  {
    if groups != [] {
      var n := |groups| - 1;
      HeadsArePart(groups[..n], a[..n]);
      assert Heads(groups, a)[..n] == Heads(groups[..n], a[..n]);
      assert groups[n] == groups[n][..a[n]] + groups[n][a[n]..];
    }
  }

  lemma {:induction false} GroupHolding(groups: seq<seq<Entry>>, e: Entry) returns (g: nat)
    requires e in multiset(Flatten(groups))
    ensures g < |groups| && e in groups[g]
  {
    g := |groups| - 1;
    if e !in groups[g] {
      g := GroupHolding(groups[..g], e);
    }
  }

  /** The strata of a draw are all of it. */
  lemma StrataAreEverything(selected: seq<Entry>, keys: seq<Stratum>)
    requires NoneRepeated(keys) && forall e | e in selected :: StratumOf(e) in keys
    ensures multiset(Flatten(Strata(selected, keys))) == multiset(selected)
    ensures Population(Lengths(Strata(selected, keys))) == |selected|
  {
    var all := Flatten(Strata(selected, keys));
    StrataContent(selected, keys);
    SameContent(all, selected, keys);
    FlattenLength(Strata(selected, keys));
  }

  lemma SameContent(all: seq<Entry>, selected: seq<Entry>, keys: seq<Stratum>)
    requires forall e | e in selected :: StratumOf(e) in keys
    requires forall e :: multiset(all)[e] == if StratumOf(e) in keys then multiset(selected)[e] else 0
    ensures multiset(all) == multiset(selected) && |all| == |selected|
  {
    forall e
      ensures multiset(all)[e] == multiset(selected)[e]
    {
      assert e in multiset(selected) ==> e in selected;
    }
    assert multiset(all) == multiset(selected);
    assert |all| == |multiset(all)| && |multiset(selected)| == |selected|;
  }

  /** In every stratum of the selection the first entries are for tuning, as many as its amount, and no others. */
  ghost predicate FirstOnesTuned(sample: seq<Entry>, selected: seq<Entry>, strata: seq<seq<Entry>>, tuning: seq<int>) {
    && |sample| == |selected| && |tuning| == |strata|
    && forall i, j | 0 <= i < |selected| && 0 <= j < |strata| && strata[j] == Of(selected, StratumOf(selected[i])) ::
         sample[i].split == Tuning <==> |Of(selected[..i], StratumOf(selected[i]))| < tuning[j]
  }

  /**
   The tuning part of a sample: in the whole `tuningCount`, per stratum the largest-remainder share, and
   within a stratum the entries of lowest rank.
   */
  ghost predicate SplitByRank(sample: seq<Entry>, selected: seq<Entry>, tuningCount: nat, strata: seq<seq<Entry>>,
                              tuning: seq<int>)
  {
    && TuningCount(sample) == tuningCount
    && Population(Lengths(strata)) > 0 && LargestRemainder(Lengths(strata), tuningCount, tuning)
    && (forall j | 0 <= j < |strata| && strata[j] != [] ::
          TuningCount(Of(sample, StratumOf(strata[j][0]))) == tuning[j])
    && FirstOnesTuned(sample, selected, strata, tuning)
  }

  lemma MarkingSplits(selected: seq<Entry>, keys: seq<Stratum>, tuningCount: nat, tuning: seq<int>)
    requires NoneRepeated(keys) && (forall e | e in selected :: StratumOf(e) in keys) && DistinctIds(selected)
    requires var strata := Strata(selected, keys);
             && Population(Lengths(strata)) > 0 && LargestRemainder(Lengths(strata), tuningCount, tuning)
             && Fits(strata, tuning)
    ensures var strata := Strata(selected, keys);
            SplitByRank(Marked(selected, TuningIds(strata, tuning, |strata|)), selected, tuningCount, strata, tuning)
  {
    var strata := Strata(selected, keys);
    StrataAreEverything(selected, keys);
    StrataAreGroups(selected, keys);
    TuningTotal(selected, strata, tuning);
    forall j | 0 <= j < |strata|
      ensures TuningCount(Of(Marked(selected, TuningIds(strata, tuning, |strata|)), StratumOf(strata[j][0])))
              == tuning[j]
    {
      TuningOfStratum(selected, strata, tuning, j, StratumOf(strata[j][0]));
    }
    forall i, j | 0 <= i < |selected| && 0 <= j < |strata| && strata[j] == Of(selected, StratumOf(selected[i]))
      ensures Marked(selected, TuningIds(strata, tuning, |strata|))[i].split == Tuning <==>
              |Of(selected[..i], StratumOf(selected[i]))| < tuning[j]
    {
      FirstOnesAreTuning(selected, strata, tuning, j, i);
    }
  }

  /** Sorts every group by identifier. */
  method SortGroups(groups: seq<seq<Entry>>) returns (sorted: seq<seq<Entry>>)
    requires WellGrouped(groups)
    ensures WellGrouped(sorted) && multiset(Flatten(sorted)) == multiset(Flatten(groups))
    ensures |sorted| == |groups| && forall g | 0 <= g < |groups| :: InOrder(sorted[g], groups[g])
  {
    sorted := groups;
    var n := 0;
    while n < |sorted|
      invariant n <= |sorted| == |groups|
      invariant forall g | 0 <= g < n :: InOrder(sorted[g], groups[g])
      invariant forall g | n <= g < |groups| :: sorted[g] == groups[g]
    {
      SortByIsSorted(sorted[n], IdKey);
      sorted := sorted[n := SortBy(sorted[n], IdKey)];
      n := n + 1;
    }
    SortedGroups(groups, sorted);
    SortedGroupsStayGroups(groups, sorted);
  }

  /** Collects the identifiers of the tuning split, stratum by stratum. */
  method CollectTuning(strata: seq<seq<Entry>>, t: seq<int>) returns (ids: set<string>)
    requires Fits(strata, t)
    ensures ids == TuningIds(strata, t, |strata|)
  {
    ids := {};
    var n := 0;
    while n < |strata|
      invariant n <= |strata| && ids == TuningIds(strata, t, n)
    {
      ids := ids + Ids(strata[n][..t[n]]);
      n := n + 1;
    }
  }

  lemma KeysAreApart(groups: seq<seq<Entry>>)
    requires WellGrouped(groups)
    ensures NoneRepeated(Keys(groups))
  {
  }

  lemma SharesFit(groups: seq<seq<Entry>>, total: nat, a: seq<int>)
    requires Population(Lengths(groups)) > 0 && LargestRemainder(Lengths(groups), total, a)
    ensures Fits(groups, a)
  {
  }

  /** What a finished sample promises, when enough of the corpus is readable. */
  ghost predicate Sampled(readable: seq<Entry>, count: nat, tuningCount: nat, sample: seq<Entry>,
                          groups: seq<seq<Entry>>, draws: seq<int>, selected: seq<Entry>, tuning: seq<int>) {
    && |sample| == count && Sorted(selected, IdKey)
    && DrawnByRank(readable, count, groups, draws, selected)
    && var strata := Strata(selected, Keys(groups));
       && Fits(strata, tuning) && sample == Marked(selected, TuningIds(strata, tuning, |strata|))
       && (DistinctIds(readable) ==> SplitByRank(sample, selected, tuningCount, strata, tuning))
  }

  lemma SampleIsDone(readable: seq<Entry>, count: nat, tuningCount: nat,
                     groups: seq<seq<Entry>>, draws: seq<int>, selected: seq<Entry>, tuning: seq<int>)
    requires DrawnByRank(readable, count, groups, draws, selected) && Sorted(selected, IdKey)
    requires var strata := Strata(selected, Keys(groups));
             && Population(Lengths(strata)) > 0 && LargestRemainder(Lengths(strata), tuningCount, tuning)
             && Fits(strata, tuning)
    ensures var strata := Strata(selected, Keys(groups));
            Sampled(readable, count, tuningCount, Marked(selected, TuningIds(strata, tuning, |strata|)),
                    groups, draws, selected, tuning)
  {
    DrawnCounts(readable, count, groups, draws, selected);
    if DistinctIds(readable) {
      DistinctIdsOfPart(selected, readable);
      KeysAreApart(groups);
      MarkingSplits(selected, Keys(groups), tuningCount, tuning);
    }
  }

  /**
   Refuses a split or a corpus that is too small, and otherwise draws exactly `count` entries;
   exactly `tuningCount` of them are for tuning when the identifiers are distinct.
   */
  method BuildSample(files: seq<Candidate>, rank: string -> string, count: int, tuningCount: int)
    returns (r: Result<seq<Entry>, SampleError>, ghost groups: seq<seq<Entry>>, ghost draws: seq<int>,
             ghost selected: seq<Entry>, ghost tuning: seq<int>)
    ensures tuningCount < 1 || tuningCount >= count ==> r == Err(InvalidSplit)
    ensures 1 <= tuningCount < count && (|files| < count || |Readable(files, rank)| < count) ==>
              r == Err(NotEnoughReadable)
    ensures 1 <= tuningCount < count <= |files| && count <= |Readable(files, rank)| ==>
              r.Ok? && Sampled(Readable(files, rank), count, tuningCount, r.value, groups, draws, selected, tuning)
  {
    groups, draws, selected, tuning := [], [], [], [];
    if tuningCount < 1 || tuningCount >= count {
      r := Err(InvalidSplit);
      return;
    }
    ghost var readable := Readable(files, rank);
    var byStratum := Group(files, rank);
    FlattenLength(byStratum);
    SameLength(Flatten(byStratum), readable);
    if |files| < count || Population(Lengths(byStratum)) < count {
      r := Err(NotEnoughReadable);
      return;
    }
    byStratum := SortGroups(byStratum);
    FlattenLength(byStratum);
    SameLength(Flatten(byStratum), readable);

    var allocation := Allocate(Lengths(byStratum), count);
    match allocation {
      case Err(error) =>
        r := Err(Corpus(error));
        return;
      case Ok(_) =>
    }
    SharesFit(byStratum, count, allocation.value);
    var drawn := Flatten(Heads(byStratum, allocation.value));
    SortByIsSorted(drawn, IdKey);
    var ordered := SortBy(drawn, IdKey);
    assert DrawnByRank(readable, count, byStratum, allocation.value, ordered);
    DrawnCounts(readable, count, byStratum, allocation.value, ordered);
    KeysAreApart(byStratum);

    var strata := Strata(ordered, Keys(byStratum));
    StrataAreEverything(ordered, Keys(byStratum));
    var shares := Allocate(Lengths(strata), tuningCount);
    match shares {
      case Err(error) =>
        r := Err(Corpus(error));
        return;
      case Ok(_) =>
    }
    SharesFit(strata, tuningCount, shares.value);
    SampleIsDone(readable, count, tuningCount, byStratum, allocation.value, ordered, shares.value);
    var ids := CollectTuning(strata, shares.value);
    r, groups, draws, selected, tuning := Ok(Marked(ordered, ids)), byStratum, allocation.value, ordered, shares.value;
  }
}
