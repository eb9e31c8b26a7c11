/** Cutting one split of a sample manifest into shards of similar page count. */
module ShardManifest {
  import opened Wrappers
  import opened Sorting
  import opened Sharding

  datatype Split = Tuning | Holdout

  datatype TextKind = Digital | Scanned | Mixed | Unknown

  datatype Entry = Entry(id: string, pages: nat, kind: TextKind, split: Split)

  datatype ShardError = InvalidShardCount

  function IdKey(e: Entry): seq<int> {
    seq(|e.id|, i requires 0 <= i < |e.id| => e.id[i] as int)
  }

  function LongestFirst(e: Entry): seq<int> {
    [-(e.pages as int)] + IdKey(e)
  }

  function OfSplit(entries: seq<Entry>, split: Split): seq<Entry> {
    if entries == [] then []
    else OfSplit(entries[..|entries| - 1], split)
         + if entries[|entries| - 1].split == split then [entries[|entries| - 1]] else []
  }

  function Pages(entries: seq<Entry>): (r: seq<nat>)
    ensures |r| == |entries| && forall i | 0 <= i < |r| :: r[i] == entries[i].pages
  {
    seq(|entries|, i requires 0 <= i < |entries| => entries[i].pages)
  }

  function PageCount(e: Entry): int {
    e.pages
  }

  function PageTotal(entries: seq<Entry>): int {
    Sum(Map(entries, PageCount))
  }

  /** The first k documents that `a` puts on shard s. */
  function Part(entries: seq<Entry>, a: seq<nat>, s: nat, k: nat): seq<Entry>
    requires k <= |entries| && k <= |a|
  {
    if k == 0 then [] else Part(entries, a, s, k - 1) + if a[k - 1] == s then [entries[k - 1]] else []
  }

  /** Each shard has, in some order, the documents that `a` puts on it. */
  ghost predicate Follows(shards: seq<seq<Entry>>, entries: seq<Entry>, a: seq<nat>)
    requires |a| == |entries|
  {
    forall s | 0 <= s < |shards| :: multiset(shards[s]) == multiset(Part(entries, a, s, |entries|))
  }

  // ---------------------------------------------------------------- pages and parts

  lemma PageTotalAppend(x: seq<Entry>, y: seq<Entry>)
    ensures PageTotal(x + y) == PageTotal(x) + PageTotal(y)
  {
    assert Map(x + y, PageCount) == Map(x, PageCount) + Map(y, PageCount);
    SumAppend(Map(x, PageCount), Map(y, PageCount));
  }

  lemma PageTotalOfOne(e: Entry)
    ensures PageTotal([e]) == e.pages
  {
    assert Map([e], PageCount) == [e.pages as int];
    SumOne(e.pages);
  }

  lemma {:induction false} PartIsLoad(entries: seq<Entry>, a: seq<nat>, s: nat, k: nat)
    requires k <= |entries| && k <= |a|
    ensures PageTotal(Part(entries, a, s, k)) == Load(Pages(entries), a, s, k)
  {
    if k > 0 {
      PartIsLoad(entries, a, s, k - 1);
      PageTotalAppend(Part(entries, a, s, k - 1), [entries[k - 1]]);
      PageTotalOfOne(entries[k - 1]);
      assert Part(entries, a, s, k - 1) + [] == Part(entries, a, s, k - 1);
    }
  }

  lemma FollowsGivesLoads(shards: seq<seq<Entry>>, entries: seq<Entry>, a: seq<nat>, s: nat)
    requires |a| == |entries| && Follows(shards, entries, a) && s < |shards|
    ensures PageTotal(shards[s]) == Load(Pages(entries), a, s, |entries|)
  {
    SumIsOrderFree(shards[s], Part(entries, a, s, |entries|), PageCount);
    PartIsLoad(entries, a, s, |entries|);
  }

  /** The parts of the first n shards together. */
  function Parts(entries: seq<Entry>, a: seq<nat>, n: nat, k: nat): seq<Entry>
    requires k <= |entries| && k <= |a|
  {
    if n == 0 then [] else Parts(entries, a, n - 1, k) + Part(entries, a, n - 1, k)
  }

  lemma PartStep(entries: seq<Entry>, a: seq<nat>, s: nat, k: nat)
    requires 0 < k <= |entries| && k <= |a|
    ensures multiset(Part(entries, a, s, k))
            == multiset(Part(entries, a, s, k - 1)) + if a[k - 1] == s then multiset{entries[k - 1]} else multiset{}
  {
  }

  lemma PartsLast(entries: seq<Entry>, a: seq<nat>, n: nat, k: nat)
    requires 0 < n && k <= |entries| && k <= |a|
    ensures multiset(Parts(entries, a, n, k))
            == multiset(Parts(entries, a, n - 1, k)) + multiset(Part(entries, a, n - 1, k))
  {
    hide Part;
  }

  /** What document k - 1 adds to the first n shards. */
  function Added(entries: seq<Entry>, a: seq<nat>, n: nat, k: nat): multiset<Entry>
    requires 0 < k <= |entries| && k <= |a|
  {
    if a[k - 1] < n then multiset{entries[k - 1]} else multiset{}
  }

  lemma AddedStep(entries: seq<Entry>, a: seq<nat>, s: nat, k: nat)
    requires 0 < k <= |entries| && k <= |a|
    ensures Added(entries, a, s + 1, k)
            == Added(entries, a, s, k) + if a[k - 1] == s then multiset{entries[k - 1]} else multiset{}
  {
  }

  lemma SumsOfSums<T>(p: multiset<T>, d: multiset<T>, q: multiset<T>, e: multiset<T>)
    ensures (p + d) + (q + e) == (p + q) + (d + e)
  {
  }

  lemma {:induction false} PartsStep(entries: seq<Entry>, a: seq<nat>, n: nat, k: nat)
    requires 0 < k <= |entries| && k <= |a|
    ensures multiset(Parts(entries, a, n, k)) == multiset(Parts(entries, a, n, k - 1)) + Added(entries, a, n, k)
  {
    if n > 0 {
      hide Part, Parts, Added;
      var s := n - 1;
      var more := if a[k - 1] == s then multiset{entries[k - 1]} else multiset{};
      calc {
        multiset(Parts(entries, a, n, k));
        { PartsLast(entries, a, n, k); }
        multiset(Parts(entries, a, s, k)) + multiset(Part(entries, a, s, k));
        { PartsStep(entries, a, s, k); PartStep(entries, a, s, k); }
        (multiset(Parts(entries, a, s, k - 1)) + Added(entries, a, s, k))
        + (multiset(Part(entries, a, s, k - 1)) + more);
        { SumsOfSums(multiset(Parts(entries, a, s, k - 1)), Added(entries, a, s, k),
                     multiset(Part(entries, a, s, k - 1)), more); }
        (multiset(Parts(entries, a, s, k - 1)) + multiset(Part(entries, a, s, k - 1)))
        + (Added(entries, a, s, k) + more);
        { PartsLast(entries, a, n, k - 1); AddedStep(entries, a, s, k); }
        multiset(Parts(entries, a, n, k - 1)) + Added(entries, a, n, k);
      }
    }
  }

  /** Every document is on exactly one shard. */
  lemma PrefixGrows<T>(s: seq<T>, k: nat)
    requires 0 < k <= |s|
    ensures multiset(s[..k]) == multiset(s[..k - 1]) + multiset{s[k - 1]}
  {
    assert s[..k] == s[..k - 1] + [s[k - 1]];
  }

  lemma {:induction false} PartsAreEverything(entries: seq<Entry>, a: seq<nat>, m: nat, k: nat)
    requires Assignment(Pages(entries), a, m) && k <= |entries|
    ensures multiset(Parts(entries, a, m, k)) == multiset(entries[..k])
  {
    if k == 0 {
      NoParts(entries, a, m);
    } else {
      calc {
        multiset(Parts(entries, a, m, k));
        { PartsStep(entries, a, m, k); }
        multiset(Parts(entries, a, m, k - 1)) + Added(entries, a, m, k);
        { PartsAreEverything(entries, a, m, k - 1); }
        multiset(entries[..k - 1]) + multiset{entries[k - 1]};
        { PrefixGrows(entries, k); }
        multiset(entries[..k]);
      }
    }
  }

  lemma {:induction false} NoParts(entries: seq<Entry>, a: seq<nat>, n: nat)
    ensures Parts(entries, a, n, 0) == []
  {
    if n > 0 {
      NoParts(entries, a, n - 1);
    }
  }

  lemma {:induction false} FollowsFlattens(shards: seq<seq<Entry>>, entries: seq<Entry>, a: seq<nat>, n: nat)
    requires |a| == |entries| && Follows(shards, entries, a) && n <= |shards|
    ensures multiset(Flatten(shards[..n])) == multiset(Parts(entries, a, n, |entries|))
  {
    if n > 0 {
      FollowsFlattens(shards, entries, a, n - 1);
      assert shards[..n][..n - 1] == shards[..n - 1];
    }
  }

  lemma FollowsPartitions(shards: seq<seq<Entry>>, entries: seq<Entry>, a: seq<nat>)
    requires Assignment(Pages(entries), a, |shards|) && Follows(shards, entries, a)
    ensures multiset(Flatten(shards)) == multiset(entries)
  {
    FollowsFlattens(shards, entries, a, |shards|);
    PartsAreEverything(entries, a, |shards|, |entries|);
    assert shards[..|shards|] == shards && entries[..|entries|] == entries;
  }

  // ---------------------------------------------------------------- the bound over all partitions

  lemma {:induction false} FindShard(shards: seq<seq<Entry>>, e: Entry) returns (s: nat, i: nat)
    requires e in Flatten(shards)
    ensures s < |shards| && i < |shards[s]| && shards[s][i] == e
  {
    var n := |shards| - 1;
    if e in shards[n] {
      s := n;
      i :| 0 <= i < |shards[n]| && shards[n][i] == e;
    } else {
      s, i := FindShard(shards[..n], e);
    }
  }

  function TakeOut(shards: seq<seq<Entry>>, s: nat, i: nat): (r: seq<seq<Entry>>)
    requires s < |shards| && i < |shards[s]|
    ensures |r| == |shards|
  {
    shards[s := Remove(shards[s], i)]
  }

  lemma {:induction false} FlattenWithout(shards: seq<seq<Entry>>, s: nat, i: nat)
    requires s < |shards| && i < |shards[s]|
    ensures multiset(Flatten(shards)) == multiset(Flatten(TakeOut(shards, s, i))) + multiset{shards[s][i]}
  {
    var n, less := |shards| - 1, TakeOut(shards, s, i);
    if s == n {
      assert less[..n] == shards[..n];
      RemoveOne(shards[s], i);
    } else {
      assert less[..n] == TakeOut(shards[..n], s, i);
      FlattenWithout(shards[..n], s, i);
    }
  }

  ghost predicate Realizes(entries: seq<Entry>, b: seq<nat>, shards: seq<seq<Entry>>) {
    && Assignment(Pages(entries), b, |shards|)
    && forall s: nat | s < |shards| :: Load(Pages(entries), b, s, |entries|) == PageTotal(shards[s])
  }

  /** Any partition of the documents is the effect of some assignment. */
  lemma {:induction false} AsAssignment(entries: seq<Entry>, shards: seq<seq<Entry>>) returns (b: seq<nat>)
    requires multiset(Flatten(shards)) == multiset(entries)
    ensures Realizes(entries, b, shards)
    decreases |entries|
  {
    if entries == [] {
      b := [];
      AllEmpty(shards);
    } else {
      var rest, e := entries[..|entries| - 1], entries[|entries| - 1];
      assert entries == rest + [e];
      assert e in multiset(Flatten(shards));
      var s, i := FindShard(shards, e);
      FlattenWithout(shards, s, i);
      assert multiset(Flatten(TakeOut(shards, s, i))) == multiset(entries) - multiset{e} == multiset(rest);
      var c := AsAssignment(rest, TakeOut(shards, s, i));
      b := c + [s];
      RealizesOneMore(rest, e, c, shards, s, i);
    }
  }

  lemma RealizesOneMore(rest: seq<Entry>, e: Entry, c: seq<nat>, shards: seq<seq<Entry>>, s: nat, i: nat)
    requires s < |shards| && i < |shards[s]| && shards[s][i] == e
    requires Realizes(rest, c, TakeOut(shards, s, i))
    ensures Realizes(rest + [e], c + [s], shards)
  {
    var entries, b, less := rest + [e], c + [s], TakeOut(shards, s, i);
    SumRemove(shards[s], i, PageCount);
    forall t: nat | t < |shards|
      ensures Load(Pages(entries), b, t, |entries|) == PageTotal(shards[t])
    {
      SamePrefixSameLoad(Pages(entries), b, Pages(rest), c, t, |rest|);
      assert Load(Pages(rest), c, t, |rest|) == PageTotal(less[t]);
    }
  }

  lemma {:induction false} AllEmpty(shards: seq<seq<Entry>>)
    requires multiset(Flatten(shards)) == multiset{}
    ensures forall s | 0 <= s < |shards| :: shards[s] == []
  {
    if shards != [] {
      var n := |shards| - 1;
      assert |multiset(Flatten(shards))| == |Flatten(shards)|;
      AllEmpty(shards[..n]);
    }
  }

  lemma {:induction false} SamePrefixSameLoad(p: seq<nat>, a: seq<nat>, q: seq<nat>, b: seq<nat>, s: nat, k: nat)
    requires k <= |p| && k <= |a| && k <= |q| && k <= |b|
    requires forall i | 0 <= i < k :: p[i] == q[i] && a[i] == b[i]
    ensures Load(p, a, s, k) == Load(q, b, s, k)
  {
    if k > 0 {
      SamePrefixSameLoad(p, a, q, b, s, k - 1);
    }
  }

  /** What a run of the sharding promises about its shards; `a` records where each document went. */
  ghost predicate LongestProcessingTime(shards: seq<seq<Entry>>, selected: seq<Entry>, a: seq<nat>) {
    var entries := SortBy(selected, LongestFirst);
    |a| == |entries| && Greedy(Pages(entries), a, |shards|) && Follows(shards, entries, a)
  }

  lemma SortedIsDescending(selected: seq<Entry>)
    ensures Descending(Pages(SortBy(selected, LongestFirst)))
    ensures multiset(SortBy(selected, LongestFirst)) == multiset(selected)
  {
    var entries := SortBy(selected, LongestFirst);
    SortByIsSorted(selected, LongestFirst);
    forall i, j | 0 <= i <= j < |entries|
      ensures entries[i].pages >= entries[j].pages
    {
      assert LexLeq(LongestFirst(entries[i]), LongestFirst(entries[j]));
    }
  }

  /**
   No shard has more than 4/3 - 1/(3m) times the pages of the largest shard of any other way to
   cut the same documents into as many shards.
   */
  lemma WithinFourThirdsOfAnyCut(shards: seq<seq<Entry>>, selected: seq<Entry>, a: seq<nat>,
                                 other: seq<seq<Entry>>, s: nat, bound: nat)
    requires LongestProcessingTime(shards, selected, a) && s < |shards|
    requires |other| == |shards| && multiset(Flatten(other)) == multiset(selected)
    requires forall t | 0 <= t < |other| :: PageTotal(other[t]) <= bound
    ensures WithinFourThirds(|shards|, PageTotal(shards[s]), bound)
  {
    var entries := SortBy(selected, LongestFirst);
    SortedIsDescending(selected);
    var b := AsAssignment(entries, other);
    FollowsGivesLoads(shards, entries, a, s);
    CutBound(entries, a, b, other, s, bound);
  }

  lemma CutBound(entries: seq<Entry>, a: seq<nat>, b: seq<nat>, other: seq<seq<Entry>>, s: nat, bound: nat)
    requires Descending(Pages(entries)) && Greedy(Pages(entries), a, |other|) && s < |other|
    requires Realizes(entries, b, other) && forall t | 0 <= t < |other| :: PageTotal(other[t]) <= bound
    ensures WithinFourThirds(|other|, Load(Pages(entries), a, s, |entries|), bound)
  {
    forall t: nat | t < |other|
      ensures Load(Pages(entries), b, t, |entries|) <= bound
    {
      assert Load(Pages(entries), b, t, |entries|) == PageTotal(other[t]);
    }
    GrahamBound(Pages(entries), a, b, |other|, s, bound);
  }

  /** A fuller shard has a document that makes up the difference. */
  lemma FullerByOneDocument(shards: seq<seq<Entry>>, entries: seq<Entry>, a: seq<nat>, s: nat, t: nat)
    returns (e: Entry)
    requires |a| == |entries| && Follows(shards, entries, a) && s < |shards| && t < |shards|
    requires Greedy(Pages(entries), a, |shards|) && PageTotal(shards[s]) > PageTotal(shards[t])
    ensures e in shards[s] && PageTotal(shards[s]) <= PageTotal(shards[t]) + e.pages
  {
    FollowsGivesLoads(shards, entries, a, s);
    FollowsGivesLoads(shards, entries, a, t);
    Balanced(Pages(entries), a, |shards|, s, t);
    var i :| 0 <= i < |entries| && a[i] == s
             && Load(Pages(entries), a, s, |entries|) <= Load(Pages(entries), a, t, |entries|) + Pages(entries)[i];
    InItsPart(entries, a, s, i, |entries|);
    assert entries[i] in multiset(shards[s]);
    e := entries[i];
  }

  /** Nothing is lost or doubled, and two shards differ by no more than one document's pages. */
  lemma ShardsAreABalancedPartition(shards: seq<seq<Entry>>, selected: seq<Entry>, a: seq<nat>)
    requires LongestProcessingTime(shards, selected, a)
    ensures multiset(Flatten(shards)) == multiset(selected)
    ensures forall s, t | 0 <= s < |shards| && 0 <= t < |shards| && PageTotal(shards[s]) > PageTotal(shards[t]) ::
              exists e :: e in shards[s] && PageTotal(shards[s]) <= PageTotal(shards[t]) + e.pages
  {
    var entries := SortBy(selected, LongestFirst);
    SortedIsDescending(selected);
    FollowsPartitions(shards, entries, a);
    forall s: nat, t: nat | s < |shards| && t < |shards| && PageTotal(shards[s]) > PageTotal(shards[t])
      ensures exists e :: e in shards[s] && PageTotal(shards[s]) <= PageTotal(shards[t]) + e.pages
    {
      var e := FullerByOneDocument(shards, entries, a, s, t);
    }
  }

  lemma {:induction false} InItsPart(entries: seq<Entry>, a: seq<nat>, s: nat, i: nat, k: nat)
    requires i < k <= |entries| && k <= |a| && a[i] == s
    ensures entries[i] in Part(entries, a, s, k)
  {
    if i < k - 1 {
      InItsPart(entries, a, s, i, k - 1);
    }
  }

  /** Documents with pages leave no shard empty. */
  lemma NoShardIsEmpty(shards: seq<seq<Entry>>, selected: seq<Entry>, a: seq<nat>)
    requires LongestProcessingTime(shards, selected, a)
    requires |shards| <= |selected| && forall i | 0 <= i < |selected| :: selected[i].pages > 0
    ensures forall s | 0 <= s < |shards| :: shards[s] != []
  {
    var entries := SortBy(selected, LongestFirst);
    SortByIsSorted(selected, LongestFirst);
    forall i | 0 <= i < |entries|
      ensures entries[i].pages > 0
    {
      assert entries[i] in multiset(selected);
    }
    FirstOnesSpread(Pages(entries), a, |shards|, |shards|);
    forall s | 0 <= s < |shards|
      ensures shards[s] != []
    {
      InItsPart(entries, a, s, s, |entries|);
      assert entries[s] in multiset(shards[s]);
    }
  }

  // ---------------------------------------------------------------- the program

  method Lightest(totals: seq<nat>) returns (t: nat)
    requires totals != []
    ensures t < |totals|
    ensures forall s | 0 <= s < |totals| :: totals[t] <= totals[s] && (s < t ==> totals[t] < totals[s])
  {
    t := 0;
    for s := 1 to |totals|
      invariant t < s
      invariant forall u | 0 <= u < s :: totals[t] <= totals[u] && (u < t ==> totals[t] < totals[u])
    {
      if totals[s] < totals[t] {
        t := s;
      }
    }
  }

  method Shard(manifest: seq<Entry>, split: Split, shardCount: int)
    returns (r: Result<seq<seq<Entry>>, ShardError>, ghost a: seq<nat>)
    ensures shardCount < 1 || shardCount > |OfSplit(manifest, split)| <==> r == Err(InvalidShardCount)
    ensures r.Ok? ==>
              && |r.value| == shardCount
              && LongestProcessingTime(r.value, OfSplit(manifest, split), a)
              && forall s | 0 <= s < |r.value| :: Sorted(r.value[s], IdKey)
  {
    var selected := OfSplit(manifest, split);
    a := [];
    if shardCount < 1 || shardCount > |selected| {
      return Err(InvalidShardCount), a;
    }
    var m: nat := shardCount;
    var entries := SortBy(selected, LongestFirst);
    var shards: seq<seq<Entry>> := seq(m, _ => []);
    var totals: seq<nat> := seq(m, _ => 0);
    for k := 0 to |entries|
      invariant Placed(entries, m, a, shards, totals, k)
    {
      var target := Lightest(totals);
      PlaceOne(entries, m, a, shards, totals, k, target);
      a := a + [target];
      shards := shards[target := shards[target] + [entries[k]]];
      totals := totals[target := totals[target] + entries[k].pages];
    }
    var sorted := seq(m, s requires 0 <= s < m => SortBy(shards[s], IdKey));
    forall s | 0 <= s < m
      ensures multiset(sorted[s]) == multiset(shards[s]) && Sorted(sorted[s], IdKey)
    {
      SortByIsSorted(shards[s], IdKey);
    }
    r := Ok(sorted);
  }

  /** The loop's state after k documents. */
  ghost predicate Placed(entries: seq<Entry>, m: nat, a: seq<nat>, shards: seq<seq<Entry>>, totals: seq<nat>, k: nat) {
    && |a| == k <= |entries| && |shards| == |totals| == m
    && (forall i | 0 <= i < k :: a[i] < m && OnLightest(Pages(entries), a, m, i))
    && forall s: nat | s < m :: totals[s] == Load(Pages(entries), a, s, k) && shards[s] == Part(entries, a, s, k)
  }

  lemma PlaceOne(entries: seq<Entry>, m: nat, a: seq<nat>, shards: seq<seq<Entry>>, totals: seq<nat>, k: nat,
                 target: nat)
    requires Placed(entries, m, a, shards, totals, k) && k < |entries| && target < m
    requires forall s: nat | s < m :: totals[target] <= totals[s] && (s < target ==> totals[target] < totals[s])
    ensures Placed(entries, m, a + [target], shards[target := shards[target] + [entries[k]]],
                   totals[target := totals[target] + entries[k].pages], k + 1)
  {
    var p, b := Pages(entries), a + [target];
    forall s: nat, i: nat | i <= k
      ensures Load(p, b, s, i) == Load(p, a, s, i) && Part(entries, b, s, i) == Part(entries, a, s, i)
    {
      SamePrefixSameLoad(p, b, p, a, s, i);
      SamePrefixSamePart(entries, b, a, s, i);
    }
    forall i | 0 <= i < k
      ensures OnLightest(p, b, m, i)
    {
      assert OnLightest(p, a, m, i);
    }
    assert OnLightest(p, b, m, k);
  }

  lemma {:induction false} SamePrefixSamePart(entries: seq<Entry>, a: seq<nat>, b: seq<nat>, s: nat, k: nat)
    requires k <= |entries| && k <= |a| && k <= |b| && forall i | 0 <= i < k :: a[i] == b[i]
    ensures Part(entries, a, s, k) == Part(entries, b, s, k)
  {
    if k > 0 {
      SamePrefixSamePart(entries, a, b, s, k - 1);
    }
  }
}
