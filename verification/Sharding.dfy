/**
 Balancing one split over shards: longest document first, always onto the lightest shard.
 `p` is the page counts in that order and `a[i]` the shard of document i.
 */
module Sharding {
  import opened Sorting

  /** Pages on shard s after the first k documents. */
  function Load(p: seq<nat>, a: seq<nat>, s: nat, k: nat): nat
    requires k <= |p| && k <= |a|
  {
    if k == 0 then 0 else Load(p, a, s, k - 1) + if a[k - 1] == s then p[k - 1] else 0
  }

  predicate Assignment(p: seq<nat>, a: seq<nat>, m: nat) {
    |a| == |p| && forall i | 0 <= i < |a| :: a[i] < m
  }

  predicate Descending(p: seq<nat>) {
    forall i, j | 0 <= i <= j < |p| :: p[i] >= p[j]
  }

  /** Document i goes to the lightest shard of the moment, the first one of equals. */
  predicate OnLightest(p: seq<nat>, a: seq<nat>, m: nat, i: nat)
    requires i < |p| && i < |a|
  {
    forall s | 0 <= s < m ::
      && Load(p, a, a[i], i) <= Load(p, a, s, i)
      && (s < a[i] ==> Load(p, a, a[i], i) < Load(p, a, s, i))
  }

  predicate Greedy(p: seq<nat>, a: seq<nat>, m: nat) {
    Assignment(p, a, m) && forall i | 0 <= i < |p| :: OnLightest(p, a, m, i)
  }

  // ---------------------------------------------------------------- loads

  lemma {:induction false} LoadGrows(p: seq<nat>, a: seq<nat>, s: nat, j: nat, k: nat)
    requires j <= k <= |p| && k <= |a|
    ensures Load(p, a, s, j) <= Load(p, a, s, k)
  {
    if j < k {
      LoadGrows(p, a, s, j, k - 1);
    }
  }

  /** The load of a shard is at least the pages of any set of documents on it; here one, two or three. */
  lemma {:induction false} LoadHasOne(p: seq<nat>, a: seq<nat>, s: nat, i: nat, k: nat)
    requires i < k <= |p| && k <= |a| && a[i] == s
    ensures Load(p, a, s, k) >= p[i]
  {
    if i < k - 1 {
      LoadHasOne(p, a, s, i, k - 1);
    }
  }

  lemma {:induction false} LoadHasTwo(p: seq<nat>, a: seq<nat>, s: nat, i: nat, j: nat, k: nat)
    requires i < j < k <= |p| && k <= |a| && a[i] == a[j] == s
    ensures Load(p, a, s, k) >= p[i] + p[j]
  {
    if j < k - 1 {
      LoadHasTwo(p, a, s, i, j, k - 1);
    } else {
      LoadHasOne(p, a, s, i, j);
    }
  }

  lemma {:induction false} LoadHasThree(p: seq<nat>, a: seq<nat>, s: nat, h: nat, i: nat, j: nat, k: nat)
    requires h < i < j < k <= |p| && k <= |a| && a[h] == a[i] == a[j] == s
    ensures Load(p, a, s, k) >= p[h] + p[i] + p[j]
  {
    if j < k - 1 {
      LoadHasThree(p, a, s, h, i, j, k - 1);
    } else {
      LoadHasTwo(p, a, s, h, i, j);
    }
  }

  /** All loads together, over the first n shards. */
  function Total(p: seq<nat>, a: seq<nat>, n: nat, k: nat): nat
    requires k <= |p| && k <= |a|
  {
    if n == 0 then 0 else Total(p, a, n - 1, k) + Load(p, a, n - 1, k)
  }

  lemma {:induction false} TotalAtZero(p: seq<nat>, a: seq<nat>, n: nat)
    ensures Total(p, a, n, 0) == 0
  {
    if n > 0 {
      TotalAtZero(p, a, n - 1);
    }
  }

  lemma {:induction false} TotalStep(p: seq<nat>, a: seq<nat>, n: nat, k: nat)
    requires 0 < k <= |p| && k <= |a|
    ensures Total(p, a, n, k) == Total(p, a, n, k - 1) + if a[k - 1] < n then p[k - 1] else 0
  {
    if n > 0 {
      TotalStep(p, a, n - 1, k);
    }
  }

  /** The total does not depend on the assignment. */
  lemma {:induction false} TotalIsShared(p: seq<nat>, a: seq<nat>, b: seq<nat>, m: nat, k: nat)
    requires Assignment(p, a, m) && Assignment(p, b, m) && k <= |p|
    ensures Total(p, a, m, k) == Total(p, b, m, k)
  {
    if k == 0 {
      TotalAtZero(p, a, m);
      TotalAtZero(p, b, m);
    } else {
      TotalIsShared(p, a, b, m, k - 1);
      TotalStep(p, a, m, k);
      TotalStep(p, b, m, k);
    }
  }

  lemma {:induction false} TotalBounds(p: seq<nat>, a: seq<nat>, n: nat, k: nat, low: nat, high: nat)
    requires k <= |p| && k <= |a|
    requires forall s | 0 <= s < n :: low <= Load(p, a, s, k) <= high
    ensures n * low <= Total(p, a, n, k) <= n * high
  {
    if n > 0 {
      TotalBounds(p, a, n - 1, k, low, high);
      assert n * low == (n - 1) * low + low && n * high == (n - 1) * high + high;
    }
  }

  /** m times the lightest load, plus the next document, fits in m times any bound on another assignment. */
  lemma LightestLoad(p: seq<nat>, a: seq<nat>, b: seq<nat>, m: nat, i: nat, bound: nat)
    requires Greedy(p, a, m) && Assignment(p, b, m) && i < |p|
    requires forall s | 0 <= s < m :: Load(p, b, s, |p|) <= bound
    ensures m * Load(p, a, a[i], i) + p[i] <= m * bound
  {
    var k := i + 1;
    assert OnLightest(p, a, m, i);
    TotalBounds(p, a, m, i, Load(p, a, a[i], i), MaxLoad(p, a, m, i));
    forall s: nat | s < m
      ensures Load(p, b, s, k) <= bound
    {
      LoadGrows(p, b, s, k, |p|);
    }
    TotalBounds(p, b, m, k, 0, bound);
    TotalIsShared(p, a, b, m, k);
    TotalStep(p, a, m, k);
  }

  function MaxLoad(p: seq<nat>, a: seq<nat>, n: nat, k: nat): (r: nat)
    requires k <= |p| && k <= |a|
    ensures forall s | 0 <= s < n :: Load(p, a, s, k) <= r
  {
    if n == 0 then 0
    else var r := MaxLoad(p, a, n - 1, k); if Load(p, a, n - 1, k) > r then Load(p, a, n - 1, k) else r
  }

  /** The document that was put on shard s last. */
  lemma {:induction false} LastDocument(p: seq<nat>, a: seq<nat>, s: nat, k: nat) returns (i: nat)
    requires k <= |p| && k <= |a| && Load(p, a, s, k) > 0
    ensures i < k && a[i] == s && Load(p, a, s, k) == Load(p, a, s, i) + p[i]
  {
    if a[k - 1] == s {
      i := k - 1;
    } else {
      i := LastDocument(p, a, s, k - 1);
    }
  }

  // ---------------------------------------------------------------- counting documents on shards

  function Range(lo: nat, hi: nat): (r: set<nat>)
    requires lo <= hi
    ensures |r| == hi - lo && forall i :: i in r <==> lo <= i < hi
  {
    if lo == hi then {} else Range(lo, hi - 1) + {hi - 1}
  }

  /** Fewer documents than shards leave a shard free. */
  lemma {:induction false} FreeShard(a: seq<nat>, shards: set<nat>, lo: nat, hi: nat) returns (s: nat)
    requires lo <= hi <= |a| && |shards| > hi - lo
    ensures s in shards && forall j | lo <= j < hi :: a[j] != s
  {
    if lo == hi {
      s :| s in shards;
    } else {
      s := FreeShard(a, shards - {a[hi - 1]}, lo, hi - 1);
    }
  }

  /** More than two documents a shard put three on one shard. */
  lemma {:induction false} ThreeOnOneShard(b: seq<nat>, docs: set<nat>, shards: set<nat>)
    returns (h: nat, i: nat, j: nat)
    requires forall d | d in docs :: d < |b| && b[d] in shards
    requires |docs| > 2 * |shards|
    ensures h in docs && i in docs && j in docs && h < i < j && b[h] == b[i] == b[j]
    decreases |shards|
  {
    var d :| d in docs;
    var s := b[d];
    var here := set d | d in docs && b[d] == s;
    if |here| <= 2 {
      assert |docs - here| == |docs| - |here|;
      h, i, j := ThreeOnOneShard(b, docs - here, shards - {s});
    } else {
      var x :| x in here;
      assert |here - {x}| == |here| - 1;
      var y :| y in here - {x};
      assert |here - {x, y}| == |here| - 2;
      var z :| z in here - {x, y};
      h, i, j := Ordered(x, y, z);
    }
  }

  lemma Ordered(x: nat, y: nat, z: nat) returns (h: nat, i: nat, j: nat)
    requires x != y && y != z && x != z
    ensures h < i < j && {h, i, j} == {x, y, z}
  {
    h := if x < y && x < z then x else if y < z then y else z;
    j := if x > y && x > z then x else if y > z then y else z;
    i := if x != h && x != j then x else if y != h && y != j then y else z;
  }

  // ---------------------------------------------------------------- the first m documents

  /** Documents with pages spread over the shards in turn before any shard gets a second one. */
  lemma {:induction false} FirstOnesSpread(p: seq<nat>, a: seq<nat>, m: nat, k: nat)
    requires Greedy(p, a, m) && k <= m && k <= |p| && forall i | 0 <= i < k :: p[i] > 0
    ensures forall i | 0 <= i < k :: a[i] == i
    ensures forall s | k <= s < m :: Load(p, a, s, k) == 0
    ensures forall s | 0 <= s < k :: Load(p, a, s, k) == p[s]
  {
    if k > 0 {
      FirstOnesSpread(p, a, m, k - 1);
      assert OnLightest(p, a, m, k - 1);
      assert Load(p, a, k - 1, k - 1) == 0;
      assert Load(p, a, a[k - 1], k - 1) <= Load(p, a, k - 1, k - 1);
    }
  }

  lemma {:induction false} UntouchedLoad(p: seq<nat>, a: seq<nat>, s: nat, j: nat, k: nat)
    requires j <= k <= |p| && k <= |a| && forall i | j <= i < k :: a[i] != s
    ensures Load(p, a, s, k) == Load(p, a, s, j)
  {
    if j < k {
      UntouchedLoad(p, a, s, j, k - 1);
    }
  }

  // ---------------------------------------------------------------- Graham's bound

  /** load <= (4/3 - 1/(3m)) * bound, without the fractions. */
  predicate WithinFourThirds(m: nat, load: int, bound: nat) {
    3 * m * load <= (4 * m - 1) * bound
  }

  /** A last document of at most a third of the optimum costs at most a third of it, less a share. */
  lemma SmallLastDocument(p: seq<nat>, a: seq<nat>, b: seq<nat>, m: nat, i: nat, bound: nat)
    requires Greedy(p, a, m) && Assignment(p, b, m) && i < |p|
    requires forall s | 0 <= s < m :: Load(p, b, s, |p|) <= bound
    requires 3 * p[i] <= bound
    ensures WithinFourThirds(m, Load(p, a, a[i], i) + p[i], bound)
  {
    LightestLoad(p, a, b, m, i, bound);
    Thirds(m, Load(p, a, a[i], i), p[i], bound);
  }

  lemma Thirds(m: nat, load: nat, last: nat, bound: nat)
    requires m > 0 && m * load + last <= m * bound && 3 * last <= bound
    ensures WithinFourThirds(m, load + last, bound)
  {
    var x, y, z := m * load, m * last, m * bound;
    assert m * (load + last) == x + y;
    Monotone(m - 1, 3 * last, bound);
    assert (m - 1) * (3 * last) == 3 * y - 3 * last;
    assert (m - 1) * bound == z - bound;
    assert (4 * m - 1) * bound == 4 * z - bound;
  }

  lemma Monotone(k: nat, x: nat, y: nat)
    requires x <= y
    ensures k * x <= k * y
  {
  }

  /** No shard of the other assignment has three documents that are longer than a third. */
  lemma NoThreeBig(p: seq<nat>, b: seq<nat>, m: nat, i: nat, bound: nat, docs: set<nat>, shards: set<nat>)
    requires Descending(p) && Assignment(p, b, m) && i < |p| && 3 * p[i] > bound
    requires forall s | 0 <= s < m :: Load(p, b, s, |p|) <= bound
    requires forall d | d in docs :: d <= i && b[d] in shards
    ensures |docs| <= 2 * |shards|
  {
    if |docs| > 2 * |shards| {
      var x, y, z := ThreeOnOneShard(b, docs, shards);
      LoadHasThree(p, b, b[x], x, y, z, |p|);
    }
  }

  /** The shards of the first k documents, which are all different. */
  function {:induction false} Image(b: seq<nat>, k: nat): (r: set<nat>)
    requires k <= |b| && forall u, v | 0 <= u < v < k :: b[u] != b[v]
    ensures |r| == k && forall s :: s in r <==> exists u :: 0 <= u < k && b[u] == s
  {
    if k == 0 then {} else Image(b, k - 1) + {b[k - 1]}
  }

  /** One of the first x + 1 documents then shares a shard with another one. */
  lemma SomeShare(p: seq<nat>, b: seq<nat>, m: nat, i: nat, bound: nat, x: nat)
    requires Descending(p) && Assignment(p, b, m) && m <= i < |p| && 3 * p[i] > bound
    requires forall s | 0 <= s < m :: Load(p, b, s, |p|) <= bound
    requires x == 2 * m - 1 - i
    ensures exists u: nat, v: nat :: u <= x && v <= i && u != v && b[u] == b[v]
  {
    if forall u: nat, v: nat :: u <= x && v <= i && u != v ==> b[u] != b[v] {
      var taken, rest := Image(b, x + 1), Range(x + 1, i + 1);
      assert taken <= Range(0, m);
      var free := Range(0, m) - taken;
      assert |free| == m - (x + 1);
      NoThreeBig(p, b, m, i, bound, rest, free);
    }
  }

  /**
   When the last document is longer than a third, any other assignment has two documents on one
   shard that together are at least as long as it and document 2m - 1 - i.
   */
  lemma SharedShard(p: seq<nat>, b: seq<nat>, m: nat, i: nat, bound: nat)
    requires Descending(p) && Assignment(p, b, m) && m <= i < |p| && 3 * p[i] > bound
    requires forall s | 0 <= s < m :: Load(p, b, s, |p|) <= bound
    ensures i <= 2 * m - 1
    ensures p[2 * m - 1 - i] + p[i] <= bound
  {
    NoThreeBig(p, b, m, i, bound, Range(0, i + 1), Range(0, m));
    var x := 2 * m - 1 - i;
    SomeShare(p, b, m, i, bound, x);
    var u: nat, v: nat :| u <= x && v <= i && u != v && b[u] == b[v];
    if u < v {
      LoadHasTwo(p, b, b[u], u, v, |p|);
    } else {
      LoadHasTwo(p, b, b[u], v, u, |p|);
    }
  }

  /** In that case the greedy assignment is optimal as far as the last document goes. */
  lemma BigLastDocument(p: seq<nat>, a: seq<nat>, b: seq<nat>, m: nat, i: nat, bound: nat)
    requires Descending(p) && Greedy(p, a, m) && Assignment(p, b, m) && i < |p|
    requires forall s | 0 <= s < m :: Load(p, b, s, |p|) <= bound
    requires 3 * p[i] > bound
    ensures Load(p, a, a[i], i) + p[i] <= bound
  {
    assert forall j | 0 <= j <= i :: p[j] > 0;
    if i < m {
      FirstOnesSpread(p, a, m, i);
      assert OnLightest(p, a, m, i);
      assert Load(p, a, a[i], i) <= Load(p, a, i, i);
      LoadHasOne(p, b, b[i], i, |p|);
    } else {
      SharedShard(p, b, m, i, bound);
      var x := 2 * m - 1 - i;
      FirstOnesSpread(p, a, m, m);
      var s := FreeShard(a, Range(x, m), m, i);
      UntouchedLoad(p, a, s, m, i);
      assert OnLightest(p, a, m, i);
      assert Load(p, a, a[i], i) <= Load(p, a, s, i) == p[s] <= p[x];
    }
  }

  /**
   Graham's bound: no shard of the greedy assignment has more than 4/3 - 1/(3m) times the largest
   load of any other assignment of the same documents.
   */
  lemma GrahamBound(p: seq<nat>, a: seq<nat>, b: seq<nat>, m: nat, s: nat, bound: nat)
    requires m > 0 && Descending(p) && Greedy(p, a, m) && Assignment(p, b, m) && s < m
    requires forall t | 0 <= t < m :: Load(p, b, t, |p|) <= bound
    ensures WithinFourThirds(m, Load(p, a, s, |p|), bound)
  {
    if Load(p, a, s, |p|) == 0 {
      assert (4 * m - 1) * bound >= 0;
    } else {
      var i := LastDocument(p, a, s, |p|);
      if 3 * p[i] <= bound {
        SmallLastDocument(p, a, b, m, i, bound);
      } else {
        BigLastDocument(p, a, b, m, i, bound);
        Widen(m, Load(p, a, s, |p|), bound);
      }
    }
  }

  lemma Widen(m: nat, load: nat, bound: nat)
    requires m > 0 && load <= bound
    ensures WithinFourThirds(m, load, bound)
  {
    Monotone(3 * m, load, bound);
    Monotone(bound, 3 * m, 4 * m - 1);
  }

  /** Any two shards differ by no more than the document that the heavier one got last. */
  lemma Balanced(p: seq<nat>, a: seq<nat>, m: nat, s: nat, t: nat)
    requires Greedy(p, a, m) && s < m && t < m && Load(p, a, s, |p|) > 0
    ensures exists i :: 0 <= i < |p| && a[i] == s && Load(p, a, s, |p|) <= Load(p, a, t, |p|) + p[i]
  {
    var i := LastDocument(p, a, s, |p|);
    assert OnLightest(p, a, m, i);
    LoadGrows(p, a, t, i, |p|);
  }
}
