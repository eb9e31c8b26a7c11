/**
 Proportional allocation of a sample over strata by largest remainder, in exact arithmetic,
 and the sample it yields.
 */
module Allocation {
  import opened Wrappers
  import opened Sorting

  datatype CorpusError = SampleLargerThanCorpus | DivisionByZero | SampleAllocationFailed

  function Sizes(sizes: seq<nat>): seq<int> {
    seq(|sizes|, i requires 0 <= i < |sizes| => sizes[i])
  }

  function Population(sizes: seq<nat>): int {
    Sum(Sizes(sizes))
  }

  /** Whole part and remainder of group i's exact quota total * size / population. */
  function Share(sizes: seq<nat>, total: nat, i: nat): int
    requires Population(sizes) > 0 && i < |sizes|
  {
    total * sizes[i] / Population(sizes)
  }

  function Remainder(sizes: seq<nat>, total: nat, i: nat): int
    requires Population(sizes) > 0 && i < |sizes|
  {
    total * sizes[i] % Population(sizes)
  }

  /** Larger remainders first, then larger groups. */
  function Priority(sizes: seq<nat>, total: nat, i: nat): seq<int>
    requires Population(sizes) > 0
  {
    if i < |sizes| then [-Remainder(sizes, total, i), -(sizes[i] as int)] else []
  }

  /**
   `a` distributes exactly `total`: every group gets its whole quota or one more, never more than
   it has, and the extra ones go to the groups of highest priority.
   */
  ghost predicate LargestRemainder(sizes: seq<nat>, total: nat, a: seq<int>)
    requires Population(sizes) > 0
  {
    && |a| == |sizes|
    && Sum(a) == total
    && (forall i | 0 <= i < |sizes| ::
          && (a[i] == Share(sizes, total, i) || (a[i] == Share(sizes, total, i) + 1 && Remainder(sizes, total, i) > 0))
          && 0 <= a[i] <= sizes[i])
    && (forall i, j | 0 <= i < |sizes| && 0 <= j < |sizes| &&
                      a[i] == Share(sizes, total, i) + 1 && a[j] == Share(sizes, total, j) ::
          LexLeq(Priority(sizes, total, i), Priority(sizes, total, j)))
  }

  // ---------------------------------------------------------------- arithmetic of the quotas

  lemma Quota(n: int, p: int)
    requires n >= 0 && p > 0
    ensures n == p * (n / p) + n % p && 0 <= n % p < p && n / p >= 0
  {
  }

  lemma {:induction false} SumIsNonNegative(s: seq<nat>)
    ensures Population(s) >= 0
    ensures forall i | 0 <= i < |s| :: s[i] <= Population(s)
  {
    if s != [] {
      assert Sizes(s)[..|s| - 1] == Sizes(s[..|s| - 1]);
      SumIsNonNegative(s[..|s| - 1]);
    }
  }

  lemma ShareFits(sizes: seq<nat>, total: nat, i: nat)
    requires 0 < Population(sizes) && total <= Population(sizes) && i < |sizes|
    ensures 0 <= Share(sizes, total, i) <= sizes[i]
    ensures Remainder(sizes, total, i) > 0 ==> Share(sizes, total, i) < sizes[i]
  {
    var p, n := Population(sizes), total * sizes[i];
    assert 0 <= n <= p * sizes[i];
    Quota(n, p);
  }

  function Shares(sizes: seq<nat>, total: nat): seq<int>
    requires Population(sizes) > 0
  {
    seq(|sizes|, i requires 0 <= i < |sizes| => Share(sizes, total, i))
  }

  function Remainders(sizes: seq<nat>, total: nat): seq<int>
    requires Population(sizes) > 0
  {
    seq(|sizes|, i requires 0 <= i < |sizes| => Remainder(sizes, total, i))
  }

  /** p times the whole parts, plus the remainders, is total times the sizes: prefix by prefix. */
  /** One more group: its share and its remainder, times and plus as in every quotient. */
  lemma OneMoreShare(p: int, total: int, s: int, r: int, z: int, share: int, remainder: int, size: int)
    requires p * s + r == total * z && p * share + remainder == total * size
    ensures p * (s + share) + (r + remainder) == total * (z + size)
  {
    Distribute(p, s, share);
    Distribute(total, z, size);
  }

  lemma SumsGrow(sizes: seq<nat>, total: nat, i: nat)
    requires Population(sizes) > 0 && i < |sizes|
    ensures Sum(Shares(sizes, total)[..i + 1]) == Sum(Shares(sizes, total)[..i]) + Share(sizes, total, i)
    ensures Sum(Remainders(sizes, total)[..i + 1]) == Sum(Remainders(sizes, total)[..i]) + Remainder(sizes, total, i)
    ensures Sum(Sizes(sizes)[..i + 1]) == Sum(Sizes(sizes)[..i]) + sizes[i]
  {
    assert Shares(sizes, total)[..i + 1][..i] == Shares(sizes, total)[..i];
    assert Remainders(sizes, total)[..i + 1][..i] == Remainders(sizes, total)[..i];
    assert Sizes(sizes)[..i + 1][..i] == Sizes(sizes)[..i];
  }

  lemma {:induction false} SharesAndRemainders(sizes: seq<nat>, total: nat, k: nat)
    requires Population(sizes) > 0 && k <= |sizes|
    ensures Population(sizes) * Sum(Shares(sizes, total)[..k]) + Sum(Remainders(sizes, total)[..k])
            == total * Sum(Sizes(sizes)[..k])
  {
    if k > 0 {
      var p, i := Population(sizes), k - 1;
      SharesAndRemainders(sizes, total, i);
      SumsGrow(sizes, total, i);
      Quota(total * sizes[i], p);
      hide Sum, Shares, Remainders, Sizes, Population;
      OneMoreShare(p, total, Sum(Shares(sizes, total)[..i]), Sum(Remainders(sizes, total)[..i]), Sum(Sizes(sizes)[..i]),
                   Share(sizes, total, i), Remainder(sizes, total, i), sizes[i]);
    }
  }

  lemma Distribute(a: int, x: int, y: int)
    ensures a * (x + y) == a * x + a * y
  {
  }

  /** What is left after the whole parts, scaled by the population, is the sum of the remainders. */
  lemma LeftOver(sizes: seq<nat>, total: nat)
    requires Population(sizes) > 0
    ensures Population(sizes) * (total - Sum(Shares(sizes, total))) == Sum(Remainders(sizes, total))
  {
    SharesAndRemainders(sizes, total, |sizes|);
    assert Shares(sizes, total)[..|sizes|] == Shares(sizes, total);
    assert Remainders(sizes, total)[..|sizes|] == Remainders(sizes, total);
    assert Sizes(sizes)[..|sizes|] == Sizes(sizes);
    var p := Population(sizes);
    Distribute(p, total - Sum(Shares(sizes, total)), Sum(Shares(sizes, total)));
  }

  lemma {:induction false} SumBetween(s: seq<int>, low: int, high: int)
    requires forall i | 0 <= i < |s| :: low <= s[i] <= high
    ensures low * |s| <= Sum(s) <= high * |s|
  {
    if s != [] {
      var n := |s| - 1;
      SumBetween(s[..n], low, high);
      assert Sum(s) == Sum(s[..n]) + s[n];
      hide Sum;
      OnceMore(low, n);
      OnceMore(high, n);
    }
  }

  lemma OnceMore(x: int, n: nat)
    ensures x * (n + 1) == x * n + x
  {
  }

  // ---------------------------------------------------------------- the order of the extra ones

  function Indices(n: nat): (r: seq<nat>)
    ensures |r| == n && forall i | 0 <= i < n :: r[i] == i
  {
    seq(n, i => i)
  }

  lemma SortedIndices(sizes: seq<nat>, key: nat -> seq<int>)
    ensures var o := SortBy<nat>(Indices(|sizes|), key);
            |o| == |sizes| && multiset(o) == multiset(Indices(|sizes|)) && forall k | 0 <= k < |o| :: o[k] < |sizes|
  {
    var o := SortBy<nat>(Indices(|sizes|), key);
    SortByIsSorted<nat>(Indices(|sizes|), key);
    forall k | 0 <= k < |o|
      ensures o[k] < |sizes|
    {
      assert o[k] in multiset(o);
    }
  }

  function Order(sizes: seq<nat>, total: nat): (o: seq<nat>)
    requires Population(sizes) > 0
    ensures |o| == |sizes| && forall k | 0 <= k < |o| :: o[k] < |sizes|
  {
    SortedIndices(sizes, (i: nat) => Priority(sizes, total, i));
    SortBy<nat>(Indices(|sizes|), (i: nat) => Priority(sizes, total, i))
  }

  /** The order has every group once, by falling priority. */
  lemma OrderIsPermutation(sizes: seq<nat>, total: nat)
    requires Population(sizes) > 0
    ensures var o := Order(sizes, total);
            && multiset(o) == multiset(Indices(|sizes|))
            && (forall j, k | 0 <= j < k < |o| :: o[j] != o[k])
            && (forall j, k | 0 <= j <= k < |o| :: LexLeq(Priority(sizes, total, o[j]), Priority(sizes, total, o[k])))
            && (forall i | 0 <= i < |sizes| :: i in o)
  {
    var o, all := Order(sizes, total), Indices(|sizes|);
    SortByIsSorted<nat>(all, (i: nat) => Priority(sizes, total, i));
    forall j, k | 0 <= j < k < |o|
      ensures o[j] != o[k]
    {
      if o[j] == o[k] {
        TwiceInSequence(o, j, k);
        IndicesAppearOnce(|sizes|, o[j]);
      }
    }
    forall i | 0 <= i < |sizes|
      ensures i in o
    {
      assert all[i] == i && i in multiset(all);
      assert i in multiset(o);
    }
  }

  lemma {:induction false} IndicesAppearOnce(n: nat, x: nat)
    ensures multiset(Indices(n))[x] == if x < n then 1 else 0
  {
    if n > 0 {
      assert Indices(n) == Indices(n - 1) + [n - 1];
      IndicesAppearOnce(n - 1, x);
    }
  }

  /** The remainders in the order of priority. */
  function OrderedRemainders(sizes: seq<nat>, total: nat): seq<int>
    requires Population(sizes) > 0
  {
    var o := Order(sizes, total);
    seq(|sizes|, k requires 0 <= k < |sizes| => Remainder(sizes, total, o[k]))
  }

  lemma OrderedRemaindersSum(sizes: seq<nat>, total: nat)
    requires Population(sizes) > 0
    ensures Sum(OrderedRemainders(sizes, total)) == Population(sizes) * (total - Sum(Shares(sizes, total)))
  {
    var o, r := Order(sizes, total), OrderedRemainders(sizes, total);
    var f := (i: nat) => if i < |sizes| then Remainder(sizes, total, i) else 0;
    OrderIsPermutation(sizes, total);
    LeftOver(sizes, total);
    SumIsOrderFree<nat>(o, Indices(|sizes|), f);
    assert Map<nat, int>(Indices(|sizes|), f) == Remainders(sizes, total);
    assert Map<nat, int>(o, f) == r;
  }

  lemma OrderedRemaindersFall(sizes: seq<nat>, total: nat)
    requires Population(sizes) > 0
    ensures var r := OrderedRemainders(sizes, total);
            && (forall k | 0 <= k < |r| :: 0 <= r[k] <= Population(sizes) - 1)
            && (forall j, k | 0 <= j <= k < |r| :: r[k] <= r[j])
  {
    var o, r := Order(sizes, total), OrderedRemainders(sizes, total);
    OrderIsPermutation(sizes, total);
    forall k | 0 <= k < |r|
      ensures 0 <= r[k] <= Population(sizes) - 1
    {
      Quota(total * sizes[o[k]], Population(sizes));
    }
    forall j, k | 0 <= j <= k < |r|
      ensures r[k] <= r[j]
    {
      assert LexLeq(Priority(sizes, total, o[j]), Priority(sizes, total, o[k]));
    }
  }

  /** Falling remainders below p that sum to p * extra start with at least `extra` proper ones. */
  lemma FallingRemainders(r: seq<int>, p: int, extra: int, k: nat)
    requires p > 0 && Sum(r) == p * extra && k < extra
    requires forall i | 0 <= i < |r| :: 0 <= r[i] <= p - 1
    requires forall i, j | 0 <= i <= j < |r| :: r[j] <= r[i]
    ensures k < |r| && r[k] > 0
  {
    var m := if k < |r| then k else |r|;
    if k >= |r| || r[k] == 0 {
      HeadSum(r, p, m);
      TooSmall(p, extra, m);
    }
  }

  lemma HeadSum(r: seq<int>, p: int, m: nat)
    requires m <= |r| && (forall i | 0 <= i < |r| :: 0 <= r[i] <= p - 1) && forall i | m <= i < |r| :: r[i] == 0
    ensures Sum(r) <= (p - 1) * m
  {
    assert r == r[..m] + r[m..];
    SumAppend(r[..m], r[m..]);
    SumBetween(r[..m], 0, p - 1);
    SumBetween(r[m..], 0, 0);
  }

  lemma TooSmall(p: int, extra: int, m: int)
    requires p > 0 && 0 <= m < extra
    ensures p * extra > (p - 1) * m
  {
    assert p * extra == p * (extra - m) + p * m by { Distribute(p, extra - m, m); }
    assert p * (extra - m) > 0;
    assert (p - 1) * m == p * m - m;
  }

  /** Every position of the order below the number of extra ones has a proper remainder. */
  lemma EarlyPositionsHaveRemainder(sizes: seq<nat>, total: nat, k: nat)
    requires Population(sizes) > 0 && k < total - Sum(Shares(sizes, total))
    ensures k < |sizes| && Remainder(sizes, total, Order(sizes, total)[k]) > 0
  {
    OrderedRemaindersSum(sizes, total);
    OrderedRemaindersFall(sizes, total);
    FallingRemainders(OrderedRemainders(sizes, total), Population(sizes), total - Sum(Shares(sizes, total)), k);
  }

  // ---------------------------------------------------------------- the allocation

  /** The whole parts, with one more for each of the first k groups of the order. */
  ghost predicate Granted(sizes: seq<nat>, total: nat, a: seq<int>, k: nat)
    requires Population(sizes) > 0 && k <= |sizes|
  {
    && |a| == |sizes|
    && forall j | 0 <= j < |sizes| ::
         var i := Order(sizes, total)[j];
         a[i] == Share(sizes, total, i) + if j < k then 1 else 0
  }

  lemma GrantNext(sizes: seq<nat>, total: nat, a: seq<int>, k: nat)
    requires Population(sizes) > 0 && k < |sizes| && Granted(sizes, total, a, k)
    ensures var i := Order(sizes, total)[k]; Granted(sizes, total, a[i := a[i] + 1], k + 1)
  {
    OrderIsPermutation(sizes, total);
  }

  /** The position of group i in the order: it is granted one more than its share when that is early. */
  lemma PositionOf(sizes: seq<nat>, total: nat, a: seq<int>, k: nat, i: nat) returns (x: nat)
    requires Population(sizes) > 0 && k <= |sizes| && Granted(sizes, total, a, k) && i < |sizes|
    ensures x < |Order(sizes, total)| && Order(sizes, total)[x] == i
    ensures a[i] == Share(sizes, total, i) + if x < k then 1 else 0
  {
    OrderIsPermutation(sizes, total);
    assert i in Order(sizes, total);
    x :| 0 <= x < |Order(sizes, total)| && Order(sizes, total)[x] == i;
  }

  lemma GrantIsFair(sizes: seq<nat>, total: nat, a: seq<int>, k: nat, i: nat)
    requires 0 < Population(sizes) && total <= Population(sizes) && k <= |sizes| && i < |sizes|
    requires k == total - Sum(Shares(sizes, total)) && Granted(sizes, total, a, k)
    ensures a[i] == Share(sizes, total, i) || (a[i] == Share(sizes, total, i) + 1 && Remainder(sizes, total, i) > 0)
    ensures 0 <= a[i] <= sizes[i]
  {
    var x := PositionOf(sizes, total, a, k, i);
    hide Granted, Sum, Order, Population;
    ShareFits(sizes, total, i);
    if x < k {
      EarlyPositionsHaveRemainder(sizes, total, x);
    }
  }

  lemma GrantsGoByPriority(sizes: seq<nat>, total: nat, a: seq<int>, k: nat, i: nat, j: nat)
    requires Population(sizes) > 0 && k <= |sizes| && Granted(sizes, total, a, k) && i < |sizes| && j < |sizes|
    requires a[i] == Share(sizes, total, i) + 1 && a[j] == Share(sizes, total, j)
    ensures LexLeq(Priority(sizes, total, i), Priority(sizes, total, j))
  {
    var x := PositionOf(sizes, total, a, k, i);
    var y := PositionOf(sizes, total, a, k, j);
    OrderIsPermutation(sizes, total);
    hide Granted, LexLeq, Priority, Order;
    assert x < k <= y;
  }

  lemma GrantedIsLargestRemainder(sizes: seq<nat>, total: nat, a: seq<int>, k: nat)
    requires 0 < Population(sizes) && total <= Population(sizes) && k <= |sizes|
    requires k == total - Sum(Shares(sizes, total)) && Granted(sizes, total, a, k) && Sum(a) == total
    ensures LargestRemainder(sizes, total, a)
  {
    hide Order, LexLeq, Priority, Share, Remainder;
    forall i | 0 <= i < |sizes|
      ensures a[i] == Share(sizes, total, i) || (a[i] == Share(sizes, total, i) + 1 && Remainder(sizes, total, i) > 0)
      ensures 0 <= a[i] <= sizes[i]
    {
      GrantIsFair(sizes, total, a, k, i);
    }
    forall i, j | 0 <= i < |sizes| && 0 <= j < |sizes| &&
                  a[i] == Share(sizes, total, i) + 1 && a[j] == Share(sizes, total, j)
      ensures LexLeq(Priority(sizes, total, i), Priority(sizes, total, j))
    {
      GrantsGoByPriority(sizes, total, a, k, i, j);
    }
  }

  function Min(a: int, b: int): int {
    if a <= b then a else b
  }

  /** After `k` grants: that many groups of the order have one more, and the rest is to come. */
  ghost predicate Progress(sizes: seq<nat>, total: nat, a: seq<int>, k: nat, extra: int)
    requires Population(sizes) > 0
  {
    && extra == total - Sum(Shares(sizes, total)) && k <= |sizes| && k <= extra
    && Granted(sizes, total, a, k) && Sum(a) == total - extra + k
  }

  lemma ExtraIsNonNegative(sizes: seq<nat>, total: nat)
    requires 0 < Population(sizes)
    ensures total - Sum(Shares(sizes, total)) >= 0
  {
    OrderedRemaindersSum(sizes, total);
    OrderedRemaindersFall(sizes, total);
    SumBetween(OrderedRemainders(sizes, total), 0, Population(sizes) - 1);
    FactorIsNonNegative(Population(sizes), total - Sum(Shares(sizes, total)));
  }

  lemma FloorsAreShares(sizes: seq<nat>, total: nat, a: seq<int>)
    requires 0 < Population(sizes) && total <= Population(sizes)
    requires |a| == |sizes| && forall i | 0 <= i < |a| :: a[i] == Min(sizes[i], total * sizes[i] / Population(sizes))
    ensures a == Shares(sizes, total)
  {
    forall i | 0 <= i < |sizes|
      ensures a[i] == Share(sizes, total, i)
    {
      ShareFits(sizes, total, i);
    }
  }

  lemma NothingGranted(sizes: seq<nat>, total: nat)
    requires 0 < Population(sizes)
    ensures Granted(sizes, total, Shares(sizes, total), 0)
  {
  }

  lemma FloorsStart(sizes: seq<nat>, total: nat, a: seq<int>)
    requires 0 < Population(sizes) && total <= Population(sizes)
    requires |a| == |sizes| && forall i | 0 <= i < |a| :: a[i] == Min(sizes[i], total * sizes[i] / Population(sizes))
    ensures Progress(sizes, total, a, 0, total - Sum(a))
  {
    FloorsAreShares(sizes, total, a);
    NothingGranted(sizes, total);
    ExtraIsNonNegative(sizes, total);
  }

  lemma FactorIsNonNegative(p: int, x: int)
    requires p > 0 && p * x >= 0
    ensures x >= 0
  {
  }

  lemma NextHasRoom(sizes: seq<nat>, total: nat, a: seq<int>, k: nat, extra: int)
    requires 0 < Population(sizes) && total <= Population(sizes)
    requires Progress(sizes, total, a, k, extra) && k < extra
    ensures k < |sizes| && a[Order(sizes, total)[k]] < sizes[Order(sizes, total)[k]]
  {
    EarlyPositionsHaveRemainder(sizes, total, k);
    ShareFits(sizes, total, Order(sizes, total)[k]);
  }

  lemma ProgressNext(sizes: seq<nat>, total: nat, a: seq<int>, k: nat, extra: int)
    requires Population(sizes) > 0 && Progress(sizes, total, a, k, extra) && k < extra && k < |sizes|
    ensures var i := Order(sizes, total)[k]; Progress(sizes, total, a[i := a[i] + 1], k + 1, extra)
  {
    var i := Order(sizes, total)[k];
    GrantNext(sizes, total, a, k);
    SumUpdate(a, i, a[i] + 1);
  }

  /** The two refused inputs, and otherwise the largest-remainder allocation; the last error never occurs. */
  method Allocate(sizes: seq<nat>, total: nat) returns (r: Result<seq<int>, CorpusError>)
    ensures total > Population(sizes) ==> r == Err(SampleLargerThanCorpus)
    ensures total <= Population(sizes) == 0 && sizes != [] ==> r == Err(DivisionByZero)
    ensures total == 0 && sizes == [] ==> r == Ok([])
    ensures total <= Population(sizes) && Population(sizes) > 0 ==> r.Ok? && LargestRemainder(sizes, total, r.value)
  {
    SumIsNonNegative(sizes);
    if total > Population(sizes) {
      return Err(SampleLargerThanCorpus);
    }
    if sizes == [] {
      return Ok([]);
    }
    if Population(sizes) == 0 {
      return Err(DivisionByZero);
    }
    var granted := seq(|sizes|, i requires 0 <= i < |sizes| => Min(sizes[i], total * sizes[i] / Population(sizes)));
    FloorsStart(sizes, total, granted);
    var order := Order(sizes, total);
    var remaining := total - Sum(granted);
    ghost var extra := remaining;
    ghost var k := 0;
    while remaining > 0
      invariant k == extra - remaining && (remaining == extra || remaining == 0)
      invariant Progress(sizes, total, granted, k, extra)
    {
      var progressed := false;
      var n := 0;
      while n < |order|
        invariant n <= |order| && n == k == extra - remaining && 0 < remaining
        invariant Progress(sizes, total, granted, k, extra)
        invariant progressed <==> n > 0
      {
        var key := order[n];
        NextHasRoom(sizes, total, granted, k, extra);
        if granted[key] < sizes[key] {
          ProgressNext(sizes, total, granted, k, extra);
          granted := granted[key := granted[key] + 1];
          remaining := remaining - 1;
          k := k + 1;
          progressed := true;
          if remaining == 0 {
            break;
          }
        }
        n := n + 1;
      }
      if remaining > 0 {
        EarlyPositionsHaveRemainder(sizes, total, |order|);
      }
      if !progressed {
        return Err(SampleAllocationFailed);
      }
    }
    GrantedIsLargestRemainder(sizes, total, granted, k);
    r := Ok(granted);
  }
}
