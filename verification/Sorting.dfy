/** Stable sorting by a tuple of integers, as the library's sorted(..., key=...) does, and flattening. */
module Sorting {

  /** Tuples compare element by element; a proper prefix comes first. */
  predicate LexLeq(a: seq<int>, b: seq<int>) {
    a == [] || (b != [] && (a[0] < b[0] || (a[0] == b[0] && LexLeq(a[1..], b[1..]))))
  }

  lemma {:induction false} LexTotal(a: seq<int>, b: seq<int>)
    ensures LexLeq(a, b) || LexLeq(b, a)
  {
    if a != [] && b != [] && a[0] == b[0] {
      LexTotal(a[1..], b[1..]);
    }
  }

  lemma {:induction false} LexTransitive(a: seq<int>, b: seq<int>, c: seq<int>)
    requires LexLeq(a, b) && LexLeq(b, c)
    ensures LexLeq(a, c)
  {
    if a != [] && a[0] == b[0] == c[0] {
      LexTransitive(a[1..], b[1..], c[1..]);
    }
  }

  /** Inserts `x` behind every element whose key is not larger. */
  function Insert<T>(s: seq<T>, x: T, key: T -> seq<int>): seq<T> {
    if s == [] || LexLeq(key(s[|s| - 1]), key(x)) then s + [x]
    else Insert(s[..|s| - 1], x, key) + [s[|s| - 1]]
  }

  function SortBy<T>(s: seq<T>, key: T -> seq<int>): seq<T> {
    if s == [] then [] else Insert(SortBy(s[..|s| - 1], key), s[|s| - 1], key)
  }

  ghost predicate Sorted<T>(s: seq<T>, key: T -> seq<int>) {
    forall i, j | 0 <= i <= j < |s| :: LexLeq(key(s[i]), key(s[j]))
  }

  lemma {:induction false} InsertIsSorted<T>(s: seq<T>, x: T, key: T -> seq<int>)
    requires Sorted(s, key)
    ensures Sorted(Insert(s, x, key), key)
    ensures multiset(Insert(s, x, key)) == multiset(s) + multiset{x}
  {
    hide LexLeq;
    LexTotal(key(x), key(x));
    if s == [] {
    } else if LexLeq(key(s[|s| - 1]), key(x)) {
      forall i | 0 <= i < |s|
        ensures LexLeq(key(s[i]), key(x))
      {
        LexTransitive(key(s[i]), key(s[|s| - 1]), key(x));
      }
    } else {
      var rest, last := s[..|s| - 1], s[|s| - 1];
      assert s == rest + [last];
      InsertIsSorted(rest, x, key);
      var r := Insert(rest, x, key);
      LexTotal(key(x), key(last));
      forall i | 0 <= i < |r|
        ensures LexLeq(key(r[i]), key(last))
      {
        assert r[i] in multiset(r);
        assert r[i] == x || r[i] in rest;
      }
      LexTotal(key(last), key(last));
    }
  }

  lemma {:induction false} SortByIsSorted<T>(s: seq<T>, key: T -> seq<int>)
    ensures Sorted(SortBy(s, key), key) && multiset(SortBy(s, key)) == multiset(s)
    ensures |SortBy(s, key)| == |s|
  {
    if s != [] {
      var rest, last := s[..|s| - 1], s[|s| - 1];
      assert s == rest + [last];
      SortByIsSorted(rest, key);
      InsertIsSorted(SortBy(rest, key), last, key);
      assert |multiset(SortBy(s, key))| == |multiset(s)|;
    }
  }

  // ---------------------------------------------------------------- sums over a sequence

  function Sum(s: seq<int>): int {
    if s == [] then 0 else Sum(s[..|s| - 1]) + s[|s| - 1]
  }

  function Map<T, U>(s: seq<T>, f: T -> U): (r: seq<U>)
    ensures |r| == |s| && forall i | 0 <= i < |s| :: r[i] == f(s[i])
  {
    seq(|s|, i requires 0 <= i < |s| => f(s[i]))
  }

  lemma {:induction false} SumAppend(a: seq<int>, b: seq<int>)
    ensures Sum(a + b) == Sum(a) + Sum(b)
  {
    if b == [] {
      assert a + b == a;
    } else {
      assert (a + b)[..|a + b| - 1] == a + b[..|b| - 1];
      SumAppend(a, b[..|b| - 1]);
    }
  }

  lemma SumOne(x: int)
    ensures Sum([x]) == x
  {
    assert [x][..0] == [];
  }

  lemma {:induction false} SumUpdate(s: seq<int>, i: nat, x: int)
    requires i < |s|
    ensures Sum(s[i := x]) == Sum(s) - s[i] + x
  {
    if i == |s| - 1 {
      assert s[i := x][..|s| - 1] == s[..|s| - 1];
    } else {
      assert s[i := x][..|s| - 1] == s[..|s| - 1][i := x];
      SumUpdate(s[..|s| - 1], i, x);
    }
  }

  function Remove<T>(s: seq<T>, i: nat): seq<T>
    requires i < |s|
  {
    s[..i] + s[i + 1..]
  }

  lemma SumRemove<T>(s: seq<T>, i: nat, f: T -> int)
    requires i < |s|
    ensures Sum(Map(s, f)) == Sum(Map(Remove(s, i), f)) + f(s[i])
  {
    var a, b := Map(s[..i], f), Map(s[i + 1..], f);
    assert Map(Remove(s, i), f) == a + b;
    assert Map(s, f) == a + ([f(s[i])] + b);
    SumAppend(a, b);
    SumAppend(a, [f(s[i])] + b);
    SumAppend([f(s[i])], b);
    SumOne(f(s[i]));
  }

  lemma RemoveOne<T>(s: seq<T>, i: nat)
    requires i < |s|
    ensures multiset(Remove(s, i)) == multiset(s) - multiset{s[i]}
  {
    assert s == s[..i] + [s[i]] + s[i + 1..];
  }

  lemma TwiceInSequence<T>(s: seq<T>, i: nat, j: nat)
    requires i < j < |s| && s[i] == s[j]
    ensures multiset(s)[s[i]] >= 2
  {
    assert s == s[..j] + [s[j]] + s[j + 1..];
    assert s[i] in s[..j];
  }

  /** Two orders of the same elements have the same sum. */
  lemma {:induction false} SumIsOrderFree<T>(a: seq<T>, b: seq<T>, f: T -> int)
    requires multiset(a) == multiset(b)
    ensures Sum(Map(a, f)) == Sum(Map(b, f))
    decreases |a|
  {
    assert |a| == |multiset(a)| == |multiset(b)| == |b|;
    if a != [] {
      assert a[0] in multiset(b);
      var i :| 0 <= i < |b| && b[i] == a[0];
      RemoveOne(a, 0);
      RemoveOne(b, i);
      SumRemove(a, 0, f);
      SumRemove(b, i, f);
      SumIsOrderFree(Remove(a, 0), Remove(b, i), f);
    }
  }

  // ---------------------------------------------------------------- flattening

  function Flatten<T>(parts: seq<seq<T>>): seq<T> {
    if parts == [] then [] else Flatten(parts[..|parts| - 1]) + parts[|parts| - 1]
  }

  lemma FlattenAppend<T>(parts: seq<seq<T>>, part: seq<T>)
    ensures Flatten(parts + [part]) == Flatten(parts) + part
  {
    assert (parts + [part])[..|parts|] == parts;
  }

  lemma FlattenNext<T>(parts: seq<seq<T>>, i: nat)
    requires i < |parts|
    ensures Flatten(parts[..i + 1]) == Flatten(parts[..i]) + parts[i]
  {
    assert parts[..i + 1][..i] == parts[..i];
  }

  lemma FlattenReplaceLast<T>(parts: seq<seq<T>>, x: T)
    requires parts != []
    ensures Flatten(parts[|parts| - 1 := parts[|parts| - 1] + [x]]) == Flatten(parts) + [x]
  {
    assert parts[|parts| - 1 := parts[|parts| - 1] + [x]][..|parts| - 1] == parts[..|parts| - 1];
  }

  /** The element behind the first i parts. */
  lemma {:induction false} FlattenAt<T>(parts: seq<seq<T>>, i: nat, k: nat)
    requires i < |parts| && k < |parts[i]|
    ensures |Flatten(parts[..i])| + k < |Flatten(parts)| && Flatten(parts)[|Flatten(parts[..i])| + k] == parts[i][k]
  {
    var n := |parts| - 1;
    if i < n {
      assert parts[..n][..i] == parts[..i];
      FlattenAt(parts[..n], i, k);
    }
  }

  lemma {:induction false} FlattenPrefix<T>(parts: seq<seq<T>>, i: nat)
    requires i <= |parts|
    ensures |Flatten(parts[..i])| <= |Flatten(parts)|
  {
    if i == |parts| {
      assert parts[..i] == parts;
    } else {
      assert parts[..|parts| - 1][..i] == parts[..i];
      FlattenPrefix(parts[..|parts| - 1], i);
    }
  }

  lemma FlattenLast<T>(parts: seq<seq<T>>, n: nat)
    requires |parts| == n + 1
    ensures Flatten(parts) == Flatten(parts[..n]) + parts[n]
  {
  }

  lemma {:induction false} FlattenGrow<T>(parts: seq<seq<T>>, i: nat, x: T)
    requires i < |parts|
    ensures multiset(Flatten(parts[i := parts[i] + [x]])) == multiset(Flatten(parts)) + multiset{x}
  {
    hide Flatten;
    var n, after := |parts| - 1, parts[i := parts[i] + [x]];
    FlattenLast(after, n);
    FlattenLast(parts, n);
    if i == n {
      assert after[..n] == parts[..n];
    } else {
      assert after[..n] == parts[..n][i := parts[i] + [x]];
      FlattenGrow(parts[..n], i, x);
    }
  }

  lemma {:induction false} InFlatten<T>(parts: seq<seq<T>>, i: nat, k: nat)
    requires i < |parts| && k < |parts[i]|
    ensures parts[i][k] in multiset(Flatten(parts))
  {
    if i < |parts| - 1 {
      InFlatten(parts[..|parts| - 1], i, k);
    }
  }
}
