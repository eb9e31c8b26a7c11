/** Anchoring a string the model named to the boxes of the words that spell it. */
module Anchoring {
  import opened Wrappers
  import opened PageText
  import Domain

  const MAX_WINDOW := 12
  const FUZZY_THRESHOLD := 90.0

  // ---------------------------------------------------------------- exact runs

  /** The text starts with the target, and equals it unless the target has at least `limit` characters. */
  predicate Reaches(text: string, target: string, limit: nat) {
    text == target || (|target| >= limit && target <= text)
  }

  /**
   Words a to b - 1 spell the target: up to twelve words, none of them blank; together they reach
   it, and without the last one they are a proper beginning of it.
   */
  ghost predicate Spells(target: string, norms: seq<string>, a: nat, b: nat) {
    && a < b <= |norms| && b - a <= MAX_WINDOW
    && (forall i | a <= i < b :: norms[i] != [])
    && Reaches(Join(norms, a, b), target, if b == a + 1 then 4 else 8)
    && (b > a + 1 ==> Join(norms, a, b - 1) < target)
  }

  lemma SpellsOnce(target: string, norms: seq<string>, a: nat, b: nat, c: nat)
    requires Spells(target, norms, a, b) && Spells(target, norms, a, c)
    ensures b == c
  {
    if b < c {
      JoinGrows(norms, a, b, c - 1);
    } else if c < b {
      JoinGrows(norms, a, c, b - 1);
    }
  }

  ghost predicate Starts(target: string, norms: seq<string>, a: nat) {
    exists b :: Spells(target, norms, a, b)
  }

  ghost function EndOf(target: string, norms: seq<string>, a: nat): (b: nat)
    requires Starts(target, norms, a)
    ensures Spells(target, norms, a, b)
  {
    var b :| Spells(target, norms, a, b);
    b
  }

  /** The boxes of the run that starts at word a, if there is one. */
  ghost function BoxesAt(target: string, words: seq<Word>, norms: seq<string>, a: nat): seq<Domain.Box>
    requires a < |words| == |norms|
  {
    if Starts(target, norms, a) then Boxes(words[a..EndOf(target, norms, a)]) else []
  }

  ghost function Gather<T>(f: nat -> seq<T>, n: nat): seq<T> {
    if n == 0 then [] else Gather(f, n - 1) + f(n - 1)
  }

  lemma {:induction false} GatherHolds<T>(f: nat -> seq<T>, n: nat, a: nat, x: T)
    requires a < n && x in f(a)
    ensures x in Gather(f, n)
  {
    if a < n - 1 {
      GatherHolds(f, n - 1, a, x);
    }
  }

  lemma {:induction false} GatheredFrom<T>(f: nat -> seq<T>, n: nat, x: T) returns (a: nat)
    requires x in Gather(f, n)
    ensures a < n && x in f(a)
  {
    if x in f(n - 1) {
      a := n - 1;
    } else {
      a := GatheredFrom(f, n - 1, x);
    }
  }

  ghost function Runs(target: string, words: seq<Word>, norms: seq<string>): nat -> seq<Domain.Box>
    requires |words| == |norms|
  {
    (a: nat) => if a < |words| then BoxesAt(target, words, norms, a) else []
  }

  /** The boxes of every run that spells the target and starts before word n, in order. */
  ghost function ExactBoxes(target: string, words: seq<Word>, norms: seq<string>, n: nat): seq<Domain.Box>
    requires n <= |words| == |norms|
  {
    Gather(Runs(target, words, norms), n)
  }

  /** Words a to e - 1 are a proper beginning of the target, and so far no run has ended. */
  ghost predicate Beginning(target: string, norms: seq<string>, a: nat, e: nat) {
    && a < e <= |norms| && e - a <= MAX_WINDOW
    && (forall i | a <= i < e :: norms[i] != [])
    && Join(norms, a, e) < target
  }

  lemma NothingShorter(target: string, norms: seq<string>, a: nat, e: nat, b: nat)
    requires Beginning(target, norms, a, e) && a < b <= e
    ensures !Spells(target, norms, a, b)
  {
    JoinGrows(norms, a, b, e);
  }

  lemma RunFound(target: string, words: seq<Word>, norms: seq<string>, a: nat, e: nat)
    requires |words| == |norms| && Spells(target, norms, a, e)
    ensures Starts(target, norms, a) && BoxesAt(target, words, norms, a) == Boxes(words[a..e])
  {
    SpellsOnce(target, norms, a, e, EndOf(target, norms, a));
  }

  lemma NothingLonger(target: string, norms: seq<string>, a: nat, e: nat, b: nat)
    requires a < e < b <= |norms| && (norms[e - 1] == [] || !(Join(norms, a, e) < target))
    ensures !Spells(target, norms, a, b)
  {
    JoinGrows(norms, a, e, b - 1);
    PrefixOfProper(Join(norms, a, e), Join(norms, a, b - 1), target);
  }

  lemma PrefixOfProper(x: string, y: string, z: string)
    requires x <= y
    ensures y < z ==> x < z
  {
  }

  lemma NoRunTo(target: string, norms: seq<string>, a: nat, e: nat, b: nat)
    requires a < e <= |norms| && !Spells(target, norms, a, e)
    requires e > a + 1 ==> Beginning(target, norms, a, e - 1)
    requires norms[e - 1] == [] || !(Join(norms, a, e) < target)
    ensures !Spells(target, norms, a, b)
  {
    if a < b < e {
      NothingShorter(target, norms, a, e - 1, b);
    } else if e < b <= |norms| {
      NothingLonger(target, norms, a, e, b);
    }
  }

  /** Where the next word is blank or leads away from the target, no run starts. */
  lemma NoRun(target: string, norms: seq<string>, a: nat, e: nat)
    requires a < e <= |norms| && !Spells(target, norms, a, e)
    requires e > a + 1 ==> Beginning(target, norms, a, e - 1)
    requires norms[e - 1] == [] || !(Join(norms, a, e) < target)
    ensures !Starts(target, norms, a)
  {
    forall b: nat
      ensures !Spells(target, norms, a, b)
    {
      NoRunTo(target, norms, a, e, b);
    }
  }

  /** Nor where the window or the page ends inside the target. */
  lemma NoRunInWindow(target: string, norms: seq<string>, a: nat, e: nat)
    requires Beginning(target, norms, a, e)
    requires e == |norms| || e == a + MAX_WINDOW
    ensures !Starts(target, norms, a)
  {
    forall b: nat
      ensures !Spells(target, norms, a, b)
    {
      if a < b <= e {
        NothingShorter(target, norms, a, e, b);
      }
    }
  }

  lemma JoinOne(norms: seq<string>, a: nat)
    requires a < |norms|
    ensures Join(norms, a, a + 1) == norms[a]
  {
    assert Join(norms, a, a) == [];
  }

  lemma OneWordSpells(target: string, words: seq<Word>, norms: seq<string>, a: nat)
    requires a < |words| == |norms| && norms[a] != [] && Reaches(norms[a], target, 4)
    ensures BoxesAt(target, words, norms, a) == [words[a].box]
  {
    JoinOne(norms, a);
    hide Join, Reaches;
    RunFound(target, words, norms, a, a + 1);
    assert words[a..a + 1] == [words[a]];
  }

  lemma OneWordDiffers(target: string, words: seq<Word>, norms: seq<string>, a: nat)
    requires a < |words| == |norms|
    requires norms[a] == [] || (!Reaches(norms[a], target, 4) && !(norms[a] <= target))
    ensures BoxesAt(target, words, norms, a) == []
  {
    JoinOne(norms, a);
    hide Join, Reaches;
    NoRun(target, norms, a, a + 1);
  }

  /** What the first word alone decides. */
  lemma OneWord(target: string, words: seq<Word>, norms: seq<string>, a: nat)
    requires a < |words| == |norms|
    ensures norms[a] != [] && Reaches(norms[a], target, 4) ==> BoxesAt(target, words, norms, a) == [words[a].box]
    ensures norms[a] == [] || (!Reaches(norms[a], target, 4) && !(norms[a] <= target)) ==>
              BoxesAt(target, words, norms, a) == []
    ensures norms[a] != [] && !Reaches(norms[a], target, 4) && norms[a] <= target ==> Beginning(target, norms, a, a + 1)
  {
    JoinOne(norms, a);
    hide Join, BoxesAt;
    if norms[a] != [] && Reaches(norms[a], target, 4) {
      OneWordSpells(target, words, norms, a);
    } else if norms[a] == [] || !(norms[a] <= target) {
      OneWordDiffers(target, words, norms, a);
    }
  }

  /** What one more word decides. */
  lemma NextWord(target: string, words: seq<Word>, norms: seq<string>, a: nat, e: nat)
    requires e < |norms| == |words| && Beginning(target, norms, a, e) && e - a < MAX_WINDOW
    ensures var text := Join(norms, a, e) + norms[e];
            && (norms[e] != [] && Reaches(text, target, 8) ==>
                BoxesAt(target, words, norms, a) == Boxes(words[a..e + 1]))
            && (norms[e] == [] || (!Reaches(text, target, 8) && !(text <= target)) ==>
                BoxesAt(target, words, norms, a) == [])
            && (norms[e] != [] && !Reaches(text, target, 8) && text <= target ==> Beginning(target, norms, a, e + 1))
  {
    var text := Join(norms, a, e) + norms[e];
    assert Join(norms, a, e + 1) == text;
    if norms[e] != [] && Reaches(text, target, 8) {
      RunFound(target, words, norms, a, e + 1);
    } else if norms[e] == [] || !(text <= target) {
      NoRun(target, norms, a, e + 1);
    }
  }

  /** The inner loop: follows the words after `start` for as long as they continue the target. */
  method Extend(target: string, words: seq<Word>, norms: seq<string>, start: nat) returns (boxes: seq<Domain.Box>)
    requires start < |words| == |norms| && Beginning(target, norms, start, start + 1)
    ensures boxes == BoxesAt(target, words, norms, start)
  {
    var accumulated, end := norms[start], start + 1;
    assert Join(norms, start, start) == [];
    var limit := if |words| < start + MAX_WINDOW then |words| else start + MAX_WINDOW;
    while end < limit
      invariant end <= limit
      invariant accumulated == Join(norms, start, end) && Beginning(target, norms, start, end)
    {
      NextWord(target, words, norms, start, end);
      var nextNorm := norms[end];
      if nextNorm == [] {
        return [];
      }
      accumulated := accumulated + nextNorm;
      if accumulated == target || (|target| >= 8 && target <= accumulated) {
        return Boxes(words[start..end + 1]);
      }
      if !(accumulated <= target) {
        return [];
      }
      end := end + 1;
    }
    NoRunInWindow(target, norms, start, end);
    return [];
  }

  method Exact(target: string, words: seq<Word>, norms: seq<string>) returns (found: seq<Domain.Box>)
    requires |words| == |norms|
    ensures found == ExactBoxes(target, words, norms, |words|)
  {
    found := [];
    for start := 0 to |norms|
      invariant found == ExactBoxes(target, words, norms, start)
    {
      OneWord(target, words, norms, start);
      assert ExactBoxes(target, words, norms, start + 1) == found + BoxesAt(target, words, norms, start);
      var startNorm := norms[start];
      if startNorm == [] {
        continue;
      }
      if startNorm == target || (|target| >= 4 && target <= startNorm) {
        found := found + [words[start].box];
        continue;
      }
      if !(startNorm <= target) {
        continue;
      }
      var boxes := Extend(target, words, norms, start);
      found := found + boxes;
    }
  }

  // ---------------------------------------------------------------- what exact matching boxes

  /** Every word of every run is boxed. */
  lemma RunIsBoxed(target: string, words: seq<Word>, norms: seq<string>, a: nat, b: nat, k: nat)
    requires |words| == |norms| && Spells(target, norms, a, b) && a <= k < b
    ensures words[k].box in ExactBoxes(target, words, norms, |words|)
  {
    RunFound(target, words, norms, a, b);
    assert Boxes(words[a..b])[k - a] == words[k].box;
    GatherHolds(Runs(target, words, norms), |words|, a, words[k].box);
  }

  /** Every box is that of a word in a run. */
  lemma BoxedIsRun(target: string, words: seq<Word>, norms: seq<string>, box: Domain.Box)
    returns (a: nat, b: nat, k: nat)
    requires |words| == |norms| && box in ExactBoxes(target, words, norms, |words|)
    ensures Spells(target, norms, a, b) && a <= k < b && words[k].box == box
  {
    a := GatheredFrom(Runs(target, words, norms), |words|, box);
    b := EndOf(target, norms, a);
    k := BoxOfWord(words, a, b, box);
  }

  lemma BoxOfWord(words: seq<Word>, a: nat, b: nat, box: Domain.Box) returns (k: nat)
    requires a <= b <= |words| && box in Boxes(words[a..b])
    ensures a <= k < b && words[k].box == box
  {
    var i :| 0 <= i < b - a && Boxes(words[a..b])[i] == box;
    k := a + i;
  }

  /** Words a to b - 1 are an exact occurrence of the target. */
  ghost predicate Occurs(target: string, norms: seq<string>, a: nat, b: nat) {
    && a < b <= |norms| && b - a <= MAX_WINDOW
    && (forall i | a <= i < b :: norms[i] != [])
    && Join(norms, a, b) == target
  }

  lemma OccurrenceSpells(target: string, norms: seq<string>, a: nat, b: nat)
    requires Occurs(target, norms, a, b)
    ensures Spells(target, norms, a, b)
  {
  }

  // ---------------------------------------------------------------- the fuzzy fallback

  type Ratio = (string, string) -> real

  /** A fifth of the length, rounded, and at least one and at most twelve. */
  function ApproximateWindow(target: string): nat {
    var fifth := (|target| + 2) / 5;
    if fifth < 1 then 1 else if fifth > MAX_WINDOW then MAX_WINDOW else fifth
  }

  function Score(ratio: Ratio, target: string, norms: seq<string>, s: nat, e: nat): real
    requires s <= e < |norms|
  {
    ratio(Join(norms, s, e + 1), target)
  }

  /** Words s to e score at least the threshold. */
  ghost predicate Close(ratio: Ratio, target: string, norms: seq<string>, s: nat, e: nat) {
    && s <= e < |norms| && e < s + ApproximateWindow(target) + 2
    && (forall i | s <= i <= e :: norms[i] != [])
    && Score(ratio, target, norms, s, e) >= FUZZY_THRESHOLD
  }

  predicate Before(s: nat, e: nat, s': nat, e': nat) {
    s < s' || (s == s' && e < e')
  }

  /** No close window before (s', e') beats words s to e, and no earlier one is as good. */
  ghost predicate BestBefore(ratio: Ratio, target: string, norms: seq<string>, s: nat, e: nat, s': nat, e': nat) {
    && Close(ratio, target, norms, s, e) && Before(s, e, s', e')
    && forall x: nat, y: nat | Close(ratio, target, norms, x, y) && Before(x, y, s', e') ::
         Score(ratio, target, norms, x, y) < Score(ratio, target, norms, s, e)
         || (Score(ratio, target, norms, x, y) == Score(ratio, target, norms, s, e) && !Before(x, y, s, e))
  }

  ghost predicate NoneBefore(ratio: Ratio, target: string, norms: seq<string>, s': nat, e': nat) {
    forall x: nat, y: nat | Close(ratio, target, norms, x, y) :: !Before(x, y, s', e')
  }

  /** The boxes of the first window with the best score, or none when no window is close. */
  ghost predicate FuzzyBoxes(ratio: Ratio, target: string, words: seq<Word>, norms: seq<string>, found: seq<Domain.Box>)
    requires |words| == |norms|
  {
    if NoneBefore(ratio, target, norms, |norms|, 0) then found == []
    else exists s: nat, e: nat | BestBefore(ratio, target, norms, s, e, |norms|, 0) :: found == Boxes(words[s..e + 1])
  }

  /** The best window before (s, e), with its score. */
  ghost predicate BestSoFar(ratio: Ratio, target: string, norms: seq<string>, best: Option<(real, nat, nat)>,
                            s: nat, e: nat)
  {
    match best
    case None => NoneBefore(ratio, target, norms, s, e)
    case Some((score, x, y)) =>
      BestBefore(ratio, target, norms, x, y, s, e) && score == Score(ratio, target, norms, x, y)
  }

  lemma NextWindow(ratio: Ratio, target: string, norms: seq<string>, best: Option<(real, nat, nat)>, s: nat, e: nat)
    requires BestSoFar(ratio, target, norms, best, s, e)
    requires s <= e < |norms| && e < s + ApproximateWindow(target) + 2 && forall i | s <= i <= e :: norms[i] != []
    ensures var score := Score(ratio, target, norms, s, e);
            var better := score >= FUZZY_THRESHOLD && (best.None? || score > best.value.0);
            var next := if better then Some((score, s, e)) else best;
            BestSoFar(ratio, target, norms, next, s, e + 1)
  {
    forall x: nat, y: nat | Before(x, y, s, e + 1)
      ensures Before(x, y, s, e) || (x == s && y == e)
    {
    }
  }

  lemma RowDone(ratio: Ratio, target: string, norms: seq<string>, best: Option<(real, nat, nat)>, s: nat, e: nat)
    requires BestSoFar(ratio, target, norms, best, s, e) && s <= e
    requires e >= |norms| || e >= s + ApproximateWindow(target) + 2 || norms[e] == []
    ensures BestSoFar(ratio, target, norms, best, s + 1, 0)
  {
    forall x: nat, y: nat | Close(ratio, target, norms, x, y) && Before(x, y, s + 1, 0)
      ensures Before(x, y, s, e)
    {
    }
  }

  lemma RowStarts(ratio: Ratio, target: string, norms: seq<string>, best: Option<(real, nat, nat)>, s: nat)
    requires BestSoFar(ratio, target, norms, best, s, 0)
    ensures BestSoFar(ratio, target, norms, best, s, s)
  {
    forall x: nat, y: nat | Close(ratio, target, norms, x, y) && Before(x, y, s, s)
      ensures Before(x, y, s, 0)
    {
    }
  }

  lemma FuzzyBoxesOnce(ratio: Ratio, target: string, words: seq<Word>, norms: seq<string>,
                       a: seq<Domain.Box>, b: seq<Domain.Box>)
    requires |words| == |norms|
    requires FuzzyBoxes(ratio, target, words, norms, a) && FuzzyBoxes(ratio, target, words, norms, b)
    ensures a == b
  {
  }

  ghost function FuzzyChoice(ratio: Ratio, target: string, words: seq<Word>, norms: seq<string>): seq<Domain.Box>
    requires |words| == |norms|
  {
    if exists found :: FuzzyBoxes(ratio, target, words, norms, found)
    then var found :| FuzzyBoxes(ratio, target, words, norms, found); found
    else []
  }

  method Fuzzy(ratio: Ratio, target: string, words: seq<Word>, norms: seq<string>) returns (found: seq<Domain.Box>)
    requires |words| == |norms|
    ensures FuzzyBoxes(ratio, target, words, norms, found)
    ensures found == FuzzyChoice(ratio, target, words, norms)
  {
    var approximate := ApproximateWindow(target);
    var best: Option<(real, nat, nat)> := None;
    for start := 0 to |words|
      invariant BestSoFar(ratio, target, norms, best, start, 0)
    {
      RowStarts(ratio, target, norms, best, start);
      var accumulated := [];
      var limit := if |words| < start + approximate + 2 then |words| else start + approximate + 2;
      var end := start;
      while end < limit
        invariant start <= end <= limit
        invariant accumulated == Join(norms, start, end) && forall i | start <= i < end :: norms[i] != []
        invariant BestSoFar(ratio, target, norms, best, start, end)
      {
        if norms[end] == [] {
          break;
        }
        accumulated := accumulated + norms[end];
        var score := ratio(accumulated, target);
        assert score == Score(ratio, target, norms, start, end);
        NextWindow(ratio, target, norms, best, start, end);
        if score >= FUZZY_THRESHOLD && (best.None? || score > best.value.0) {
          best := Some((score, start, end));
        }
        end := end + 1;
      }
      RowDone(ratio, target, norms, best, start, end);
    }
    found := if best.None? then [] else Boxes(words[best.value.1..best.value.2 + 1]);
    FuzzyBoxesOnce(ratio, target, words, norms, found, FuzzyChoice(ratio, target, words, norms));
  }
}
