/** Anchoring a whole value: exactly, or by its comma- and line-separated parts, or approximately. */
module ValueAnchoring {
  import opened PageText
  import opened Anchoring
  import Domain

  // ---------------------------------------------------------------- the parts of a value

  /** How many white-space characters the text starts with. */
  function Blank(al: Alphabet, s: string): (n: nat)
    ensures n <= |s|
  {
    if s == [] || !al.space(s[0]) then 0 else 1 + Blank(al, s[1..])
  }

  /** The length of the separator the text starts with: two or more blanks, a comma, a line break. */
  function Separator(al: Alphabet, s: string): (n: nat)
    ensures n <= |s|
  {
    if Blank(al, s) >= 2 then Blank(al, s)
    else if s != [] && (s[0] == ',' || s[0] == '\n') then 1
    else 0
  }

  function Pieces(al: Alphabet, s: string, piece: string): seq<string>
    decreases |s|
  {
    if s == [] then [piece]
    else if Separator(al, s) > 0 then [piece] + Pieces(al, s[Separator(al, s)..], [])
    else Pieces(al, s[1..], piece + [s[0]])
  }

  function StripLeft(al: Alphabet, s: string): (r: string)
    ensures |r| <= |s|
  {
    s[Blank(al, s)..]
  }

  function Strip(al: Alphabet, s: string): (r: string)
    ensures |r| <= |s|
  {
    if s != [] && al.space(s[|s| - 1]) then Strip(al, s[..|s| - 1]) else StripLeft(al, s)
  }

  /** The stripped pieces of at least five characters. */
  function LongOnes(al: Alphabet, pieces: seq<string>): seq<string> {
    if pieces == [] then []
    else LongOnes(al, pieces[..|pieces| - 1])
         + if |Strip(al, pieces[|pieces| - 1])| >= 5 then [Strip(al, pieces[|pieces| - 1])] else []
  }

  function Fragments(al: Alphabet, value: string): seq<string> {
    LongOnes(al, Pieces(al, value, []))
  }

  /** Cutting loses the separators: with two or more pieces, each is shorter than the text. */
  lemma {:induction false} PiecesAreShorter(al: Alphabet, s: string, piece: string)
    ensures Pieces(al, s, piece) != []
    ensures forall i | 0 <= i < |Pieces(al, s, piece)| ::
              |Pieces(al, s, piece)[i]| <= |piece| + |s| - if |Pieces(al, s, piece)| > 1 then 1 else 0
    decreases |s|
  {
    if s != [] {
      if Separator(al, s) > 0 {
        PiecesAreShorter(al, s[Separator(al, s)..], []);
      } else {
        PiecesAreShorter(al, s[1..], piece + [s[0]]);
      }
    }
  }

  lemma {:induction false} LongOnesComeFromPieces(al: Alphabet, pieces: seq<string>, bound: nat)
    requires forall i | 0 <= i < |pieces| :: |pieces[i]| <= bound
    ensures |LongOnes(al, pieces)| <= |pieces|
    ensures forall i | 0 <= i < |LongOnes(al, pieces)| :: |LongOnes(al, pieces)[i]| <= bound
  {
    if pieces != [] {
      LongOnesComeFromPieces(al, pieces[..|pieces| - 1], bound);
    }
  }

  /** So a value with several fragments has only shorter ones, and anchoring by fragments ends. */
  lemma FragmentsAreShorter(al: Alphabet, value: string)
    requires |Fragments(al, value)| > 1
    ensures forall i | 0 <= i < |Fragments(al, value)| :: |Fragments(al, value)[i]| < |value|
  {
    var pieces := Pieces(al, value, []);
    PiecesAreShorter(al, value, []);
    LongOnesComeFromPieces(al, pieces, |value|);
    LongOnesComeFromPieces(al, pieces, if |pieces| > 1 then |value| - 1 else |value|);
  }

  // ---------------------------------------------------------------- the boxes of a value

  ghost function ExactOf(al: Alphabet, value: string, words: seq<Word>): seq<Domain.Box> {
    ExactBoxes(Norm(al, value), words, Norms(al, words), |words|)
  }

  ghost function FuzzyOf(al: Alphabet, ratio: Ratio, value: string, words: seq<Word>): seq<Domain.Box> {
    FuzzyChoice(ratio, Norm(al, value), words, Norms(al, words))
  }

  ghost function AnchorBoxes(al: Alphabet, ratio: Ratio, value: string, words: seq<Word>): seq<Domain.Box>
    decreases |value|, 1, 0
  {
    if |Norm(al, value)| < 2 then []
    else if ExactOf(al, value, words) != [] then ExactOf(al, value, words)
    else if |Fragments(al, value)| > 1 then
      FragmentsAreShorter(al, value);
      var parts := AnchorEach(al, ratio, Fragments(al, value), words, |value|);
      if parts != [] then parts else FuzzyOf(al, ratio, value, words)
    else FuzzyOf(al, ratio, value, words)
  }

  ghost function AnchorEach(al: Alphabet, ratio: Ratio, values: seq<string>, words: seq<Word>, bound: nat)
    : seq<Domain.Box>
    requires forall i | 0 <= i < |values| :: |values[i]| < bound
    decreases bound, 0, |values|
  {
    if values == [] then []
    else AnchorEach(al, ratio, values[..|values| - 1], words, bound)
         + AnchorBoxes(al, ratio, values[|values| - 1], words)
  }

  method AnchorValue(al: Alphabet, ratio: Ratio, value: string, words: seq<Word>) returns (found: seq<Domain.Box>)
    requires al.Valid()
    ensures found == AnchorBoxes(al, ratio, value, words)
    decreases |value|
  {
    NormIgnoresSpace(al, value);
    var target := Norm(al, Squeezed(al, value));
    if |target| < 2 {
      return [];
    }
    var norms := Norms(al, words);
    found := Exact(target, words, norms);
    if found != [] {
      return;
    }
    var fragments := Fragments(al, value);
    if |fragments| > 1 {
      FragmentsAreShorter(al, value);
      for n := 0 to |fragments|
        invariant found == AnchorEach(al, ratio, fragments[..n], words, |value|)
      {
        assert fragments[..n + 1][..n] == fragments[..n];
        var boxes := AnchorValue(al, ratio, fragments[n], words);
        found := found + boxes;
      }
      assert fragments[..|fragments|] == fragments;
      if found != [] {
        return;
      }
    }
    found := Fuzzy(ratio, target, words, norms);
  }

  // ---------------------------------------------------------------- what anchoring promises

  ghost predicate IsWordBox(words: seq<Word>, box: Domain.Box) {
    exists k :: 0 <= k < |words| && words[k].box == box
  }

  /** Anchoring returns only boxes of words on the page. */
  lemma {:induction false} AnchorsAreWords(al: Alphabet, ratio: Ratio, value: string, words: seq<Word>, box: Domain.Box)
    requires box in AnchorBoxes(al, ratio, value, words)
    ensures IsWordBox(words, box)
    decreases |value|, 1, 0
  {
    if box in ExactOf(al, value, words) {
      var _, _, k := BoxedIsRun(Norm(al, value), words, Norms(al, words), box);
      assert words[k].box == box;
    } else if box in FuzzyOf(al, ratio, value, words) {
      FuzzyIsWords(al, ratio, value, words, box);
    } else {
      FragmentsAreShorter(al, value);
      EachAnchorsWords(al, ratio, Fragments(al, value), words, |value|, box);
    }
  }

  lemma {:induction false} EachAnchorsWords(al: Alphabet, ratio: Ratio, values: seq<string>, words: seq<Word>,
                                            bound: nat, box: Domain.Box)
    requires forall i | 0 <= i < |values| :: |values[i]| < bound
    requires box in AnchorEach(al, ratio, values, words, bound)
    ensures IsWordBox(words, box)
    decreases bound, 0, |values|
  {
    if box in AnchorBoxes(al, ratio, values[|values| - 1], words) {
      AnchorsAreWords(al, ratio, values[|values| - 1], words, box);
    } else {
      EachAnchorsWords(al, ratio, values[..|values| - 1], words, bound, box);
    }
  }

  lemma FuzzyIsWords(al: Alphabet, ratio: Ratio, value: string, words: seq<Word>, box: Domain.Box)
    requires box in FuzzyOf(al, ratio, value, words)
    ensures IsWordBox(words, box)
  {
    var target, norms := Norm(al, value), Norms(al, words);
    var found :| FuzzyBoxes(ratio, target, words, norms, found) && found == FuzzyOf(al, ratio, value, words);
    var s: nat, e: nat :| BestBefore(ratio, target, norms, s, e, |norms|, 0) && found == Boxes(words[s..e + 1]);
    var k := BoxOfWord(words, s, e + 1, box);
  }

  /**
   Every exact occurrence of a value of two or more characters is boxed, word by word, and with
   one on the page only runs that spell the value are boxed.
   */
  lemma OccurrencesAreBoxed(al: Alphabet, ratio: Ratio, value: string, words: seq<Word>, a: nat, b: nat)
    requires Occurs(Norm(al, value), Norms(al, words), a, b) && |Norm(al, value)| >= 2
    ensures forall k | a <= k < b :: words[k].box in AnchorBoxes(al, ratio, value, words)
    ensures forall box | box in AnchorBoxes(al, ratio, value, words) ::
              exists c, d, k :: Spells(Norm(al, value), Norms(al, words), c, d) && c <= k < d && words[k].box == box
  {
    var target, norms := Norm(al, value), Norms(al, words);
    OccurrenceSpells(target, norms, a, b);
    forall k | a <= k < b
      ensures words[k].box in ExactOf(al, value, words)
    {
      RunIsBoxed(target, words, norms, a, b, k);
    }
    assert words[a].box in ExactOf(al, value, words);
    forall box | box in AnchorBoxes(al, ratio, value, words)
      ensures exists c, d, k :: Spells(target, norms, c, d) && c <= k < d && words[k].box == box
    {
      var c, d, k := BoxedIsRun(target, words, norms, box);
    }
  }

  /** A value that is not anchored at all occurs nowhere on the page. */
  lemma UnanchoredOccursNowhere(al: Alphabet, ratio: Ratio, value: string, words: seq<Word>, a: nat, b: nat)
    requires AnchorBoxes(al, ratio, value, words) == [] && |Norm(al, value)| >= 2
    ensures !Occurs(Norm(al, value), Norms(al, words), a, b)
  {
    if Occurs(Norm(al, value), Norms(al, words), a, b) {
      OccurrencesAreBoxed(al, ratio, value, words, a, b);
    }
  }
}
