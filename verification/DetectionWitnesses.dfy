/** A page whose lost taxpayer number goes unnoticed because another one is found. */
module DetectionWitnesses {
  import opened Wrappers
  import opened PageText
  import opened Anchoring
  import opened ValueAnchoring
  import opened Detector
  import opened DocumentDetection
  import opened Grid
  import opened Layout
  import Domain

  /** Letters and digits stay, blanks are dropped, and only equal texts are alike. */
  ghost function Plain(): (al: Alphabet)
    ensures al.Valid()
  {
    Alphabet(c => if Stays(c) then [c] else [], c => !Stays(c), c => '0' <= c <= '9')
  }

  ghost function Alike(): Ratio {
    (s, t) => if s == t then 100.0 else 0.0
  }

  const FOUND := Item("12", Domain.Ssn)
  const LOST := Item("98", Domain.Ssn)

  ghost function Naming(items: seq<Item>): Tools {
    Tools(Plain(), Alike(), (image, attempt, grid) => Ok(items), image => [])
  }

  /** The second number was misread: its last digit came out as a letter. */
  ghost function Misread(left: Domain.Box, right: Domain.Box): seq<Word> {
    [Word("12", left, Pdf), Word("9B", right, Pdf)]
  }

  predicate Stays(c: char) {
    c != ' ' && c != '\n'
  }

  lemma NormOfOne(c: char)
    requires Stays(c)
    ensures Norm(Plain(), [c]) == [c]
  {
    assert [c][..0] == [];
  }

  lemma NormOfTwo(c: char, d: char)
    requires Stays(c) && Stays(d)
    ensures Norm(Plain(), [c, d]) == [c, d]
  {
    NormOfOne(c);
    assert [c, d][..1] == [c];
    assert Plain().fold(d) == [d];
  }

  const PRINTED := ["12", "9B"]

  lemma NormsAreThePrint(words: seq<Word>, left: Domain.Box, right: Domain.Box)
    requires words == Misread(left, right)
    ensures Norms(Plain(), words) == PRINTED && Norm(Plain(), LOST.text) == "98" && Norm(Plain(), FOUND.text) == "12"
  {
    NormOfTwo('1', '2');
    NormOfTwo('9', 'B');
    NormOfTwo('9', '8');
  }

  /** Words a to b - 1 never read as the lost number, and the first one does not begin it. */
  lemma JoinedPrint(a: nat, b: nat)
    requires a < b <= 2
    ensures Join(PRINTED, a, b) != "98" && !(Join(PRINTED, 0, 1) < "98")
  {
    assert Join(PRINTED, 0, 1) == Join(PRINTED, 0, 0) + "12" == "12";
    assert Join(PRINTED, 1, 2) == Join(PRINTED, 1, 1) + "9B" == "9B";
    assert Join(PRINTED, 0, 2) == Join(PRINTED, 0, 1) + "9B" == "129B";
  }

  lemma LostIsNotExact(words: seq<Word>, left: Domain.Box, right: Domain.Box)
    requires words == Misread(left, right)
    ensures ExactOf(Plain(), LOST.text, words) == []
  {
    hide Norms, Norm;
    NormsAreThePrint(words, left, right);
    var found := ExactOf(Plain(), LOST.text, words);
    if found != [] {
      var a, b, k := BoxedIsRun("98", words, PRINTED, found[0]);
      JoinedPrint(a, b);
      assert false;
    }
  }

  lemma LostIsNotFuzzy(words: seq<Word>, left: Domain.Box, right: Domain.Box)
    requires words == Misread(left, right)
    ensures FuzzyOf(Plain(), Alike(), LOST.text, words) == []
  {
    hide Norms, Norm;
    NormsAreThePrint(words, left, right);
    forall s: nat, e: nat
      ensures !Close(Alike(), "98", PRINTED, s, e)
    {
      if s <= e < 2 {
        JoinedPrint(s, e + 1);
      }
    }
    assert FuzzyBoxes(Alike(), "98", words, PRINTED, []);
    FuzzyBoxesOnce(Alike(), "98", words, PRINTED, [], FuzzyChoice(Alike(), "98", words, PRINTED));
  }

  lemma {:induction false} NothingLong(al: Alphabet, pieces: seq<string>)
    requires forall i | 0 <= i < |pieces| :: |pieces[i]| < 5
    ensures LongOnes(al, pieces) == []
  {
    if pieces != [] {
      NothingLong(al, pieces[..|pieces| - 1]);
    }
  }

  lemma LostIsNowhere(words: seq<Word>, left: Domain.Box, right: Domain.Box)
    requires words == Misread(left, right)
    ensures AnchorBoxes(Plain(), Alike(), LOST.text, words) == []
  {
    LostIsNotExact(words, left, right);
    LostIsNotFuzzy(words, left, right);
    PiecesAreShorter(Plain(), LOST.text, []);
    NothingLong(Plain(), Pieces(Plain(), LOST.text, []));
  }

  lemma FoundIsExact(words: seq<Word>, left: Domain.Box, right: Domain.Box)
    requires words == Misread(left, right)
    ensures AnchorBoxes(Plain(), Alike(), FOUND.text, words) != []
  {
    NormsAreThePrint(words, left, right);
    assert Join(PRINTED, 0, 1) == Join(PRINTED, 0, 0) + "12";
    OccurrencesAreBoxed(Plain(), Alike(), FOUND.text, words, 0, 1);
  }

  lemma WhatIsLeft(tools: Tools, words: seq<Word>)
    requires BoxesOf(tools, LOST, words) == [] && BoxesOf(tools, FOUND, words) != []
    ensures Unanchored(tools, [LOST, FOUND], words) == [LOST]
    ensures AnyTin(Named(tools, 0, [LOST, FOUND], words, 0.9))
  {
    hide AnchorBoxes;
    NextItem(tools, 0, [LOST, FOUND], words, 0, 0.9);
    NextItem(tools, 0, [LOST, FOUND], words, 1, 0.9);
    assert [LOST, FOUND][..2] == [LOST, FOUND];
    var box := BoxesOf(tools, FOUND, words)[0];
    NamedHolds(tools, 0, [LOST, FOUND], words, 0.9, FOUND, box);
    TinIn(Named(tools, 0, [LOST, FOUND], words, 0.9), Detection(0, Domain.Ssn, box, 0.9));
  }

  lemma PassesWith(tools: Tools, words: seq<Word>)
    requires words != [] && tools.complete(0, 0, GridOf(words, GRID_WIDTH)) == Ok([LOST, FOUND])
    requires BoxesOf(tools, LOST, words) == [] && BoxesOf(tools, FOUND, words) != []
    ensures var o := Read(tools, 0, words, [LOST, FOUND]);
            PageOutcome(tools, 0, 0, words) == Ok(o) && o.unanchored == [LOST] && !AnyLosesTin(tools, [o])
  {
    hide GridOf, AnchorBoxes;
    WhatIsLeft(tools, words);
    FirstReading(tools, 0, 0, words);
  }

  /**
   The model names two numbers and only one of them is located. The page keeps the other as
   unanchored and still passes the check, wherever the two words stand.
   */
  lemma LostNumberPassesTheCheck(left: Domain.Box, right: Domain.Box) returns (tools: Tools, o: Outcome)
    ensures tools == Naming([LOST, FOUND]) && PageOutcome(tools, 0, 0, Misread(left, right)) == Ok(o)
    ensures o.unanchored == [LOST] && AnyTinItem(o.unanchored) && !AnyLosesTin(tools, [o])
  {
    hide GridOf, AnchorBoxes, PageOutcome, AnyLosesTin;
    tools := Naming([LOST, FOUND]);
    var words := Misread(left, right);
    LostIsNowhere(words, left, right);
    FoundIsExact(words, left, right);
    PassesWith(tools, words);
    o := Read(tools, 0, words, [LOST, FOUND]);
  }
}
