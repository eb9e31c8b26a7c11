/** Words on a page, what was found there, and how text is compared. */
module PageText {
  import Domain

  datatype Source = Pdf | Ocr

  datatype Word = Word(text: string, box: Domain.Box, source: Source)

  datatype Detection = Detection(page: nat, category: Domain.Category, box: Domain.Box, confidence: real)

  /**
   What the text library says of characters: what is left of one after lower-casing and dropping
   everything but letters, digits and masks, which ones are white space, and which are digits.
   */
  datatype Alphabet = Alphabet(fold: char -> string, space: char -> bool, digit: char -> bool) {
    ghost predicate Valid() {
      && (forall c :: space(c) ==> fold(c) == [])
      && space('\n') && space(' ') && !space(',')
      && forall c | c in "xX*•-–\n" :: !digit(c)
    }
  }

  function Norm(al: Alphabet, s: string): string {
    if s == [] then [] else Norm(al, s[..|s| - 1]) + al.fold(s[|s| - 1])
  }

  function Norms(al: Alphabet, words: seq<Word>): (r: seq<string>)
    ensures |r| == |words| && forall i | 0 <= i < |r| :: r[i] == Norm(al, words[i].text)
  {
    seq(|words|, i requires 0 <= i < |words| => Norm(al, words[i].text))
  }

  /** The normalized text of words a to b - 1. */
  function Join(norms: seq<string>, a: nat, b: nat): string
    requires a <= b <= |norms|
  {
    if a == b then [] else Join(norms, a, b - 1) + norms[b - 1]
  }

  /** The text without its white space. */
  function Squeezed(al: Alphabet, s: string): string {
    if s == [] then []
    else Squeezed(al, s[..|s| - 1]) + if al.space(s[|s| - 1]) then [] else [s[|s| - 1]]
  }

  lemma {:induction false} NormAppend(al: Alphabet, s: string, t: string)
    ensures Norm(al, s + t) == Norm(al, s) + Norm(al, t)
  {
    if t == [] {
      assert s + t == s;
    } else {
      assert (s + t)[..|s + t| - 1] == s + t[..|t| - 1];
      NormAppend(al, s, t[..|t| - 1]);
    }
  }

  lemma {:induction false} NormIgnoresSpace(al: Alphabet, s: string)
    requires al.Valid()
    ensures Norm(al, Squeezed(al, s)) == Norm(al, s)
  {
    if s != [] {
      NormIgnoresSpace(al, s[..|s| - 1]);
      var last := s[|s| - 1];
      var rest := Squeezed(al, s[..|s| - 1]);
      if al.space(last) {
        assert rest + [] == rest && Norm(al, rest) + [] == Norm(al, rest);
      } else {
        assert (rest + [last])[..|rest|] == rest;
      }
    }
  }

  lemma {:induction false} JoinGrows(norms: seq<string>, a: nat, b: nat, c: nat)
    requires a <= b <= c <= |norms|
    ensures Join(norms, a, b) <= Join(norms, a, c)
  {
    if b < c {
      JoinGrows(norms, a, b, c - 1);
    }
  }

  function Boxes(words: seq<Word>): (r: seq<Domain.Box>)
    ensures |r| == |words| && forall i | 0 <= i < |r| :: r[i] == words[i].box
  {
    seq(|words|, i requires 0 <= i < |words| => words[i].box)
  }
}
