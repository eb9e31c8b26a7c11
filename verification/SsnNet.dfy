/** The deterministic net for social security numbers, alone or split over two words at a hyphen. */
module SsnNet {
  import opened PageText
  import Domain

  predicate Dash(c: char) {
    c == '-' || c == '–'
  }

  /** A digit or a mask. */
  predicate Mark(al: Alphabet, c: char) {
    al.digit(c) || c in "xX*•"
  }

  /** Three marks, two marks and four marks between dashes; one trailing line break is ignored. */
  predicate Shape(al: Alphabet, t: string) {
    && (|t| == 11 || (|t| == 12 && t[11] == '\n'))
    && Dash(t[3]) && Dash(t[6])
    && forall i | 0 <= i < 11 && i != 3 && i != 6 :: Mark(al, t[i])
  }

  predicate HasDigit(al: Alphabet, t: string) {
    exists c :: c in t && al.digit(c)
  }

  predicate IsNumber(al: Alphabet, t: string) {
    Shape(al, t) && HasDigit(al, t)
  }

  predicate Edge(c: char) {
    c in ".,;:()"
  }

  function TrimLeft(s: string): string {
    if s != [] && Edge(s[0]) then TrimLeft(s[1..]) else s
  }

  function Trim(s: string): string {
    if s != [] && Edge(s[|s| - 1]) then Trim(s[..|s| - 1]) else TrimLeft(s)
  }

  function Token(words: seq<Word>, k: nat): string
    requires k < |words|
  {
    Trim(words[k].text)
  }

  /** Word k is a number by itself. */
  predicate Alone(al: Alphabet, words: seq<Word>, k: nat) {
    k < |words| && IsNumber(al, Token(words, k))
  }

  /** The two texts meet at a hyphen and together are a number. */
  predicate Joined(al: Alphabet, t: string, u: string) {
    && ((t != [] && t[|t| - 1] == '-') || (u != [] && u[0] == '-'))
    && IsNumber(al, t + u)
  }

  /** Words k and k + 1 are a number split at a hyphen. */
  predicate Split(al: Alphabet, words: seq<Word>, k: nat) {
    k + 1 < |words| && Joined(al, Token(words, k), Token(words, k + 1))
  }

  /** Word k is a number or one half of one. */
  predicate Sensitive(al: Alphabet, words: seq<Word>, k: nat) {
    Alone(al, words, k) || Split(al, words, k) || (k > 0 && Split(al, words, k - 1))
  }

  function Found(page: nat, box: Domain.Box): Detection {
    Detection(page, Domain.Ssn, box, 0.95)
  }

  /** One detection for every sensitive word among the first n, in order. */
  function Sensitives(al: Alphabet, page: nat, words: seq<Word>, n: nat): seq<Detection>
    requires n <= |words|
  {
    if n == 0 then []
    else Sensitives(al, page, words, n - 1)
         + if Sensitive(al, words, n - 1) then [Found(page, words[n - 1].box)] else []
  }

  // ---------------------------------------------------------------- no suffix cut at a hyphen starts a number

  /** The marks of a number are neither dashes nor line breaks. */
  lemma MarksOfShape(al: Alphabet, t: string)
    requires al.Valid()
    ensures Shape(al, t) ==>
              forall i | 0 <= i < 11 && i != 3 && i != 6 :: t[i] != '-' && t[i] != '–' && t[i] != '\n'
  {
    assert '-' in "xX*•-–\n" && '–' in "xX*•-–\n" && '\n' in "xX*•-–\n";
  }

  /** The second half of a split number begins neither a whole number nor another split one. */
  lemma SecondHalfStartsNothing(al: Alphabet, t: string, u: string, v: string)
    requires al.Valid() && Joined(al, t, u) && u <= v
    ensures !Shape(al, v)
  {
    MarksOfShape(al, t + u);
    MarksOfShape(al, v);
    if t != [] && t[|t| - 1] == '-' {
      assert (t + u)[|t| - 1] == '-';
      assert |t| == 4 || |t| == 7;
      if |t| == 4 {
        assert u[2] == (t + u)[6];
      } else {
        assert u[3] == (t + u)[10];
      }
    }
  }

  /** Nor is the first half of a split number a whole one. */
  lemma FirstHalfIsNotWhole(al: Alphabet, t: string, u: string)
    requires al.Valid() && Joined(al, t, u)
    ensures !Shape(al, t)
  {
    MarksOfShape(al, t);
    MarksOfShape(al, t + u);
    assert |t| == 11 && |u| == 1 ==> (t + u)[11] == u[0];
  }

  lemma SkippingLosesNothing(al: Alphabet, words: seq<Word>, k: nat)
    requires al.Valid() && Split(al, words, k)
    ensures !Alone(al, words, k) && !Alone(al, words, k + 1) && !Split(al, words, k + 1)
  {
    var t, u := Token(words, k), Token(words, k + 1);
    FirstHalfIsNotWhole(al, t, u);
    SecondHalfStartsNothing(al, t, u, u);
    if k + 2 < |words| {
      SecondHalfStartsNothing(al, t, u, u + Token(words, k + 2));
    }
  }

  /** Before word n: what is found so far, and whether word n has been found with the one before it. */
  ghost predicate FoundSoFar(al: Alphabet, page: nat, words: seq<Word>, n: nat, used: bool, found: seq<Detection>)
    requires n <= |words|
  {
    && used == (n > 0 && Split(al, words, n - 1))
    && found == Sensitives(al, page, words, n) + if n < |words| && used then [Found(page, words[n].box)] else []
  }

  lemma Step(al: Alphabet, page: nat, words: seq<Word>, n: nat, used: bool, found: seq<Detection>)
    requires al.Valid() && n < |words| && FoundSoFar(al, page, words, n, used, found)
    ensures used ==> FoundSoFar(al, page, words, n + 1, false, found)
    ensures !used && Alone(al, words, n) ==>
              FoundSoFar(al, page, words, n + 1, false, found + [Found(page, words[n].box)])
    ensures !used && !Alone(al, words, n) && Split(al, words, n) ==>
              FoundSoFar(al, page, words, n + 1, true,
                         found + [Found(page, words[n].box)] + [Found(page, words[n + 1].box)])
    ensures !used && !Alone(al, words, n) && !Split(al, words, n) ==> FoundSoFar(al, page, words, n + 1, false, found)
  {
    if used {
      SkippingLosesNothing(al, words, n - 1);
    }
    if Split(al, words, n) {
      SkippingLosesNothing(al, words, n);
    }
  }

  /** A detection for every sensitive word, once, in reading order: skipping the second halves loses none. */
  method SafetyNet(al: Alphabet, page: nat, words: seq<Word>) returns (detections: seq<Detection>)
    requires al.Valid()
    ensures detections == Sensitives(al, page, words, |words|)
  {
    detections := [];
    var used: set<nat> := {};
    for index := 0 to |words|
      invariant forall k | k in used :: k <= index && k < |words|
      invariant FoundSoFar(al, page, words, index, index in used, detections)
    {
      Step(al, page, words, index, index in used, detections);
      if index in used {
        continue;
      }
      var token := Token(words, index);
      if IsNumber(al, token) {
        detections := detections + [Found(page, words[index].box)];
        continue;
      }
      if index + 1 < |words| {
        var neighbour := Token(words, index + 1);
        if (token != [] && token[|token| - 1] == '-') || (neighbour != [] && neighbour[0] == '-') {
          var joined := token + neighbour;
          if IsNumber(al, joined) {
            detections := detections + [Found(page, words[index].box)];
            detections := detections + [Found(page, words[index + 1].box)];
            used := used + {index + 1};
          }
        }
      }
    }
  }

  /** Every sensitive word has its detection. */
  lemma {:induction false} SensitiveIsFound(al: Alphabet, page: nat, words: seq<Word>, n: nat, k: nat)
    requires k < n <= |words| && Sensitive(al, words, k)
    ensures Found(page, words[k].box) in Sensitives(al, page, words, n)
  {
    if k < n - 1 {
      SensitiveIsFound(al, page, words, n - 1, k);
    }
  }

  /** Every detection is of a sensitive word. */
  lemma {:induction false} FoundIsSensitive(al: Alphabet, page: nat, words: seq<Word>, n: nat, d: Detection)
    returns (k: nat)
    requires n <= |words| && d in Sensitives(al, page, words, n)
    ensures k < n && Sensitive(al, words, k) && d == Found(page, words[k].box)
  {
    if d in Sensitives(al, page, words, n - 1) {
      k := FoundIsSensitive(al, page, words, n - 1, d);
    } else {
      k := n - 1;
    }
  }
}
