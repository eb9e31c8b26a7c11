/** Printing the rows of a page as lines of text. */
module Grid {
  import opened PageText
  import opened Sorting
  import opened Layout
  import opened Rounding

  // ---------------------------------------------------------------- tokens of a text

  /** The maximal runs without white space; `run` is the one that is open. */
  function TokensFrom(al: Alphabet, s: string, run: string): seq<string>
    decreases |s|
  {
    if s == [] then if run == [] then [] else [run]
    else if al.space(s[0]) then (if run == [] then [] else [run]) + TokensFrom(al, s[1..], [])
    else TokensFrom(al, s[1..], run + [s[0]])
  }

  function Tokens(al: Alphabet, s: string): seq<string> {
    TokensFrom(al, s, [])
  }

  /** White space between two texts keeps their tokens apart. */
  lemma {:induction false} TokensApart(al: Alphabet, s: string, run: string, c: char, t: string)
    requires al.space(c)
    ensures TokensFrom(al, s + [c] + t, run) == TokensFrom(al, s, run) + Tokens(al, t)
    decreases |s|
  {
    var all := s + [c] + t;
    if s == [] {
      assert all[1..] == t;
    } else {
      assert all[1..] == s[1..] + [c] + t;
      if al.space(s[0]) {
        TokensApart(al, s[1..], [], c, t);
      } else {
        TokensApart(al, s[1..], run + [s[0]], c, t);
      }
    }
  }

  function Spaces(n: nat): (r: string)
    ensures |r| == n && forall i | 0 <= i < n :: r[i] == ' '
  {
    seq(n, i => ' ')
  }

  lemma {:induction false} TokensAfterSpaces(al: Alphabet, n: nat, t: string)
    requires al.Valid()
    ensures Tokens(al, Spaces(n) + t) == Tokens(al, t)
  {
    if n == 0 {
      assert Spaces(n) + t == t;
    } else {
      assert (Spaces(n) + t)[1..] == Spaces(n - 1) + t;
      TokensAfterSpaces(al, n - 1, t);
    }
  }

  lemma {:induction false} TokensOfWord(al: Alphabet, s: string, run: string)
    requires forall i | 0 <= i < |s| :: !al.space(s[i])
    ensures TokensFrom(al, s, run) == if run + s == [] then [] else [run + s]
    decreases |s|
  {
    if s != [] {
      TokensOfWord(al, s[1..], run + [s[0]]);
      assert run + [s[0]] + s[1..] == run + s;
    } else {
      assert run + s == run;
    }
  }

  // ---------------------------------------------------------------- lines

  /** The column of a word's left edge. */
  function Column(w: Word, width: nat): int {
    RoundHalfEven(w.box.x1 * width, 1000)
  }

  /** Where the next word goes on a line: at its column, or one blank behind what is there. */
  function Place(line: string, w: Word, width: nat): nat {
    var after := |line| + if line != [] then 1 else 0;
    if Column(w, width) > after then Column(w, width) else after
  }

  function LeftJustified(line: string, n: nat): string {
    line + if n > |line| then Spaces(n - |line|) else []
  }

  /** The line of a row whose words go from left to right. */
  function LineOf(row: seq<Word>, width: nat): string {
    if row == [] then []
    else
      var line, w := LineOf(row[..|row| - 1], width), row[|row| - 1];
      LeftJustified(line, Place(line, w, width)) + w.text
  }

  /** The tokens of every word's text, in order. */
  function TokensOfWords(al: Alphabet, words: seq<Word>): seq<string> {
    if words == [] then []
    else TokensOfWords(al, words[..|words| - 1]) + Tokens(al, words[|words| - 1].text)
  }

  /** A text behind a gap adds its tokens. */
  lemma TokensBehindGap(al: Alphabet, line: string, gap: nat, text: string)
    requires al.Valid() && (line == [] || gap > 0)
    ensures Tokens(al, line + Spaces(gap) + text) == Tokens(al, line) + Tokens(al, text)
  {
    if line == [] {
      TokensAfterSpaces(al, gap, text);
      assert line + Spaces(gap) + text == Spaces(gap) + text;
    } else {
      var tail := Spaces(gap - 1) + text;
      TokensApart(al, line, [], ' ', tail);
      TokensAfterSpaces(al, gap - 1, text);
      assert Spaces(gap) == [' '] + Spaces(gap - 1);
      assert line + Spaces(gap) + text == line + [' '] + tail;
    }
  }

  lemma {:induction false} TokensOfLine(al: Alphabet, row: seq<Word>, width: nat)
    requires al.Valid()
    ensures Tokens(al, LineOf(row, width)) == TokensOfWords(al, row)
  {
    if row != [] {
      var line, w := LineOf(row[..|row| - 1], width), row[|row| - 1];
      TokensOfLine(al, row[..|row| - 1], width);
      var gap := Place(line, w, width) - |line|;
      TokensBehindGap(al, line, gap, w.text);
      assert gap == 0 ==> line + Spaces(gap) == line;
    }
  }

  /** A line is the line before, blanks up to the place of the next word, and the word. */
  lemma LineEndsInWord(row: seq<Word>, width: nat)
    requires row != []
    ensures var n := |row| - 1;
            var line, start := LineOf(row[..n], width), Place(LineOf(row[..n], width), row[n], width);
            && line <= LineOf(row, width) && start + |row[n].text| == |LineOf(row, width)|
            && LineOf(row, width)[start..] == row[n].text
  {
    var n := |row| - 1;
    var line := LineOf(row[..n], width);
    var start := Place(line, row[n], width);
    assert |LeftJustified(line, start)| == start;
  }

  lemma SliceOfPrefix(x: string, y: string, i: nat, j: nat)
    requires x <= y && i <= j <= |x|
    ensures y[i..j] == x[i..j]
  {
  }

  /**
   Every word stands on its line, at its column or to the right of it; it is further right only
   when the words before it reach that far.
   */
  lemma {:induction false} WordsStandAtTheirColumns(row: seq<Word>, width: nat, k: nat) returns (start: nat)
    requires k < |row|
    ensures start == Place(LineOf(row[..k], width), row[k], width) >= Column(row[k], width)
    ensures start > Column(row[k], width) ==> start <= |LineOf(row[..k], width)| + 1
    ensures start + |row[k].text| <= |LineOf(row, width)|
    ensures LineOf(row, width)[start..start + |row[k].text|] == row[k].text
  {
    var n := |row| - 1;
    LineEndsInWord(row, width);
    if k == n {
      start := Place(LineOf(row[..n], width), row[n], width);
    } else {
      start := WordsStandAtTheirColumns(row[..n], width, k);
      assert row[..n][..k] == row[..k];
      SliceOfPrefix(LineOf(row[..n], width), LineOf(row, width), start, start + |row[k].text|);
    }
  }

  // ---------------------------------------------------------------- the page

  /** The lines of the first n rows, with an empty one where the gap to the row above is wide. */
  function LinesOf(r: Rows, tolerance: real, width: nat, n: nat): seq<string>
    requires n <= |r.rows| == |r.centers|
  {
    if n == 0 then []
    else
      var wide := n > 1 && r.centers[n - 1] - r.centers[n - 2] > 3.5 * tolerance;
      LinesOf(r, tolerance, width, n - 1)
      + (if wide then [""] else [])
      + [LineOf(SortBy(r.rows[n - 1], LeftToRight), width)]
  }

  /** The lines with a line break between them. */
  function JoinLines(lines: seq<string>): string {
    if lines == [] then []
    else if |lines| == 1 then lines[0]
    else JoinLines(lines[..|lines| - 1]) + ['\n'] + lines[|lines| - 1]
  }

  function GridOf(words: seq<Word>, width: nat): string {
    if words == [] then []
    else
      var tolerance := Tolerance(words);
      var r := RowsOf(SortBy(words, TopDown), tolerance);
      JoinLines(LinesOf(r, tolerance, width, |r.rows|))
  }

  /** The inner loop: prints one row, its words already in order. */
  method PrintRow(row: seq<Word>, width: nat) returns (line: string)
    ensures line == LineOf(row, width)
  {
    line := "";
    for k := 0 to |row|
      invariant line == LineOf(row[..k], width)
    {
      assert row[..k + 1][..k] == row[..k];
      line := LeftJustified(line, Place(line, row[k], width)) + row[k].text;
    }
    assert row[..|row|] == row;
  }

  /** The first loop: gathers the sorted words into rows, keeping a running centre for each. */
  method GatherRows(sorted: seq<Word>, rowTolerance: real) returns (r: Rows)
    ensures r == RowsOf(sorted, rowTolerance)
  {
    var rows: seq<seq<Word>> := [];
    var rowCenters: seq<real> := [];
    for n := 0 to |sorted|
      invariant |rows| == |rowCenters| && Rows(rows, rowCenters) == RowsOf(sorted[..n], rowTolerance)
    {
      RowsNext(sorted, rowTolerance, n);
      var word := sorted[n];
      var center, last := Center(word), |rows| - 1;
      if rows != [] && Near(center, rowCenters[last], rowTolerance) {
        rows := rows[last := rows[last] + [word]];
        var count := |rows[last]|;
        rowCenters := rowCenters[last := Shifted(rowCenters[last], center, count)];
      } else {
        rows := rows + [[word]];
        rowCenters := rowCenters + [center];
      }
    }
    assert sorted[..|sorted|] == sorted;
    r := Rows(rows, rowCenters);
  }

  method BuildGrid(words: seq<Word>, width: nat) returns (text: string)
    ensures text == GridOf(words, width)
  {
    hide SortBy, Tolerance, RowsOf, JoinLines;
    if words == [] {
      return "";
    }
    var rowTolerance := Tolerance(words);
    var r := GatherRows(SortBy(words, TopDown), rowTolerance);
    var lines: seq<string> := [];
    for n := 0 to |r.rows|
      invariant |r.rows| == |r.centers| && lines == LinesOf(r, rowTolerance, width, n)
    {
      if n > 0 && r.centers[n] - r.centers[n - 1] > 3.5 * rowTolerance {
        lines := lines + [""];
      }
      var line := PrintRow(SortBy(r.rows[n], LeftToRight), width);
      lines := lines + [line];
    }
    text := JoinLines(lines);
  }

  lemma RowsNext(sorted: seq<Word>, tolerance: real, n: nat)
    requires n < |sorted|
    ensures RowsOf(sorted[..n + 1], tolerance) == PlaceWord(RowsOf(sorted[..n], tolerance), sorted[n], tolerance)
  {
    assert sorted[..n + 1][..n] == sorted[..n];
  }

  // ---------------------------------------------------------------- the grid holds the page

  function SortedRows(rows: seq<seq<Word>>): (r: seq<seq<Word>>)
    ensures |r| == |rows| && forall i | 0 <= i < |r| :: r[i] == SortBy(rows[i], LeftToRight)
  {
    seq(|rows|, i requires 0 <= i < |rows| => SortBy(rows[i], LeftToRight))
  }

  /** The words in the order of the grid: row by row, and in a row from left to right. */
  function Reading(words: seq<Word>): seq<Word> {
    if words == [] then [] else Flatten(SortedRows(RowsOf(SortBy(words, TopDown), Tolerance(words)).rows))
  }

  lemma {:induction false} SortedRowsKeepWords(rows: seq<seq<Word>>)
    ensures multiset(Flatten(SortedRows(rows))) == multiset(Flatten(rows))
  {
    if rows != [] {
      var n := |rows| - 1;
      assert SortedRows(rows)[..n] == SortedRows(rows[..n]);
      SortedRowsKeepWords(rows[..n]);
      SortByIsSorted(rows[n], LeftToRight);
    }
  }

  /** The reading order has every word of the page once. */
  lemma ReadingIsPermutation(words: seq<Word>)
    ensures multiset(Reading(words)) == multiset(words)
  {
    if words != [] {
      var sorted, tolerance := SortBy(words, TopDown), Tolerance(words);
      SortByIsSorted(words, TopDown);
      RowsAreFaithful(sorted, tolerance);
      SortedRowsKeepWords(RowsOf(sorted, tolerance).rows);
    }
  }

  lemma {:induction false} TokensOfMore(al: Alphabet, a: seq<Word>, b: seq<Word>)
    ensures TokensOfWords(al, a + b) == TokensOfWords(al, a) + TokensOfWords(al, b)
  {
    if b == [] {
      assert a + b == a;
    } else {
      assert (a + b)[..|a + b| - 1] == a + b[..|b| - 1];
      TokensOfMore(al, a, b[..|b| - 1]);
    }
  }

  /** One more line adds its tokens. */
  lemma TokensOfNextLine(al: Alphabet, lines: seq<string>, line: string)
    requires al.Valid()
    ensures Tokens(al, JoinLines(lines + [line])) == Tokens(al, JoinLines(lines)) + Tokens(al, line)
  {
    assert (lines + [line])[..|lines|] == lines;
    if lines != [] {
      TokensApart(al, JoinLines(lines), [], '\n', line);
    }
  }

  lemma TokensOfNextRow(al: Alphabet, before: seq<string>, wide: bool, row: seq<Word>, width: nat)
    requires al.Valid()
    ensures Tokens(al, JoinLines(before + (if wide then [""] else []) + [LineOf(row, width)]))
            == Tokens(al, JoinLines(before)) + TokensOfWords(al, row)
  {
    TokensOfLine(al, row, width);
    if wide {
      TokensOfNextLine(al, before, "");
      TokensOfNextLine(al, before + [""], LineOf(row, width));
    } else {
      assert before + [] == before;
      TokensOfNextLine(al, before, LineOf(row, width));
    }
  }

  lemma {:induction false} TokensOfLines(al: Alphabet, r: Rows, tolerance: real, width: nat, n: nat)
    requires al.Valid() && n <= |r.rows| == |r.centers|
    ensures Tokens(al, JoinLines(LinesOf(r, tolerance, width, n)))
            == TokensOfWords(al, Flatten(SortedRows(r.rows)[..n]))
  {
    if n > 0 {
      TokensOfLines(al, r, tolerance, width, n - 1);
      var row := SortBy(r.rows[n - 1], LeftToRight);
      var wide := n > 1 && r.centers[n - 1] - r.centers[n - 2] > 3.5 * tolerance;
      TokensOfNextRow(al, LinesOf(r, tolerance, width, n - 1), wide, row, width);
      FlattenNext(SortedRows(r.rows), n - 1);
      TokensOfMore(al, Flatten(SortedRows(r.rows)[..n - 1]), row);
    }
  }

  /** Splitting the grid at white space gives the words' own tokens, in reading order. */
  lemma GridIsFaithful(al: Alphabet, words: seq<Word>, width: nat)
    requires al.Valid()
    ensures Tokens(al, GridOf(words, width)) == TokensOfWords(al, Reading(words))
  {
    if words != [] {
      var tolerance := Tolerance(words);
      var r := RowsOf(SortBy(words, TopDown), tolerance);
      TokensOfLines(al, r, tolerance, width, |r.rows|);
      assert SortedRows(r.rows)[..|r.rows|] == SortedRows(r.rows);
    }
  }

  /** Words without white space come back whole: each once, and nothing else. */
  lemma {:induction false} WholeWords(al: Alphabet, words: seq<Word>)
    requires forall i | 0 <= i < |words| ::
               words[i].text != [] && forall j | 0 <= j < |words[i].text| :: !al.space(words[i].text[j])
    ensures TokensOfWords(al, words) == Map(words, (w: Word) => w.text)
  {
    if words != [] {
      WholeWords(al, words[..|words| - 1]);
      TokensOfWord(al, words[|words| - 1].text, []);
      assert [] + words[|words| - 1].text == words[|words| - 1].text;
    }
  }
}
