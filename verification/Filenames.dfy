/** Names for the downloads of a batch: derived from the original names, safe, and all different. */
module Filenames {

  // ---------------------------------------------------------------- the original name

  predicate Separator(c: char) {
    c == '/' || c == '\\'
  }

  /** Not allowed in file names. */
  predicate Forbidden(c: char) {
    c in "\\/:*?\"<>|"
  }

  predicate Edge(c: char) {
    c == '-' || c == '.' || c == ' '
  }

  /** What follows the last separator. */
  function Base(original: string): string {
    if original == [] || Separator(original[|original| - 1]) then []
    else Base(original[..|original| - 1]) + [original[|original| - 1]]
  }

  /** The length of the text before the last dot, or of the whole text when there is none. */
  function BeforeLastDot(s: string): (n: nat)
    ensures n <= |s| && (n < |s| ==> s[n] == '.') && '.' !in s[n + if n < |s| then 1 else 0..]
  {
    if s == [] then 0
    else if s[|s| - 1] == '.' then |s| - 1
    else
      var n := BeforeLastDot(s[..|s| - 1]);
      if n == |s| - 1 then |s| else n
  }

  /** Drops the last dot and what follows it, unless nothing does. */
  function Stem(base: string): string {
    var n := BeforeLastDot(base);
    if n < |base| - 1 then base[..n] else base
  }

  /** Every run of characters that satisfy p becomes one c. */
  function ReplaceRuns(s: string, p: char -> bool, c: char): string {
    if s == [] then []
    else
      var n := |s| - 1;
      ReplaceRuns(s[..n], p, c)
      + if !p(s[n]) then [s[n]] else if n > 0 && p(s[n - 1]) then [] else [c]
  }

  function TrimStart(s: string): string {
    if s != [] && Edge(s[0]) then TrimStart(s[1..]) else s
  }

  function TrimEnd(s: string): string {
    if s != [] && Edge(s[|s| - 1]) then TrimEnd(s[..|s| - 1]) else s
  }

  function First(s: string, n: nat): string {
    if |s| > n then s[..n] else s
  }

  function SafeStem(original: string, space: char -> bool): string {
    First(TrimEnd(TrimStart(ReplaceRuns(ReplaceRuns(Stem(Base(original)), Forbidden, '-'), space, ' '))), 120)
  }

  const SUFFIX := "-redacted.pdf"

  function OriginalName(original: string, space: char -> bool): string {
    NameStem(original, space) + SUFFIX
  }

  lemma {:induction false} ReplacedChars(s: string, p: char -> bool, c: char)
    ensures forall x | x in ReplaceRuns(s, p, c) :: x == c || (x in s && !p(x))
  {
    if s != [] {
      ReplacedChars(s[..|s| - 1], p, c);
    }
  }

  lemma {:induction false} TrimmedChars(s: string)
    ensures forall x | x in TrimStart(s) :: x in s
    ensures forall x | x in TrimEnd(s) :: x in s
    ensures TrimStart(s) != [] ==> !Edge(TrimStart(s)[0])
    ensures TrimEnd(s) <= s && (TrimEnd(s) != [] ==> !Edge(TrimEnd(s)[|TrimEnd(s)| - 1]))
    decreases |s|
  {
    if s != [] {
      TrimmedChars(s[1..]);
      TrimmedChars(s[..|s| - 1]);
    }
  }

  lemma FirstChars(s: string, n: nat)
    ensures First(s, n) <= s && |First(s, n)| <= n
    ensures forall x | x in First(s, n) :: x in s
  {
  }

  lemma SafeStemIsSafe(original: string, space: char -> bool)
    ensures forall x | x in SafeStem(original, space) :: !Forbidden(x)
    ensures |SafeStem(original, space)| <= 120
    ensures SafeStem(original, space) != [] ==> !Edge(SafeStem(original, space)[0])
  {
    var a := ReplaceRuns(Stem(Base(original)), Forbidden, '-');
    var b := ReplaceRuns(a, space, ' ');
    ReplacedChars(Stem(Base(original)), Forbidden, '-');
    ReplacedChars(a, space, ' ');
    TrimmedChars(b);
    TrimmedChars(TrimStart(b));
    FirstChars(TrimEnd(TrimStart(b)), 120);
  }

  /** The stem of a derived name, or the default where nothing is left of the original one. */
  function NameStem(original: string, space: char -> bool): string {
    if SafeStem(original, space) == [] then "document" else SafeStem(original, space)
  }

  lemma NameStemIsSafe(original: string, space: char -> bool)
    ensures forall x | x in NameStem(original, space) :: !Forbidden(x)
    ensures 0 < |NameStem(original, space)| <= 120 && !Edge(NameStem(original, space)[0])
  {
    SafeStemIsSafe(original, space);
  }

  /** A derived name is a plain file name: nothing forbidden in it, no dot or dash in front, not long. */
  lemma OriginalNameIsSafe(original: string, space: char -> bool)
    ensures forall x | x in OriginalName(original, space) :: !Forbidden(x)
    ensures OriginalName(original, space) != [] && !Edge(OriginalName(original, space)[0])
    ensures |SUFFIX| < |OriginalName(original, space)| <= 120 + |SUFFIX|
  {
    var stem := NameStem(original, space);
    NameStemIsSafe(original, space);
    forall i | 0 <= i < |stem + SUFFIX|
      ensures !Forbidden((stem + SUFFIX)[i])
    {
      assert (stem + SUFFIX)[i] == if i < |stem| then stem[i] else SUFFIX[i - |stem|];
      assert i < |stem| ==> stem[i] in stem;
    }
  }

  // ---------------------------------------------------------------- ordinary names are kept

  lemma {:induction false} BaseAfterSeparator(dir: string, base: string)
    requires forall c | c in base :: !Separator(c)
    ensures Base(dir + "/" + base) == base
  {
    var all := dir + "/" + base;
    if base != [] {
      assert all[..|all| - 1] == dir + "/" + base[..|base| - 1];
      assert base[|base| - 1] in base;
      BaseAfterSeparator(dir, base[..|base| - 1]);
    }
  }

  lemma {:induction false} LastDotOf(stem: string, extension: string)
    requires '.' !in extension
    ensures BeforeLastDot(stem + "." + extension) == |stem|
  {
    var all := stem + "." + extension;
    if extension != [] {
      assert all[..|all| - 1] == stem + "." + extension[..|extension| - 1];
      assert extension[|extension| - 1] in extension;
      LastDotOf(stem, extension[..|extension| - 1]);
    }
  }

  /** Characters that satisfy p are already c, and no two of them are next to each other. */
  predicate RunsAreSingle(s: string, p: char -> bool, c: char) {
    && (forall i | 0 <= i < |s| && p(s[i]) :: s[i] == c)
    && (forall i | 0 < i < |s| && p(s[i]) :: !p(s[i - 1]))
  }

  lemma {:induction false} NothingToReplace(s: string, p: char -> bool, c: char)
    requires RunsAreSingle(s, p, c)
    ensures ReplaceRuns(s, p, c) == s
  {
    if s != [] {
      NothingToReplace(s[..|s| - 1], p, c);
    }
  }

  /** An ordinary name loses its directory and keeps its stem: "scans/Smith.pdf" gives "Smith-redacted.pdf". */
  lemma OrdinaryNameIsKept(dir: string, stem: string, extension: string, space: char -> bool)
    requires forall c | c in stem :: !Forbidden(c)
    requires stem != [] && |stem| <= 120 && !Edge(stem[0]) && !Edge(stem[|stem| - 1]) && RunsAreSingle(stem, space, ' ')
    requires extension != [] && forall c | c in extension :: c != '.' && !Separator(c)
    ensures OriginalName(dir + "/" + stem + "." + extension, space) == stem + SUFFIX
  {
    var base := stem + "." + extension;
    assert dir + "/" + stem + "." + extension == dir + "/" + base;
    BaseAfterSeparator(dir, base);
    LastDotOf(stem, extension);
    assert Stem(base) == stem;
    NothingToReplace(stem, Forbidden, '-');
    NothingToReplace(stem, space, ' ');
    assert SafeStem(dir + "/" + base, space) == stem;
  }

  // ---------------------------------------------------------------- numbering

  function Digit(n: nat): char
    requires n < 10
  {
    (n + 48) as char
  }

  function Decimal(n: nat): string {
    if n < 10 then [Digit(n)] else Decimal(n / 10) + [Digit(n % 10)]
  }

  lemma {:induction false} DecimalIsDigits(n: nat)
    ensures Decimal(n) != [] && forall c | c in Decimal(n) :: '0' <= c <= '9'
  {
    if n >= 10 {
      DecimalIsDigits(n / 10);
    }
  }

  lemma {:induction false} DecimalIsInjective(m: nat, n: nat)
    requires Decimal(m) == Decimal(n)
    ensures m == n
  {
    LastDigit(m);
    LastDigit(n);
    if m >= 10 && n >= 10 {
      DecimalIsInjective(m / 10, n / 10);
    }
  }

  lemma LastDigit(n: nat)
    ensures |Decimal(n)| > 0 && Decimal(n)[|Decimal(n)| - 1] as int == n % 10 + 48
    ensures n >= 10 ==> Decimal(n)[..|Decimal(n)| - 1] == Decimal(n / 10) && |Decimal(n)| > 1
    ensures n < 10 ==> |Decimal(n)| == 1
  {
    DecimalIsDigits(n / 10);
  }

  /** The name for the count-th file of one original name. */
  function Numbered(name: string, count: nat): string {
    if count == 1 || |name| < 4 || name[|name| - 4..] != ".pdf" then name
    else name[..|name| - 4] + "-" + Decimal(count) + ".pdf"
  }

  predicate EndsAsRedacted(name: string) {
    |name| >= |SUFFIX| && name[|name| - |SUFFIX|..] == SUFFIX
  }

  /** How much follows the last dash. */
  function AfterDash(s: string): nat {
    if s == [] || s[|s| - 1] == '-' then 0 else 1 + AfterDash(s[..|s| - 1])
  }

  lemma {:induction false} AfterLastDash(a: string, x: string)
    requires '-' !in x
    ensures AfterDash(a + "-" + x) == |x|
  {
    var all := a + "-" + x;
    if x != [] {
      assert all[..|all| - 1] == a + "-" + x[..|x| - 1];
      AfterLastDash(a, x[..|x| - 1]);
    }
  }

  lemma SplitAtLastDash(a: string, b: string, x: string, y: string)
    requires a + "-" + x == b + "-" + y && '-' !in x && '-' !in y
    ensures a == b && x == y
  {
    AfterLastDash(a, x);
    AfterLastDash(b, y);
    var all := a + "-" + x;
    assert all[..|a|] == a && all[..|b|] == b;
    assert all[|a| + 1..] == x && all[|b| + 1..] == y;
  }

  lemma NumberedPdf(name: string, count: nat)
    requires EndsAsRedacted(name) && count != 1
    ensures Numbered(name, count) == name[..|name| - 4] + "-" + Decimal(count) + ".pdf"
    ensures name == name[..|name| - 4] + ".pdf"
  {
    assert SUFFIX[|SUFFIX| - 4..] == ".pdf";
    assert name[|name| - 4..] == name[|name| - |SUFFIX|..][|SUFFIX| - 4..];
  }

  /** An unnumbered name has a letter before the extension, a numbered one a digit. */
  lemma NumberedIsNotPlain(m: string, n: string, count: nat)
    requires EndsAsRedacted(m) && EndsAsRedacted(n) && count != 1
    ensures m != Numbered(n, count)
  {
    NumberedPdf(n, count);
    DecimalIsDigits(count);
    var d, numbered := Decimal(count), Numbered(n, count);
    assert m[|m| - 5] == m[|m| - |SUFFIX|..][|SUFFIX| - 5] == 'd';
    assert numbered[|numbered| - 5] == d[|d| - 1] && d[|d| - 1] in d;
  }

  lemma DropExtension(a: string, b: string)
    requires a + ".pdf" == b + ".pdf"
    ensures a == b
  {
    assert (a + ".pdf")[..|a|] == a && (b + ".pdf")[..|b|] == b;
  }

  /** The original name and the count can be read back from the numbered name. */
  lemma NumberedIsInjective(m: string, i: nat, n: string, j: nat)
    requires EndsAsRedacted(m) && EndsAsRedacted(n) && Numbered(m, i) == Numbered(n, j)
    ensures m == n && i == j
  {
    if i == 1 && j != 1 {
      NumberedIsNotPlain(m, n, j);
    } else if i != 1 && j == 1 {
      NumberedIsNotPlain(n, m, i);
    } else if i != 1 && j != 1 {
      NumberedPdf(m, i);
      NumberedPdf(n, j);
      var a, b := m[..|m| - 4], n[..|n| - 4];
      DropExtension(a + "-" + Decimal(i), b + "-" + Decimal(j));
      DecimalIsDigits(i);
      DecimalIsDigits(j);
      SplitAtLastDash(a, b, Decimal(i), Decimal(j));
      DecimalIsInjective(i, j);
    }
  }

  // ---------------------------------------------------------------- a whole batch

  function DerivedNames(labels: seq<string>, space: char -> bool): (r: seq<string>)
    ensures |r| == |labels| && forall i | 0 <= i < |r| :: r[i] == OriginalName(labels[i], space)
  {
    seq(|labels|, i requires 0 <= i < |labels| => OriginalName(labels[i], space))
  }

  function Occurrences(names: seq<string>, name: string): nat {
    if names == [] then 0
    else Occurrences(names[..|names| - 1], name) + if names[|names| - 1] == name then 1 else 0
  }

  /** Name i, numbered when an earlier one is the same. */
  function UniqueName(names: seq<string>, i: nat): string
    requires i < |names|
  {
    Numbered(names[i], Occurrences(names[..i + 1], names[i]))
  }

  lemma {:induction false} OccurrencesGrow(names: seq<string>, name: string, i: nat, j: nat)
    requires i <= j <= |names|
    ensures Occurrences(names[..i], name) <= Occurrences(names[..j], name)
  {
    if i < j {
      assert names[..j][..j - 1] == names[..j - 1];
      OccurrencesGrow(names, name, i, j - 1);
    }
  }

  lemma OccurrenceOfLast(names: seq<string>, j: nat, name: string)
    requires j < |names|
    ensures Occurrences(names[..j + 1], name) == Occurrences(names[..j], name) + if names[j] == name then 1 else 0
  {
    assert names[..j + 1][..j] == names[..j];
  }

  /** No two numbered names are the same. */
  lemma NumberedNamesDiffer(names: seq<string>, i: nat, j: nat)
    requires i < j < |names| && EndsAsRedacted(names[i]) && EndsAsRedacted(names[j])
    ensures UniqueName(names, i) != UniqueName(names, j)
  {
    if UniqueName(names, i) == UniqueName(names, j) {
      NumberedIsInjective(names[i], Occurrences(names[..i + 1], names[i]), names[j],
                          Occurrences(names[..j + 1], names[j]));
      OccurrencesGrow(names, names[j], i + 1, j);
      OccurrenceOfLast(names, j, names[j]);
    }
  }

  lemma OriginalNameEnds(original: string, space: char -> bool)
    ensures EndsAsRedacted(OriginalName(original, space))
  {
    var stem := NameStem(original, space);
    assert (stem + SUFFIX)[|stem|..] == SUFFIX;
  }

  /** No two names of a batch are the same, whatever its labels. */
  lemma NamesDiffer(labels: seq<string>, space: char -> bool, i: nat, j: nat)
    requires i < j < |labels|
    ensures UniqueName(DerivedNames(labels, space), i) != UniqueName(DerivedNames(labels, space), j)
  {
    OriginalNameEnds(labels[i], space);
    OriginalNameEnds(labels[j], space);
    NumberedNamesDiffer(DerivedNames(labels, space), i, j);
  }

  /** The count kept for every name is how often it has come up. */
  ghost predicate Counts(seen: map<string, nat>, names: seq<string>) {
    forall name :: Occurrences(names, name) == if name in seen then seen[name] else 0
  }

  lemma CountOneMore(seen: map<string, nat>, names: seq<string>, name: string)
    requires Counts(seen, names)
    ensures Counts(seen[name := (if name in seen then seen[name] else 0) + 1], names + [name])
  {
    assert (names + [name])[..|names|] == names;
  }

  /** The loop: derives one name after the other and numbers those that come again. */
  method NumberNames(labels: seq<string>, derive: string -> string, ghost derived: seq<string>)
    returns (names: seq<string>)
    requires |derived| == |labels| && forall i | 0 <= i < |labels| :: derived[i] == derive(labels[i])
    ensures |names| == |labels| && forall i | 0 <= i < |labels| :: names[i] == UniqueName(derived, i)
  {
    names := [];
    var seen: map<string, nat> := map[];
    for n := 0 to |labels|
      invariant |names| == n && forall i | 0 <= i < n :: names[i] == UniqueName(derived, i)
      invariant Counts(seen, derived[..n])
    {
      var name := derive(labels[n]);
      assert derived[..n + 1] == derived[..n] + [name];
      CountOneMore(seen, derived[..n], name);
      var count := (if name in seen then seen[name] else 0) + 1;
      seen := seen[name := count];
      names := names + [if count == 1 then name else Numbered(name, count)];
    }
  }

  /** One name for every label: its derived name, numbered where that is taken; and all different. */
  method UniqueNames(labels: seq<string>, space: char -> bool) returns (names: seq<string>)
    ensures |names| == |labels|
    ensures forall i | 0 <= i < |labels| :: names[i] == UniqueName(DerivedNames(labels, space), i)
    ensures forall i, j | 0 <= i < j < |names| :: names[i] != names[j]
  {
    names := NumberNames(labels, l => OriginalName(l, space), DerivedNames(labels, space));
    forall i, j | 0 <= i < j < |names|
      ensures names[i] != names[j]
    {
      NamesDiffer(labels, space, i, j);
    }
  }
}
