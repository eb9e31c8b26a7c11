/** The text grid a page is read as: rows by vertical position, columns by horizontal position. */
module Layout {
  import opened PageText
  import opened Sorting

  const GRID_WIDTH := 120

  // ---------------------------------------------------------------- rows

  function Center(w: Word): real {
    (w.box.y1 + w.box.y2) as real / 2.0
  }

  function Height(w: Word): int {
    w.box.y2 - w.box.y1
  }

  function ByValue(x: int): seq<int> {
    [x]
  }

  /** By centre, then by left edge. */
  function TopDown(w: Word): seq<int> {
    [w.box.y1 + w.box.y2, w.box.x1]
  }

  function LeftToRight(w: Word): seq<int> {
    [w.box.x1]
  }

  /** Six tenths of the median height, and at least four. */
  function Tolerance(words: seq<Word>): real
    requires words != []
  {
    SortByIsSorted(Map(words, Height), ByValue);
    var heights := SortBy(Map(words, Height), ByValue);
    var scaled := heights[|heights| / 2] as real * 0.6;
    if scaled > 4.0 then scaled else 4.0
  }

  function CenterSum(row: seq<Word>): real {
    if row == [] then 0.0 else CenterSum(row[..|row| - 1]) + Center(row[|row| - 1])
  }

  function Mean(row: seq<Word>): real
    requires row != []
  {
    CenterSum(row) / |row| as real
  }

  predicate Near(a: real, b: real, tolerance: real) {
    -tolerance <= a - b <= tolerance
  }

  /** The rows so far, each with its running centre. */
  datatype Rows = Rows(rows: seq<seq<Word>>, centers: seq<real>)

  /** The running centre after a word with centre `c` has become the `count`-th of its row. */
  function Shifted(mean: real, c: real, count: nat): real
    requires count > 0
  {
    mean * (count - 1) as real / count as real + c / count as real
  }

  function PlaceWord(r: Rows, w: Word, tolerance: real): Rows
    requires |r.rows| == |r.centers|
  {
    var n := |r.rows| - 1;
    if n >= 0 && Near(Center(w), r.centers[n], tolerance) then
      var row := r.rows[n] + [w];
      Rows(r.rows[n := row], r.centers[n := Shifted(r.centers[n], Center(w), |row|)])
    else Rows(r.rows + [[w]], r.centers + [Center(w)])
  }

  function RowsOf(sorted: seq<Word>, tolerance: real): (r: Rows)
    ensures |r.rows| == |r.centers|
  {
    if sorted == [] then Rows([], [])
    else PlaceWord(RowsOf(sorted[..|sorted| - 1], tolerance), sorted[|sorted| - 1], tolerance)
  }

  /** Each word of a row lies within the tolerance of the mean of those before it. */
  ghost predicate Compact(row: seq<Word>, tolerance: real) {
    row != [] && forall k | 0 < k < |row| :: Near(Center(row[k]), Mean(row[..k]), tolerance)
  }

  ghost predicate Falling(words: seq<Word>) {
    forall i, j | 0 <= i <= j < |words| :: Center(words[i]) <= Center(words[j])
  }

  ghost predicate RowFits(row: seq<Word>, center: real, tolerance: real) {
    Compact(row, tolerance) && center == Mean(row)
  }

  /** The row could not continue the one above, whose centre is `above`. */
  ghost predicate StartsAnew(row: seq<Word>, above: real, tolerance: real) {
    row != [] && !Near(Center(row[0]), above, tolerance)
  }

  /**
   The rows cut the sorted words without reordering them; each centre is the mean of its row; a word
   is in a row exactly because it was near it, and the next row starts with one that was not.
   */
  ghost predicate Faithful(r: Rows, sorted: seq<Word>, tolerance: real) {
    && |r.rows| == |r.centers| && Flatten(r.rows) == sorted
    && (forall i | 0 <= i < |r.rows| :: RowFits(r.rows[i], r.centers[i], tolerance))
    && (forall i | 0 < i < |r.rows| :: StartsAnew(r.rows[i], r.centers[i - 1], tolerance))
  }

  lemma MeanShifts(row: seq<Word>, w: Word)
    requires row != []
    ensures Mean(row + [w]) == Shifted(Mean(row), Center(w), |row| + 1)
  {
    assert (row + [w])[..|row|] == row;
    var s, n, c := CenterSum(row), |row| as real, Center(w);
    assert (s / n) * n == s;
    assert s / (n + 1.0) + c / (n + 1.0) == (s + c) / (n + 1.0);
  }

  lemma MeanOfOne(w: Word)
    ensures Mean([w]) == Center(w)
  {
    assert [w][..0] == [];
    assert CenterSum([w]) == 0.0 + Center(w);
  }

  lemma LongerRowFits(row: seq<Word>, w: Word, center: real, tolerance: real)
    requires RowFits(row, center, tolerance) && Near(Center(w), center, tolerance)
    ensures RowFits(row + [w], Shifted(center, Center(w), |row| + 1), tolerance)
  {
    MeanShifts(row, w);
    forall k | 0 < k < |row| + 1
      ensures Near(Center((row + [w])[k]), Mean((row + [w])[..k]), tolerance)
    {
      assert (row + [w])[..k] == if k < |row| then row[..k] else row;
    }
  }

  lemma JoiningIsFaithful(r: Rows, sorted: seq<Word>, w: Word, center: real, tolerance: real)
    requires Faithful(r, sorted, tolerance) && r.rows != []
    requires RowFits(r.rows[|r.rows| - 1] + [w], center, tolerance)
    ensures var n := |r.rows| - 1;
            Faithful(Rows(r.rows[n := r.rows[n] + [w]], r.centers[n := center]), sorted + [w], tolerance)
  {
    var n := |r.rows| - 1;
    FlattenReplaceLast(r.rows, w);
    assert n > 0 ==> StartsAnew(r.rows[n], r.centers[n - 1], tolerance);
    assert n > 0 ==> StartsAnew(r.rows[n] + [w], r.centers[n - 1], tolerance);
  }

  lemma OneWordFits(w: Word, tolerance: real)
    ensures RowFits([w], Center(w), tolerance)
  {
    MeanOfOne(w);
  }

  lemma OpeningIsFaithful(r: Rows, sorted: seq<Word>, w: Word, tolerance: real)
    requires Faithful(r, sorted, tolerance)
    requires r.rows != [] ==> !Near(Center(w), r.centers[|r.rows| - 1], tolerance)
    ensures Faithful(Rows(r.rows + [[w]], r.centers + [Center(w)]), sorted + [w], tolerance)
  {
    hide RowFits;
    var n, rows, centers := |r.rows|, r.rows + [[w]], r.centers + [Center(w)];
    assert rows[..n] == r.rows;
    OneWordFits(w, tolerance);
    forall i | 0 <= i < |rows|
      ensures RowFits(rows[i], centers[i], tolerance)
    {
      assert i < n ==> rows[i] == r.rows[i] && centers[i] == r.centers[i];
    }
    forall i | 0 < i < |rows|
      ensures StartsAnew(rows[i], centers[i - 1], tolerance)
    {
      assert centers[i - 1] == r.centers[i - 1];
      assert i < n ==> rows[i] == r.rows[i];
    }
  }

  lemma {:induction false} RowsAreFaithful(sorted: seq<Word>, tolerance: real)
    ensures Faithful(RowsOf(sorted, tolerance), sorted, tolerance)
  {
    if sorted != [] {
      var rest, last := sorted[..|sorted| - 1], sorted[|sorted| - 1];
      RowsAreFaithful(rest, tolerance);
      PlacingIsFaithful(RowsOf(rest, tolerance), rest, last, tolerance);
      assert rest + [last] == sorted;
    }
  }

  lemma PlacingIsFaithful(r: Rows, sorted: seq<Word>, w: Word, tolerance: real)
    requires Faithful(r, sorted, tolerance)
    ensures Faithful(PlaceWord(r, w, tolerance), sorted + [w], tolerance)
  {
    var n := |r.rows| - 1;
    if n >= 0 && Near(Center(w), r.centers[n], tolerance) {
      LongerRowFits(r.rows[n], w, r.centers[n], tolerance);
      JoiningIsFaithful(r, sorted, w, Shifted(r.centers[n], Center(w), |r.rows[n]| + 1), tolerance);
    } else {
      OpeningIsFaithful(r, sorted, w, tolerance);
    }
  }

  // ---------------------------------------------------------------- rows are apart

  lemma {:induction false} CenterSumBetween(row: seq<Word>, low: real, high: real)
    requires forall i | 0 <= i < |row| :: low <= Center(row[i]) <= high
    ensures low * |row| as real <= CenterSum(row) <= high * |row| as real
  {
    if row != [] {
      CenterSumBetween(row[..|row| - 1], low, high);
    }
  }

  lemma MeanBetween(row: seq<Word>, low: real, high: real)
    requires row != [] && forall i | 0 <= i < |row| :: low <= Center(row[i]) <= high
    ensures low <= Mean(row) <= high
  {
    CenterSumBetween(row, low, high);
    QuotientBetween(CenterSum(row), |row| as real, low, high);
  }

  lemma QuotientBetween(s: real, n: real, low: real, high: real)
    requires n > 0.0 && low * n <= s <= high * n
    ensures low <= s / n <= high
  {
    var q := s / n;
    assert q * n == s;
    Scale(q, low, n);
    Scale(high, q, n);
  }

  lemma Scale(x: real, y: real, n: real)
    requires n > 0.0
    ensures x < y ==> x * n < y * n
  {
  }

  lemma WordsFall(rows: seq<seq<Word>>, sorted: seq<Word>, i: nat, k: nat, j: nat, m: nat)
    requires Flatten(rows) == sorted && Falling(sorted)
    requires i < j < |rows| || (i == j < |rows| && k <= m)
    requires k < |rows[i]| && m < |rows[j]|
    ensures Center(rows[i][k]) <= Center(rows[j][m])
  {
    FlattenAt(rows, i, k);
    FlattenAt(rows, j, m);
    if i < j {
      assert rows[..j][..i + 1] == rows[..i + 1];
      FlattenPrefix(rows[..j], i + 1);
      FlattenNext(rows, i);
      assert rows[..j][..i + 1] == rows[..i + 1];
    }
  }

  /** Successive rows, read from top to bottom, have centres more than the tolerance apart. */
  lemma RowsAreApart(r: Rows, sorted: seq<Word>, tolerance: real, i: nat)
    requires Faithful(r, sorted, tolerance) && Falling(sorted) && tolerance > 0.0 && 0 < i < |r.rows|
    ensures r.centers[i] - r.centers[i - 1] > tolerance
  {
    var above, row := r.rows[i - 1], r.rows[i];
    assert StartsAnew(row, r.centers[i - 1], tolerance) && RowFits(above, r.centers[i - 1], tolerance);
    assert RowFits(row, r.centers[i], tolerance);
    var first := Center(row[0]);
    forall k | 0 <= k < |above|
      ensures Center(above[0]) <= Center(above[k]) <= first
    {
      WordsFall(r.rows, sorted, i - 1, 0, i - 1, k);
      WordsFall(r.rows, sorted, i - 1, k, i, 0);
    }
    MeanBetween(above, Center(above[0]), first);
    forall k | 0 <= k < |row|
      ensures first <= Center(row[k]) <= Center(row[|row| - 1])
    {
      WordsFall(r.rows, sorted, i, 0, i, k);
      WordsFall(r.rows, sorted, i, k, i, |row| - 1);
    }
    MeanBetween(row, first, Center(row[|row| - 1]));
  }

  lemma TopDownIsFalling(words: seq<Word>)
    ensures Falling(SortBy(words, TopDown))
  {
    SortByIsSorted(words, TopDown);
    var o := SortBy(words, TopDown);
    forall i, j | 0 <= i <= j < |o|
      ensures Center(o[i]) <= Center(o[j])
    {
      assert LexLeq(TopDown(o[i]), TopDown(o[j]));
    }
  }

  /** The rows of a page: no two neighbours are close enough to have been one. */
  lemma PageRowsAreApart(words: seq<Word>, i: nat)
    requires words != []
    ensures var r := RowsOf(SortBy(words, TopDown), Tolerance(words));
            0 < i < |r.rows| == |r.centers| ==> r.centers[i] - r.centers[i - 1] > Tolerance(words)
  {
    var sorted, tolerance := SortBy(words, TopDown), Tolerance(words);
    TopDownIsFalling(words);
    RowsAreFaithful(sorted, tolerance);
    if 0 < i < |RowsOf(sorted, tolerance).rows| {
      RowsAreApart(RowsOf(sorted, tolerance), sorted, tolerance, i);
    }
  }
}
