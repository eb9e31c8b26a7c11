/** Painting the pages, turning them, and checking the file they were saved in. */
module Rendering {
  import opened Domain
  import opened Geometry
  import opened PageText
  import opened Wrappers

  datatype CheckError =
    | DocumentEmpty
    | DegenerateBox
    | NotPdf
    | ActiveContent
    | ValidationFailed
    | PageCountMismatch
    | TextLayer
    | EmptyBox
    | NotOpaque

  // ---------------------------------------------------------------- painting

  /** Pixel (x, y) is under the padded rectangle of one of the boxes. */
  ghost predicate UnderSome(boxes: seq<Box>, width: nat, height: nat, x: int, y: int) {
    exists k :: 0 <= k < |boxes| && Painted(boxes[k], width, height, x, y)
  }

  /** A copy of the page that is black under every box and as before elsewhere; true is a black pixel. */
  method RedactImage(image: array2<bool>, boxes: seq<Box>) returns (redacted: array2<bool>)
    ensures fresh(redacted) && redacted.Length0 == image.Length0 && redacted.Length1 == image.Length1
    ensures forall x, y | 0 <= x < image.Length0 && 0 <= y < image.Length1 ::
              redacted[x, y] <==> image[x, y] || UnderSome(boxes, image.Length0, image.Length1, x, y)
  {
    var width, height := image.Length0, image.Length1;
    redacted := new bool[width, height];
    forall x, y | 0 <= x < width && 0 <= y < height {
      redacted[x, y] := image[x, y];
    }
    for n := 0 to |boxes|
      invariant forall x, y | 0 <= x < width && 0 <= y < height ::
                  redacted[x, y] <==> image[x, y] || UnderSome(boxes[..n], width, height, x, y)
    {
      label Before:
      forall x, y | 0 <= x < width && 0 <= y < height && Painted(boxes[n], width, height, x, y) {
        redacted[x, y] := true;
      }
      forall x, y
        ensures UnderSome(boxes[..n + 1], width, height, x, y) <==>
                UnderSome(boxes[..n], width, height, x, y) || Painted(boxes[n], width, height, x, y)
      {
        OneMoreBox(boxes, n, width, height, x, y);
      }
    }
    assert boxes[..|boxes|] == boxes;
  }

  lemma OneMoreBox(boxes: seq<Box>, n: nat, width: nat, height: nat, x: int, y: int)
    requires n < |boxes|
    ensures UnderSome(boxes[..n + 1], width, height, x, y) <==>
            UnderSome(boxes[..n], width, height, x, y) || Painted(boxes[n], width, height, x, y)
  {
    if UnderSome(boxes[..n], width, height, x, y) {
      var k :| 0 <= k < n && Painted(boxes[..n][k], width, height, x, y);
      assert boxes[..n + 1][k] == boxes[k];
    }
    if Painted(boxes[n], width, height, x, y) {
      assert boxes[..n + 1][n] == boxes[n];
    }
  }

  /** The page turned clockwise. */
  method Turn(image: array2<bool>, r: Rotation) returns (turned: array2<bool>)
    ensures fresh(turned)
    ensures turned.Length0 == TurnedWidth(image.Length0, image.Length1, r)
    ensures turned.Length1 == TurnedHeight(image.Length0, image.Length1, r)
    ensures forall x, y | 0 <= x < turned.Length0 && 0 <= y < turned.Length1 ::
              turned[x, y] == image[UnturnX(x, y, image.Length0, r), UnturnY(x, y, image.Length1, r)]
  {
    var width, height := image.Length0, image.Length1;
    turned := new bool[TurnedWidth(width, height, r), TurnedHeight(width, height, r)];
    forall x, y | 0 <= x < turned.Length0 && 0 <= y < turned.Length1 {
      turned[x, y] := image[UnturnX(x, y, width, r), UnturnY(x, y, height, r)];
    }
  }

  ghost predicate AllBlack(image: array2<bool>, b: Box)
    reads image
  {
    forall x, y | 0 <= x < image.Length0 && 0 <= y < image.Length1 && Cropped(b, image.Length0, image.Length1, x, y) ::
      image[x, y]
  }

  lemma CropIsUnderPaint(boxes: seq<Box>, r: Rotation, width: nat, height: nat, k: nat, x: int, y: int)
    requires k < |boxes| && boxes[k].Valid()
    requires Cropped(RotateBox(boxes[k], r), TurnedWidth(width, height, r), TurnedHeight(width, height, r), x, y)
    ensures UnderSome(boxes, width, height, UnturnX(x, y, width, r), UnturnY(x, y, height, r))
  {
    CheckLooksAtPaint(boxes[k], r, width, height, x, y);
  }

  /** The page that comes out is the one that went in, black under the boxes and then turned. */
  ghost predicate IsRendering(page: array2<bool>, image: array2<bool>, boxes: seq<Box>, r: Rotation)
    reads page, image
  {
    && page.Length0 == TurnedWidth(image.Length0, image.Length1, r)
    && page.Length1 == TurnedHeight(image.Length0, image.Length1, r)
    && forall x, y | 0 <= x < page.Length0 && 0 <= y < page.Length1 ::
         var i, j := UnturnX(x, y, image.Length0, r), UnturnY(x, y, image.Length1, r);
         page[x, y] <==> image[i, j] || UnderSome(boxes, image.Length0, image.Length1, i, j)
  }

  method RenderPage(image: array2<bool>, boxes: seq<Box>, r: Rotation) returns (page: array2<bool>)
    ensures fresh(page) && IsRendering(page, image, boxes, r)
  {
    page := RedactImage(image, boxes);
    if r != 0 {
      page := Turn(page, r);
    }
  }

  /** Whatever was on the page, the turned boxes are black on the turned page. */
  lemma RenderedBoxesAreBlack(page: array2<bool>, image: array2<bool>, boxes: seq<Box>, r: Rotation, k: nat)
    requires IsRendering(page, image, boxes, r) && k < |boxes| && boxes[k].Valid()
    ensures AllBlack(page, RotateBox(boxes[k], r))
  {
    forall x, y | 0 <= x < page.Length0 && 0 <= y < page.Length1
                  && Cropped(RotateBox(boxes[k], r), page.Length0, page.Length1, x, y)
      ensures page[x, y]
    {
      CropIsUnderPaint(boxes, r, image.Length0, image.Length1, k, x, y);
    }
  }

  datatype Page = Page(index: nat, image: array2<bool>)

  /** The boxes of one page, in their order. */
  function BoxesOn(detections: seq<Detection>, index: nat): (r: seq<Box>)
    ensures forall b :: b in r <==> exists k ::
              0 <= k < |detections| && detections[k].page == index && detections[k].box == b
  {
    if detections == [] then []
    else
      var last := detections[|detections| - 1];
      BoxesOn(detections[..|detections| - 1], index) + if last.page == index then [last.box] else []
  }

  /** Every page painted with its own boxes and turned; no pages at all is an error. */
  method RenderPages(pages: seq<Page>, detections: seq<Detection>, r: Rotation)
    returns (redacted: Result<seq<array2<bool>>, CheckError>)
    ensures redacted.Err? <==> pages == []
    ensures redacted.Err? ==> redacted.error == DocumentEmpty
    ensures redacted.Ok? ==> |redacted.value| == |pages|
    ensures redacted.Ok? ==> forall n | 0 <= n < |pages| ::
              IsRendering(redacted.value[n], pages[n].image, BoxesOn(detections, pages[n].index), r)
  {
    var done: seq<array2<bool>> := [];
    for n := 0 to |pages|
      invariant |done| == n
      invariant forall m | 0 <= m < n :: IsRendering(done[m], pages[m].image, BoxesOn(detections, pages[m].index), r)
    {
      var page := RenderPage(pages[n].image, BoxesOn(detections, pages[n].index), r);
      done := done + [page];
    }
    return if pages == [] then Err(DocumentEmpty) else Ok(done);
  }

  // ---------------------------------------------------------------- the check of the saved file

  /** A page of the file as the check renders it: the brightest channel of every pixel. */
  datatype Raster = Raster(width: nat, height: nat, shade: (int, int) -> nat)

  /**
   What the check sees of the file: its first bytes, its forbidden markers, its pages when the
   renderer can open it, and whether there is text on one when the text reader can.
   */
  datatype Output = Output(header: bool, active: bool, pages: Option<seq<Raster>>, text: Option<bool>)

  /** A crop shrunk to eight by eight samples. */
  type Resize = (Raster, Box) -> seq<nat>

  const DARK := 24

  function DarkOnes(samples: seq<nat>): nat {
    if samples == [] then 0
    else DarkOnes(samples[..|samples| - 1]) + if samples[|samples| - 1] < DARK then 1 else 0
  }

  /** At least 96 in 100 samples are dark. */
  predicate Opaque(samples: seq<nat>) {
    DarkOnes(samples) * 100 >= 96 * |samples|
  }

  /** What the check of the page finds wrong with one box. */
  function Complaint(image: Raster, b: Box, r: Rotation, resize: Resize): Option<CheckError> {
    var turned := RotateBox(b, r);
    if EmptyCrop(turned, image.width, image.height) then Some(EmptyBox)
    else if !Opaque(resize(image, PixelBox(turned, image.width, image.height, 0))) then Some(NotOpaque)
    else None
  }

  ghost predicate HasDegenerate(detections: seq<Detection>) {
    exists k :: 0 <= k < |detections| && Degenerate(detections[k].box)
  }

  /** A file of so many pages, nothing but pictures. */
  predicate Flat(file: Output, expected: nat) {
    file.header && !file.active && file.pages.Some? && |file.pages.value| == expected && file.text == Some(false)
  }

  /** What is wrong with a file that is not flat. */
  predicate IsFault(file: Output, expected: nat, e: CheckError) {
    match e
    case NotPdf => !file.header
    case ActiveContent => file.header && file.active
    case PageCountMismatch => file.header && !file.active && file.pages.Some? && |file.pages.value| != expected
    case ValidationFailed =>
      file.header && !file.active
      && (file.pages.None? || (|file.pages.value| == expected && file.text.None?))
    case TextLayer =>
      file.header && !file.active && file.pages.Some? && |file.pages.value| == expected && file.text == Some(true)
    case _ => false
  }

  /** Detection k is on page p, and all detections before it, page by page, passed. */
  ghost predicate PassedBefore(pages: seq<Raster>, detections: seq<Detection>, r: Rotation, resize: Resize,
                               p: nat, k: nat)
  {
    forall q, j | 0 <= q < |pages| && 0 <= j < |detections| && detections[j].page == q
                  && (q < p || (q == p && j < k)) ::
      Complaint(pages[q], detections[j].box, r, resize) == None
  }

  ghost predicate FirstComplaint(pages: seq<Raster>, detections: seq<Detection>, r: Rotation, resize: Resize,
                                 p: nat, k: nat, e: CheckError) {
    && p < |pages| && k < |detections| && detections[k].page == p
    && Complaint(pages[p], detections[k].box, r, resize) == Some(e)
    && PassedBefore(pages, detections, r, resize, p, k)
  }

  /** Every box is thick enough, the file is flat, and every box on its pages shows and is opaque. */
  ghost predicate Accepted(file: Output, expected: nat, detections: seq<Detection>, r: Rotation, resize: Resize) {
    && !HasDegenerate(detections) && Flat(file, expected)
    && PassedBefore(file.pages.value, detections, r, resize, expected, 0)
  }

  /** The faults of the file itself, in the order in which they are looked for. */
  method CheckFile(file: Output, expected: nat) returns (complaint: Option<CheckError>)
    ensures complaint == None <==> Flat(file, expected)
    ensures complaint.Some? ==> IsFault(file, expected, complaint.value)
  {
    if !file.header {
      return Some(NotPdf);
    }
    if file.active {
      return Some(ActiveContent);
    }
    if file.pages.None? {
      return Some(ValidationFailed);
    }
    if |file.pages.value| != expected {
      return Some(PageCountMismatch);
    }
    if file.text.None? {
      return Some(ValidationFailed);
    }
    return if file.text.value then Some(TextLayer) else None;
  }

  /** The check of every box against the page it is on. */
  method CheckPixels(pages: seq<Raster>, detections: seq<Detection>, r: Rotation, resize: Resize)
    returns (complaint: Option<CheckError>, ghost p: nat, ghost k: nat)
    ensures complaint == None ==> PassedBefore(pages, detections, r, resize, |pages|, 0)
    ensures complaint.Some? ==> FirstComplaint(pages, detections, r, resize, p, k, complaint.value)
  {
    for index := 0 to |pages|
      invariant PassedBefore(pages, detections, r, resize, index, 0)
    {
      for n := 0 to |detections|
        invariant PassedBefore(pages, detections, r, resize, index, n)
      {
        if detections[n].page == index {
          var one := Complaint(pages[index], detections[n].box, r, resize);
          if one.Some? {
            return one, index, n;
          }
        }
      }
    }
    return None, 0, 0;
  }

  /**
   The whole check: a degenerate box comes first, then the file, then the first box in page order
   that does not show or is not opaque; and a file is accepted exactly when there is none of these.
   */
  method Validate(file: Output, expected: nat, detections: seq<Detection>, r: Rotation, resize: Resize)
    returns (complaint: Option<CheckError>)
    ensures complaint == None <==> Accepted(file, expected, detections, r, resize)
    ensures complaint == Some(DegenerateBox) <==> HasDegenerate(detections)
    ensures complaint.Some? && complaint != Some(DegenerateBox) && !Flat(file, expected) ==>
              IsFault(file, expected, complaint.value)
    ensures complaint.Some? && complaint != Some(DegenerateBox) && Flat(file, expected) ==>
              exists p, k :: FirstComplaint(file.pages.value, detections, r, resize, p, k, complaint.value)
  {
    for n := 0 to |detections|
      invariant forall k | 0 <= k < n :: !Degenerate(detections[k].box)
    {
      if Degenerate(detections[n].box) {
        return Some(DegenerateBox);
      }
    }
    complaint := CheckFile(file, expected);
    if complaint.None? {
      ghost var p, k;
      complaint, p, k := CheckPixels(file.pages.value, detections, r, resize);
    }
  }

  // ---------------------------------------------------------------- what is painted passes

  /** Every point of pixel (i, j) of the turned page comes from the padded rectangle of the box. */
  ghost predicate UnderPaint(b: Box, r: Rotation, width: nat, height: nat, image: Raster, i: int, j: int) {
    forall u, v | 0.0 <= u <= 1.0 && 0.0 <= v <= 1.0
                  && Spans(i, i + 1, image.width, u) && Spans(j, j + 1, image.height, v) ::
      InArea(PixelBox(b, width, height, PADDING), width, height, UnrotatePoint(u, v, r))
  }

  /** The page of the file shows what was painted on a page of this size: under one box it is dark. */
  ghost predicate Shows(image: Raster, boxes: seq<Box>, r: Rotation, width: nat, height: nat) {
    forall b, i, j | b in boxes && UnderPaint(b, r, width, height, image, i, j) :: image.shade(i, j) < DARK
  }

  /** Shrinking a dark crop gives dark samples. */
  ghost predicate KeepsDark(resize: Resize) {
    forall image: Raster, c: Box | forall x, y | c.x1 <= x < c.x2 && c.y1 <= y < c.y2 :: image.shade(x, y) < DARK ::
      forall n | 0 <= n < |resize(image, c)| :: resize(image, c)[n] < DARK
  }

  /** More than 500 pixels across, and at least a fifth as fine as the page that was painted. */
  predicate FineEnough(image: Raster, r: Rotation, width: nat, height: nat) {
    && image.width > 500 && image.height > 500
    && TurnedWidth(width, height, r) <= 5 * image.width && TurnedHeight(width, height, r) <= 5 * image.height
  }

  lemma {:induction false} AllDarkIsOpaque(samples: seq<nat>)
    requires forall i | 0 <= i < |samples| :: samples[i] < DARK
    ensures DarkOnes(samples) == |samples| && Opaque(samples)
  {
    if samples != [] {
      AllDarkIsOpaque(samples[..|samples| - 1]);
    }
  }

  lemma CropIsPainted(b: Box, r: Rotation, width: nat, height: nat, image: Raster, i: int, j: int)
    requires b.Valid() && FineEnough(image, r, width, height)
    requires Cropped(RotateBox(b, r), image.width, image.height, i, j)
    ensures UnderPaint(b, r, width, height, image, i, j)
  {
    forall u, v | 0.0 <= u <= 1.0 && 0.0 <= v <= 1.0
                  && Spans(i, i + 1, image.width, u) && Spans(j, j + 1, image.height, v)
      ensures InArea(PixelBox(b, width, height, PADDING), width, height, UnrotatePoint(u, v, r))
    {
      CheckOnAnotherRaster(b, r, width, height, image.width, image.height, u, v);
    }
  }

  lemma PaintedBoxPasses(image: Raster, boxes: seq<Box>, b: Box, r: Rotation, width: nat, height: nat, resize: Resize)
    requires b in boxes && b.Valid() && !Degenerate(b) && KeepsDark(resize)
    requires FineEnough(image, r, width, height) && Shows(image, boxes, r, width, height)
    ensures Complaint(image, b, r, resize) == None
  {
    NoCropIsEmpty(b, r, image.width, image.height);
    var c := PixelBox(RotateBox(b, r), image.width, image.height, 0);
    forall x, y | c.x1 <= x < c.x2 && c.y1 <= y < c.y2
      ensures image.shade(x, y) < DARK
    {
      CropIsPainted(b, r, width, height, image, x, y);
    }
    AllDarkIsOpaque(resize(image, c));
  }

  /** The pages of the file show the painted pages, whose sizes these were, finely enough. */
  ghost predicate ShowsAll(pages: seq<Raster>, sizes: seq<(nat, nat)>, detections: seq<Detection>, r: Rotation) {
    && |pages| == |sizes|
    && forall p | 0 <= p < |sizes| ::
         && FineEnough(pages[p], r, sizes[p].0, sizes[p].1)
         && Shows(pages[p], BoxesOn(detections, p), r, sizes[p].0, sizes[p].1)
  }

  lemma PaintedDetectionPasses(pages: seq<Raster>, sizes: seq<(nat, nat)>, detections: seq<Detection>, r: Rotation,
                               resize: Resize, p: nat, k: nat)
    requires ShowsAll(pages, sizes, detections, r) && KeepsDark(resize)
    requires p < |pages| && k < |detections| && detections[k].page == p
    requires detections[k].box.Valid() && !Degenerate(detections[k].box)
    ensures Complaint(pages[p], detections[k].box, r, resize) == None
  {
    var boxes := BoxesOn(detections, p);
    assert detections[k].box in boxes;
    PaintedBoxPasses(pages[p], boxes, detections[k].box, r, sizes[p].0, sizes[p].1, resize);
  }

  /**
   The check never rejects what was painted: valid boxes that are not degenerate pass it in any flat
   file whose pages show the painted pages, at whatever resolution, whichever way they were turned.
   */
  lemma PaintedFileIsAccepted(file: Output, sizes: seq<(nat, nat)>, detections: seq<Detection>, r: Rotation,
                              resize: Resize)
    requires Flat(file, |sizes|) && ShowsAll(file.pages.value, sizes, detections, r) && KeepsDark(resize)
    requires !HasDegenerate(detections) && forall k | 0 <= k < |detections| :: detections[k].box.Valid()
    ensures Accepted(file, |sizes|, detections, r, resize)
  {
    var pages := file.pages.value;
    forall p, k | 0 <= p < |pages| && 0 <= k < |detections| && detections[k].page == p
      ensures Complaint(pages[p], detections[k].box, r, resize) == None
    {
      PaintedDetectionPasses(pages, sizes, detections, r, resize, p, k);
    }
  }

  /** On a page of exactly 500 pixels a box as thin as allowed is painted and still refused. */
  lemma PaintedBoxMayBeRefused(image: Raster, resize: Resize)
    requires image.width == 500
    ensures var b := Box(3, 0, 5, 1000);
            b.Valid() && !Degenerate(b) && Complaint(image, b, 0, resize) == Some(EmptyBox)
  {
    ThinBoxVanishes();
  }
}
