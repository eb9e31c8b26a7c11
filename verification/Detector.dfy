/** Detection over a document: what the model named on each page, anchored, propagated and merged. */
module Detector {
  import opened Wrappers
  import opened PageText
  import opened Anchoring
  import opened ValueAnchoring
  import opened SsnNet
  import opened Merging
  import opened Grid
  import opened Layout
  import Domain

  datatype Item = Item(text: string, category: Domain.Category)

  datatype DetectorError = Unavailable | ModelError | DetectionUnanchored

  /**
   What detection calls: text comparison, the model's parsed answer for a page image, an attempt and a
   grid, and OCR of an image.
   */
  datatype Tools = Tools(
    al: Alphabet,
    ratio: Ratio,
    complete: (nat, nat, string) -> Result<seq<Item>, DetectorError>,
    ocr: nat -> seq<Word>)

  const PROPAGATED: set<Domain.Category> := {Domain.PersonName, Domain.Ssn, Domain.StreetAddress}
  const TIN: set<Domain.Category> := {Domain.Ssn, Domain.Itin}

  // ---------------------------------------------------------------- one page

  /** What detection leaves of a page: its words, the items named on it, and what became of them. */
  datatype Outcome = Outcome(index: nat, words: seq<Word>, items: seq<Item>, detections: seq<Detection>,
                             unanchored: seq<Item>)

  ghost function BoxesOf(tools: Tools, item: Item, words: seq<Word>): seq<Domain.Box> {
    AnchorBoxes(tools.al, tools.ratio, item.text, words)
  }

  function Detections(page: nat, category: Domain.Category, boxes: seq<Domain.Box>, confidence: real)
    : (r: seq<Detection>)
    ensures |r| == |boxes| && forall i | 0 <= i < |r| :: r[i] == Detection(page, category, boxes[i], confidence)
  {
    seq(|boxes|, i requires 0 <= i < |boxes| => Detection(page, category, boxes[i], confidence))
  }

  /** The detections of the items, each box once per item that has it. */
  ghost function Named(tools: Tools, page: nat, items: seq<Item>, words: seq<Word>, confidence: real): seq<Detection> {
    if items == [] then []
    else
      var item := items[|items| - 1];
      Named(tools, page, items[..|items| - 1], words, confidence)
      + Detections(page, item.category, BoxesOf(tools, item, words), confidence)
  }

  ghost function Unanchored(tools: Tools, items: seq<Item>, words: seq<Word>): seq<Item> {
    if items == [] then []
    else
      var item := items[|items| - 1];
      Unanchored(tools, items[..|items| - 1], words) + if BoxesOf(tools, item, words) == [] then [item] else []
  }

  lemma NextItem(tools: Tools, page: nat, items: seq<Item>, words: seq<Word>, n: nat, confidence: real)
    requires n < |items|
    ensures Named(tools, page, items[..n + 1], words, confidence)
            == Named(tools, page, items[..n], words, confidence)
               + Detections(page, items[n].category, BoxesOf(tools, items[n], words), confidence)
    ensures Unanchored(tools, items[..n + 1], words)
            == Unanchored(tools, items[..n], words) + if BoxesOf(tools, items[n], words) == [] then [items[n]] else []
  {
    assert items[..n + 1][..n] == items[..n];
  }

  predicate PdfOnly(words: seq<Word>) {
    forall w | w in words :: w.source == Pdf
  }

  ghost function Read(tools: Tools, index: nat, words: seq<Word>, items: seq<Item>): Outcome {
    Outcome(index, words, items, Named(tools, index, items, words, 0.9), Unanchored(tools, items, words))
  }

  /** Fewer than half of the items of a page of embedded text were found on it. */
  ghost predicate Doubtful(tools: Tools, words: seq<Word>, items: seq<Item>) {
    items != [] && (|items| - |Unanchored(tools, items, words)|) * 2 < |items| && PdfOnly(words)
  }

  /** The page as it was first read, or read again from its image when that was doubtful. */
  ghost function PageOutcome(tools: Tools, index: nat, image: nat, words: seq<Word>): Result<Outcome, DetectorError> {
    if words == [] then Ok(Outcome(index, [], [], [], []))
    else match tools.complete(image, 0, GridOf(words, GRID_WIDTH))
      case Err(error) => Err(error)
      case Ok(items) =>
        if Doubtful(tools, words, items) then
          (match tools.complete(image, 1, GridOf(tools.ocr(image), GRID_WIDTH))
           case Err(error) => Err(error)
           case Ok(again) => Ok(Read(tools, index, tools.ocr(image), again)))
        else Ok(Read(tools, index, words, items))
  }

  lemma FirstReading(tools: Tools, index: nat, image: nat, words: seq<Word>)
    requires words != []
    ensures var first := tools.complete(image, 0, GridOf(words, GRID_WIDTH));
            && (first.Err? ==> PageOutcome(tools, index, image, words) == Err(first.error))
            && (first.Ok? && !Doubtful(tools, words, first.value) ==>
                  PageOutcome(tools, index, image, words) == Ok(Read(tools, index, words, first.value)))
  {
  }

  lemma SecondReading(tools: Tools, index: nat, image: nat, words: seq<Word>, items: seq<Item>)
    requires words != [] && tools.complete(image, 0, GridOf(words, GRID_WIDTH)) == Ok(items)
    requires Doubtful(tools, words, items)
    ensures var second := tools.complete(image, 1, GridOf(tools.ocr(image), GRID_WIDTH));
            PageOutcome(tools, index, image, words)
            == if second.Err? then Err(second.error) else Ok(Read(tools, index, tools.ocr(image), second.value))
  {
  }

  /** What detection of a page leaves: its items are those named for the words it ends with. */
  ghost predicate IsReading(tools: Tools, o: Outcome) {
    o == Read(tools, o.index, o.words, o.items)
  }

  lemma OutcomesAreReadings(tools: Tools, index: nat, image: nat, words: seq<Word>)
    ensures var r := PageOutcome(tools, index, image, words);
            r.Ok? ==> IsReading(tools, r.value) && r.value.index == index
                      && (r.value.words == words || r.value.words == tools.ocr(image))
  {
  }

  /** What a page was when detection came to it, and what became of it. */
  datatype Reading = Reading(index: nat, image: nat, words: seq<Word>, outcome: Outcome)

  ghost predicate Honest(tools: Tools, r: Reading) {
    PageOutcome(tools, r.index, r.image, r.words) == Ok(r.outcome) && IsReading(tools, r.outcome)
  }

  class PageArtifact {
    const index: nat
    const image: nat
    var words: seq<Word>

    constructor (index: nat, image: nat, words: seq<Word>)
      ensures this.index == index && this.image == image && this.words == words
    {
      this.index, this.image, this.words := index, image, words;
    }
  }

  class PageResult {
    const page: PageArtifact
    var items: seq<Item>
    var detections: seq<Detection>
    var unanchored: seq<Item>

    constructor (page: PageArtifact)
      ensures this.page == page && items == [] && detections == [] && unanchored == []
    {
      this.page, items, detections, unanchored := page, [], [], [];
    }

    ghost function Value(): Outcome
      reads this, page
    {
      Outcome(page.index, page.words, items, detections, unanchored)
    }

    /** Anchors every item, adds the detections, and keeps the items that were found nowhere. */
    method AnchorItems(tools: Tools) returns (anchored: nat)
      requires tools.al.Valid()
      modifies this
      ensures items == old(items)
      ensures detections == old(detections) + Named(tools, page.index, items, page.words, 0.9)
      ensures unanchored == Unanchored(tools, items, page.words)
      ensures anchored == |items| - |unanchored|
      ensures old(detections) == [] ==> Value() == Read(tools, page.index, page.words, items)
    {
      anchored := 0;
      unanchored := [];
      ghost var before, words := detections, page.words;
      AppendNothing(before);
      for n := 0 to |items|
        invariant items == old(items) && page.words == words && anchored == n - |unanchored|
        invariant unanchored == Unanchored(tools, items[..n], words)
        invariant detections == before + Named(tools, page.index, items[..n], words, 0.9)
      {
        NextItem(tools, page.index, items, words, n, 0.9);
        var boxes := AnchorValue(tools.al, tools.ratio, items[n].text, page.words);
        var more := Detections(page.index, items[n].category, boxes, 0.9);
        AppendTwice(before, Named(tools, page.index, items[..n], words, 0.9), more);
        if boxes != [] {
          anchored := anchored + 1;
        } else {
          unanchored := unanchored + [items[n]];
        }
        detections := detections + more;
      }
      WholePrefix(items);
      assert before == [] ==> detections == Named(tools, page.index, items, words, 0.9);
    }
  }

  lemma AppendTwice<T>(a: seq<T>, b: seq<T>, c: seq<T>)
    ensures (a + b) + c == a + (b + c)
  {
  }

  lemma AppendNothing<T>(a: seq<T>)
    ensures a + [] == a
  {
  }

  lemma WholePrefix<T>(a: seq<T>)
    ensures a[..|a|] == a
  {
  }

  method DetectPage(tools: Tools, page: PageArtifact)
    returns (r: Result<PageResult, DetectorError>, ghost reading: Reading)
    requires tools.al.Valid()
    modifies page
    ensures r.Ok? ==> fresh(r.value) && r.value.page == page
    ensures r.Ok? ==> Honest(tools, reading) && r.value.Value() == reading.outcome
    ensures reading.index == page.index && reading.image == page.image && reading.words == old(page.words)
    ensures r.Err? ==> PageOutcome(tools, page.index, page.image, old(page.words)) == Err(r.error)
  {
    var result := new PageResult(page);
    reading := Reading(page.index, page.image, page.words, result.Value());
    if page.words == [] {
      assert Honest(tools, reading);
      return Ok(result), reading;
    }
    FirstReading(tools, page.index, page.image, page.words);
    OutcomesAreReadings(tools, page.index, page.image, page.words);
    var grid := BuildGrid(page.words, GRID_WIDTH);
    var first := tools.complete(page.image, 0, grid);
    if first.Err? {
      return Err(first.error), reading;
    }
    result.items := first.value;
    var anchored := result.AnchorItems(tools);
    if result.items != [] && anchored * 2 < |result.items| && PdfOnly(page.words) {
      SecondReading(tools, page.index, page.image, page.words, first.value);
      page.words := tools.ocr(page.image);
      grid := BuildGrid(page.words, GRID_WIDTH);
      var second := tools.complete(page.image, 1, grid);
      if second.Err? {
        return Err(second.error), reading;
      }
      result.items := second.value;
      result.detections := [];
      var _ := result.AnchorItems(tools);
    }
    reading := reading.(outcome := result.Value());
    assert Honest(tools, reading);
    return Ok(result), reading;
  }
}
