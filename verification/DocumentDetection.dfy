/** Detection over all pages: names, numbers and addresses found on one page are looked for on every page. */
module DocumentDetection {
  import opened Wrappers
  import opened PageText
  import opened Anchoring
  import opened ValueAnchoring
  import opened SsnNet
  import opened Merging
  import opened Sorting
  import opened Detector
  import Domain

  /** The items of the propagated categories, from any page. */
  ghost function DocValues(outcomes: seq<Outcome>): (r: set<Item>) {
    set n, i | 0 <= n < |outcomes| && 0 <= i < |outcomes[n].items| && outcomes[n].items[i].category in PROPAGATED ::
      outcomes[n].items[i]
  }

  /** Everything found on a page: its own items, the values of the document in some order, and the net. */
  ghost function PageDetections(tools: Tools, o: Outcome, order: seq<Item>): seq<Detection> {
    o.detections + Named(tools, o.index, order, o.words, 0.85) + Sensitives(tools.al, o.index, o.words, |o.words|)
  }

  /** Some item is a taxpayer number. */
  predicate AnyTinItem(items: seq<Item>) {
    items != [] && (items[|items| - 1].category in TIN || AnyTinItem(items[..|items| - 1]))
  }

  predicate AnyTin(found: seq<Detection>) {
    found != [] && (found[|found| - 1].category in TIN || AnyTin(found[..|found| - 1]))
  }

  lemma {:induction false} TinFound(found: seq<Detection>) returns (d: Detection)
    requires AnyTin(found)
    ensures d in found && d.category in TIN
  {
    d := found[|found| - 1];
    if d.category !in TIN {
      d := TinFound(found[..|found| - 1]);
    }
  }

  /** The check of a page against its findings: a number was named and not located, and none was found. */
  predicate TinMissing(o: Outcome, found: seq<Detection>) {
    AnyTinItem(o.unanchored) && !AnyTin(found)
  }

  /** Some taxpayer number is found on the page: as its own item, as one of the values, or by its shape. */
  ghost predicate FindsTin(tools: Tools, o: Outcome, values: set<Item>) {
    || AnyTin(o.detections)
    || (exists item :: item in values && IsFoundTin(tools, item, o.words))
    || (exists k :: 0 <= k < |o.words| && Sensitive(tools.al, o.words, k))
  }

  ghost predicate IsFoundTin(tools: Tools, item: Item, words: seq<Word>) {
    item.category in TIN && BoxesOf(tools, item, words) != []
  }

  /** The page names a taxpayer number that is not on it, and shows none. */
  ghost predicate LosesTin(tools: Tools, o: Outcome, values: set<Item>) {
    AnyTinItem(o.unanchored) && !FindsTin(tools, o, values)
  }

  /** `orders[n]` lists the values of the document in the order in which page n looks for them. */
  ghost predicate Orders(orders: seq<seq<Item>>, values: set<Item>) {
    forall n | 0 <= n < |orders| :: forall item :: item in orders[n] <==> item in values
  }

  ghost function MergedPage(tools: Tools, o: Outcome, order: seq<Item>): seq<Detection> {
    MergeDetections(PageDetections(tools, o, order))
  }

  ghost function MergedPages(tools: Tools, outcomes: seq<Outcome>, orders: seq<seq<Item>>): (r: seq<seq<Detection>>)
    requires |outcomes| == |orders|
    ensures |r| == |outcomes|
    ensures forall n | 0 <= n < |r| :: r[n] == MergedPage(tools, outcomes[n], orders[n])
  {
    seq(|outcomes|, n requires 0 <= n < |outcomes| => MergedPage(tools, outcomes[n], orders[n]))
  }

  /** The merged detections of all pages. */
  ghost function Document(tools: Tools, outcomes: seq<Outcome>, orders: seq<seq<Item>>): seq<Detection>
    requires |outcomes| == |orders|
  {
    Flatten(MergedPages(tools, outcomes, orders))
  }

  // ---------------------------------------------------------------- the check does not depend on the order

  lemma {:induction false} AnyTinAppend(a: seq<Detection>, b: seq<Detection>)
    ensures AnyTin(a + b) <==> AnyTin(a) || AnyTin(b)
  {
    if b == [] {
      assert a + b == a;
    } else {
      assert (a + b)[..|a + b| - 1] == a + b[..|b| - 1];
      AnyTinAppend(a, b[..|b| - 1]);
    }
  }

  lemma {:induction false} TinIn(found: seq<Detection>, d: Detection)
    requires d in found && d.category in TIN
    ensures AnyTin(found)
  {
    if found[|found| - 1] != d {
      TinIn(found[..|found| - 1], d);
    }
  }

  lemma {:induction false} NamedFrom(tools: Tools, page: nat, items: seq<Item>, words: seq<Word>, confidence: real,
                                     d: Detection)
    returns (item: Item)
    requires d in Named(tools, page, items, words, confidence)
    ensures item in items && d.category == item.category && BoxesOf(tools, item, words) != []
  {
    item := items[|items| - 1];
    if d !in Detections(page, item.category, BoxesOf(tools, item, words), confidence) {
      item := NamedFrom(tools, page, items[..|items| - 1], words, confidence, d);
    }
  }

  lemma AnyTinNamed(tools: Tools, page: nat, items: seq<Item>, words: seq<Word>, confidence: real)
    ensures AnyTin(Named(tools, page, items, words, confidence))
            <==> exists item :: item in items && IsFoundTin(tools, item, words)
  {
    var named := Named(tools, page, items, words, confidence);
    if AnyTin(named) {
      var d := TinFound(named);
      var item := NamedFrom(tools, page, items, words, confidence, d);
      assert IsFoundTin(tools, item, words);
    }
    if item :| item in items && IsFoundTin(tools, item, words) {
      var box := BoxesOf(tools, item, words)[0];
      NamedHolds(tools, page, items, words, confidence, item, box);
      TinIn(named, Detection(page, item.category, box, confidence));
    }
  }

  lemma AnyTinSensitive(tools: Tools, page: nat, words: seq<Word>)
    ensures AnyTin(Sensitives(tools.al, page, words, |words|))
            <==> exists k :: 0 <= k < |words| && Sensitive(tools.al, words, k)
  {
    var net := Sensitives(tools.al, page, words, |words|);
    if AnyTin(net) {
      var d := TinFound(net);
      var k := FoundIsSensitive(tools.al, page, words, |words|, d);
    }
    if k :| 0 <= k < |words| && Sensitive(tools.al, words, k) {
      SensitiveIsFound(tools.al, page, words, |words|, k);
      TinIn(net, Found(page, words[k].box));
    }
  }

  /** In whatever order a page looks for the values, it finds a taxpayer number or it does not. */
  lemma TinOfPage(tools: Tools, o: Outcome, order: seq<Item>, values: set<Item>)
    requires forall item :: item in order <==> item in values
    ensures AnyTin(PageDetections(tools, o, order)) <==> FindsTin(tools, o, values)
    ensures TinMissing(o, PageDetections(tools, o, order)) <==> LosesTin(tools, o, values)
  {
    var named := Named(tools, o.index, order, o.words, 0.85);
    AnyTinNamed(tools, o.index, order, o.words, 0.85);
    AnyTinSensitive(tools, o.index, o.words);
    AnyTinAppend(o.detections, named);
    AnyTinAppend(o.detections + named, Sensitives(tools.al, o.index, o.words, |o.words|));
    assert AnyTin(named) <==> exists item :: item in values && IsFoundTin(tools, item, o.words);
  }

  // ---------------------------------------------------------------- coverage

  /** Some detection of the page and category contains the box. */
  ghost predicate Covered(found: seq<Detection>, page: nat, category: Domain.Category, box: Domain.Box) {
    exists d :: d in found && d.page == page && d.category == category && Contains(d.box, box)
  }

  lemma DocumentHolds(tools: Tools, outcomes: seq<Outcome>, orders: seq<seq<Item>>, p: nat, d: Detection)
    requires p < |outcomes| == |orders| && d in MergedPage(tools, outcomes[p], orders[p])
    ensures d in Document(tools, outcomes, orders)
  {
    var pages := MergedPages(tools, outcomes, orders);
    var k :| 0 <= k < |pages[p]| && pages[p][k] == d;
    InFlatten(pages, p, k);
  }

  /** Whatever is found on a page is inside a box of the document. */
  lemma PageFindingsAreCovered(tools: Tools, outcomes: seq<Outcome>, orders: seq<seq<Item>>, p: nat, d: Detection)
    requires p < |outcomes| == |orders| && d in PageDetections(tools, outcomes[p], orders[p])
    ensures Covered(Document(tools, outcomes, orders), d.page, d.category, d.box)
  {
    var found := PageDetections(tools, outcomes[p], orders[p]);
    MergeCovers(found, d);
    var m :| m in MergeDetections(found) && m.page == d.page && m.category == d.category && Contains(m.box, d.box);
    DocumentHolds(tools, outcomes, orders, p, m);
  }

  lemma {:induction false} NamedHolds(tools: Tools, page: nat, items: seq<Item>, words: seq<Word>, confidence: real,
                                      item: Item, box: Domain.Box)
    requires item in items && box in BoxesOf(tools, item, words)
    ensures Detection(page, item.category, box, confidence) in Named(tools, page, items, words, confidence)
  {
    var last := items[|items| - 1];
    if item == last {
      var boxes := BoxesOf(tools, item, words);
      var i :| 0 <= i < |boxes| && boxes[i] == box;
      assert Detections(page, item.category, boxes, confidence)[i] == Detection(page, item.category, box, confidence);
    } else {
      NamedHolds(tools, page, items[..|items| - 1], words, confidence, item, box);
    }
  }

  /** Every word that is a social security number, or half of one, is covered on every page. */
  lemma NumbersAreCovered(tools: Tools, outcomes: seq<Outcome>, orders: seq<seq<Item>>, p: nat, k: nat)
    requires p < |outcomes| == |orders| && k < |outcomes[p].words| && Sensitive(tools.al, outcomes[p].words, k)
    ensures Covered(Document(tools, outcomes, orders), outcomes[p].index, Domain.Ssn, outcomes[p].words[k].box)
  {
    var o := outcomes[p];
    SensitiveIsFound(tools.al, o.index, o.words, |o.words|, k);
    PageFindingsAreCovered(tools, outcomes, orders, p, Found(o.index, o.words[k].box));
  }

  /** The value, word by word, is covered wherever it occurs on page p. */
  ghost predicate OccurrencesCovered(tools: Tools, found: seq<Detection>, o: Outcome, item: Item) {
    forall a: nat, b: nat, k: nat |
      Occurs(Norm(tools.al, item.text), Norms(tools.al, o.words), a, b) && a <= k < b ::
      Covered(found, o.index, item.category, o.words[k].box)
  }

  /**
   A name, number or address that the model named on any page q is covered, under its category,
   wherever it occurs exactly on any page p.
   */
  lemma NamedValuesAreCoveredEverywhere(tools: Tools, outcomes: seq<Outcome>, orders: seq<seq<Item>>, p: nat, q: nat,
                                        item: Item)
    requires tools.al.Valid()
    requires p < |outcomes| == |orders| && q < |outcomes| && Orders(orders, DocValues(outcomes))
    requires item in outcomes[q].items && item.category in PROPAGATED && |Norm(tools.al, item.text)| >= 2
    ensures OccurrencesCovered(tools, Document(tools, outcomes, orders), outcomes[p], item)
  {
    var o := outcomes[p];
    assert item in DocValues(outcomes);
    assert item in orders[p];
    forall a: nat, b: nat, k: nat |
      Occurs(Norm(tools.al, item.text), Norms(tools.al, o.words), a, b) && a <= k < b
      ensures Covered(Document(tools, outcomes, orders), o.index, item.category, o.words[k].box)
    {
      OccurrencesAreBoxed(tools.al, tools.ratio, item.text, o.words, a, b);
      NamedHolds(tools, o.index, orders[p], o.words, 0.85, item, o.words[k].box);
      PageFindingsAreCovered(tools, outcomes, orders, p, Detection(o.index, item.category, o.words[k].box, 0.85));
    }
  }

  /** Any item at all is covered on its own page wherever it occurs exactly. */
  lemma OwnItemsAreCovered(tools: Tools, outcomes: seq<Outcome>, orders: seq<seq<Item>>, p: nat, item: Item)
    requires tools.al.Valid()
    requires p < |outcomes| == |orders| && IsReading(tools, outcomes[p])
    requires item in outcomes[p].items && |Norm(tools.al, item.text)| >= 2
    ensures OccurrencesCovered(tools, Document(tools, outcomes, orders), outcomes[p], item)
  {
    var o := outcomes[p];
    forall a: nat, b: nat, k: nat |
      Occurs(Norm(tools.al, item.text), Norms(tools.al, o.words), a, b) && a <= k < b
      ensures Covered(Document(tools, outcomes, orders), o.index, item.category, o.words[k].box)
    {
      OccurrencesAreBoxed(tools.al, tools.ratio, item.text, o.words, a, b);
      NamedHolds(tools, o.index, o.items, o.words, 0.9, item, o.words[k].box);
      PageFindingsAreCovered(tools, outcomes, orders, p, Detection(o.index, item.category, o.words[k].box, 0.9));
    }
  }

  // ---------------------------------------------------------------- soundness

  lemma {:induction false} NamedAreWords(tools: Tools, page: nat, items: seq<Item>, words: seq<Word>,
                                         confidence: real, d: Detection)
    requires tools.al.Valid()
    requires d in Named(tools, page, items, words, confidence)
    ensures d.page == page && IsWordBox(words, d.box)
  {
    var last := items[|items| - 1];
    var boxes := BoxesOf(tools, last, words);
    if d in Detections(page, last.category, boxes, confidence) {
      var i :| 0 <= i < |boxes| && Detections(page, last.category, boxes, confidence)[i] == d;
      AnchorsAreWords(tools.al, tools.ratio, last.text, words, boxes[i]);
    } else {
      NamedAreWords(tools, page, items[..|items| - 1], words, confidence, d);
    }
  }

  lemma PageFindingsAreWords(tools: Tools, o: Outcome, order: seq<Item>, d: Detection)
    requires tools.al.Valid()
    requires IsReading(tools, o) && d in PageDetections(tools, o, order)
    ensures d.page == o.index && IsWordBox(o.words, d.box)
  {
    if d in o.detections {
      NamedAreWords(tools, o.index, o.items, o.words, 0.9, d);
    } else if d in Named(tools, o.index, order, o.words, 0.85) {
      NamedAreWords(tools, o.index, order, o.words, 0.85, d);
    } else {
      var k := FoundIsSensitive(tools.al, o.index, o.words, |o.words|, d);
    }
  }

  /** The box of a detection is the hull of boxes of words on one of the pages. */
  ghost predicate DrawnAroundWords(outcomes: seq<Outcome>, d: Detection) {
    exists p, group: seq<Detection> :: IsHullOfWords(outcomes, p, group, d)
  }

  ghost predicate IsHullOfWords(outcomes: seq<Outcome>, p: nat, group: seq<Detection>, d: Detection) {
    && p < |outcomes| && d.page == outcomes[p].index && Chained(group) && Hull(group) == d
    && forall k | 0 <= k < |group| :: IsWordBox(outcomes[p].words, group[k].box)
  }

  lemma MergedPageIsAroundWords(tools: Tools, outcomes: seq<Outcome>, order: seq<Item>, p: nat, d: Detection)
    requires tools.al.Valid()
    requires p < |outcomes| && IsReading(tools, outcomes[p]) && d in MergedPage(tools, outcomes[p], order)
    ensures DrawnAroundWords(outcomes, d)
  {
    var o, found := outcomes[p], PageDetections(tools, outcomes[p], order);
    var groups := MergePartitions(found);
    var g :| 0 <= g < |groups| && MergeDetections(found)[g] == d;
    HullContains(groups[g]);
    assert Around(Hull(groups[g]), groups[g][0]);
    forall k | 0 <= k < |groups[g]|
      ensures groups[g][k].page == o.index && IsWordBox(o.words, groups[g][k].box)
    {
      InFlatten(groups, g, k);
      assert groups[g][k] in multiset(found);
      PageFindingsAreWords(tools, o, order, groups[g][k]);
    }
    assert IsHullOfWords(outcomes, p, groups[g], d);
  }

  /** Nothing is painted that is not around words of the page. */
  lemma DetectionsAreAroundWords(tools: Tools, outcomes: seq<Outcome>, orders: seq<seq<Item>>, d: Detection)
    requires tools.al.Valid()
    requires |outcomes| == |orders| && forall p | 0 <= p < |outcomes| :: IsReading(tools, outcomes[p])
    requires d in Document(tools, outcomes, orders)
    ensures DrawnAroundWords(outcomes, d)
  {
    assert d in multiset(Flatten(MergedPages(tools, outcomes, orders)));
    var p, k := GroupWith(MergedPages(tools, outcomes, orders), d);
    MergedPageIsAroundWords(tools, outcomes, orders[p], p, d);
  }

  // ---------------------------------------------------------------- the whole promise

  /** What a document that detection lets through can be trusted with. */
  ghost predicate Trustworthy(tools: Tools, outcomes: seq<Outcome>, found: seq<Detection>) {
    && (forall p, k | 0 <= p < |outcomes| && 0 <= k < |outcomes[p].words|
                      && Sensitive(tools.al, outcomes[p].words, k) ::
          Covered(found, outcomes[p].index, Domain.Ssn, outcomes[p].words[k].box))
    && (forall p, item | 0 <= p < |outcomes| && item in DocValues(outcomes) && |Norm(tools.al, item.text)| >= 2 ::
          OccurrencesCovered(tools, found, outcomes[p], item))
    && (forall p, item | 0 <= p < |outcomes| && item in outcomes[p].items && |Norm(tools.al, item.text)| >= 2 ::
          OccurrencesCovered(tools, found, outcomes[p], item))
    && (forall d | d in found :: DrawnAroundWords(outcomes, d))
    && (forall p | 0 <= p < |outcomes| && AnyTinItem(outcomes[p].unanchored) ::
          exists d :: d in found && d.page == outcomes[p].index && d.category in TIN)
  }

  lemma LostTinIsAnswered(tools: Tools, outcomes: seq<Outcome>, orders: seq<seq<Item>>, p: nat)
    requires tools.al.Valid()
    requires p < |outcomes| == |orders| && IsReading(tools, outcomes[p]) && AnyTinItem(outcomes[p].unanchored)
    requires Orders(orders, DocValues(outcomes)) && !LosesTin(tools, outcomes[p], DocValues(outcomes))
    ensures exists d :: d in Document(tools, outcomes, orders) && d.page == outcomes[p].index && d.category in TIN
  {
    TinOfPage(tools, outcomes[p], orders[p], DocValues(outcomes));
    var d := TinFound(PageDetections(tools, outcomes[p], orders[p]));
    PageFindingsAreWords(tools, outcomes[p], orders[p], d);
    PageFindingsAreCovered(tools, outcomes, orders, p, d);
  }

  /**
   Every number in the shape of a social security number, every exact occurrence of a name, number or
   address named on any page, and of anything named on the page itself, is inside a box; every box is
   drawn around words of its page; and a page with a taxpayer number that was named but not located
   still has one that was.
   */
  lemma DetectionIsTrustworthy(tools: Tools, outcomes: seq<Outcome>, orders: seq<seq<Item>>)
    requires tools.al.Valid()
    requires |outcomes| == |orders| && Orders(orders, DocValues(outcomes))
    requires forall p | 0 <= p < |outcomes| :: IsReading(tools, outcomes[p])
    requires forall p | 0 <= p < |outcomes| :: !LosesTin(tools, outcomes[p], DocValues(outcomes))
    ensures Trustworthy(tools, outcomes, Document(tools, outcomes, orders))
  {
    forall p, k | 0 <= p < |outcomes| && 0 <= k < |outcomes[p].words| && Sensitive(tools.al, outcomes[p].words, k)
      ensures Covered(Document(tools, outcomes, orders), outcomes[p].index, Domain.Ssn, outcomes[p].words[k].box)
    {
      NumbersAreCovered(tools, outcomes, orders, p, k);
    }
    forall p, item | 0 <= p < |outcomes| && item in DocValues(outcomes) && |Norm(tools.al, item.text)| >= 2
      ensures OccurrencesCovered(tools, Document(tools, outcomes, orders), outcomes[p], item)
    {
      var q, i :| 0 <= q < |outcomes| && 0 <= i < |outcomes[q].items| && outcomes[q].items[i].category in PROPAGATED
                  && outcomes[q].items[i] == item;
      NamedValuesAreCoveredEverywhere(tools, outcomes, orders, p, q, item);
    }
    forall p, item | 0 <= p < |outcomes| && item in outcomes[p].items && |Norm(tools.al, item.text)| >= 2
      ensures OccurrencesCovered(tools, Document(tools, outcomes, orders), outcomes[p], item)
    {
      OwnItemsAreCovered(tools, outcomes, orders, p, item);
    }
    forall d | d in Document(tools, outcomes, orders)
      ensures DrawnAroundWords(outcomes, d)
    {
      DetectionsAreAroundWords(tools, outcomes, orders, d);
    }
    forall p | 0 <= p < |outcomes| && AnyTinItem(outcomes[p].unanchored)
      ensures exists d :: d in Document(tools, outcomes, orders) && d.page == outcomes[p].index && d.category in TIN
    {
      LostTinIsAnswered(tools, outcomes, orders, p);
    }
  }

  // ---------------------------------------------------------------- the document method

  /** The propagated values among the items. */
  function Propagated(items: seq<Item>): (r: set<Item>)
    ensures forall item :: item in r <==> item in items && item.category in PROPAGATED
  {
    set i | 0 <= i < |items| && items[i].category in PROPAGATED :: items[i]
  }

  lemma OneMorePage(outcomes: seq<Outcome>, o: Outcome)
    ensures DocValues(outcomes + [o]) == DocValues(outcomes) + Propagated(o.items)
  {
    var all := outcomes + [o];
    forall item | item in DocValues(outcomes) + Propagated(o.items)
      ensures item in DocValues(all)
    {
      if item in DocValues(outcomes) {
        var n, i :| 0 <= n < |outcomes| && 0 <= i < |outcomes[n].items| && outcomes[n].items[i].category in PROPAGATED
                    && outcomes[n].items[i] == item;
        assert all[n].items[i] == item;
      } else {
        var i :| 0 <= i < |o.items| && o.items[i] == item;
        assert all[|outcomes|].items[i] == item;
      }
    }
  }

  /** The findings of a page before merging. */
  method FindOnPage(tools: Tools, result: PageResult, docValues: set<Item>)
    returns (found: seq<Detection>, ghost order: seq<Item>)
    requires tools.al.Valid()
    ensures forall item :: item in order <==> item in docValues
    ensures found == PageDetections(tools, result.Value(), order)
  {
    var page := result.page;
    found := result.detections;
    order := [];
    AppendNothing(found);
    var rest := docValues;
    while rest != {}
      invariant forall item :: item in docValues <==> item in order || item in rest
      invariant rest <= docValues
      invariant found == result.detections + Named(tools, page.index, order, page.words, 0.85)
    {
      var item :| item in rest;
      rest := rest - {item};
      var boxes := AnchorValue(tools.al, tools.ratio, item.text, page.words);
      var more := Detections(page.index, item.category, boxes, 0.85);
      ghost var longer := order + [item];
      assert longer[..|order|] == order;
      AppendTwice(result.detections, Named(tools, page.index, order, page.words, 0.85), more);
      found := found + more;
      order := longer;
    }
    var net := SafetyNet(tools.al, page.index, page.words);
    found := found + net;
  }

  /** Refuses a page that named a taxpayer number it does not show. */
  method CheckUnanchored(result: PageResult, found: seq<Detection>) returns (ok: bool)
    ensures ok <==> !TinMissing(result.Value(), found)
  {
    if result.unanchored == [] {
      return true;
    }
    var tinNamed := AnyTinItem(result.unanchored);
    var tinCovered := AnyTin(found);
    return !(tinNamed && !tinCovered);
  }

  ghost predicate Distinct(pages: seq<PageArtifact>) {
    forall i, j | 0 <= i < j < |pages| :: pages[i] != pages[j]
  }

  ghost predicate AllHonest(tools: Tools, readings: seq<Reading>) {
    forall n | 0 <= n < |readings| :: Honest(tools, readings[n])
  }

  /** The readings are those of the first pages: what each had when detection began. */
  twostate predicate Begins(pages: seq<PageArtifact>, readings: seq<Reading>)
    reads pages
  {
    && |readings| <= |pages|
    && forall n | 0 <= n < |readings| ::
         && readings[n].index == pages[n].index && readings[n].image == pages[n].image
         && readings[n].words == old(pages[n].words)
  }

  /** Reads every page; the first one that fails decides. */
  method ReadPages(tools: Tools, pages: seq<PageArtifact>)
    returns (r: Result<seq<PageResult>, DetectorError>, ghost readings: seq<Reading>)
    requires tools.al.Valid() && Distinct(pages)
    modifies pages
    ensures Begins(pages, readings) && AllHonest(tools, readings)
    ensures r.Err? ==> |readings| < |pages| && FailsToRead(tools, pages[|readings|], r.error)
    ensures r.Ok? ==> |r.value| == |readings| == |pages|
    ensures r.Ok? ==> forall n | 0 <= n < |pages| :: r.value[n].Value() == readings[n].outcome
  {
    hide PageOutcome, IsReading;
    var results: seq<PageResult> := [];
    readings := [];
    for n := 0 to |pages|
      invariant |results| == |readings| == n
      invariant forall m | n <= m < |pages| :: pages[m].words == old(pages[m].words)
      invariant forall m | 0 <= m < n :: fresh(results[m]) && results[m].page == pages[m]
      invariant forall m | 0 <= m < n :: results[m].Value() == readings[m].outcome
      invariant Begins(pages, readings) && AllHonest(tools, readings)
    {
      var one, reading := DetectPage(tools, pages[n]);
      if one.Err? {
        return Err(one.error), readings;
      }
      results := results + [one.value];
      readings := readings + [reading];
    }
    return Ok(results), readings;
  }

  /** Reading this page, as it was when detection began, fails for this reason. */
  twostate predicate FailsToRead(tools: Tools, page: PageArtifact, error: DetectorError)
    reads page
  {
    PageOutcome(tools, page.index, page.image, old(page.words)) == Err(error)
  }

  ghost function Outcomes(readings: seq<Reading>): (r: seq<Outcome>)
    ensures |r| == |readings| && forall n | 0 <= n < |r| :: r[n] == readings[n].outcome
  {
    seq(|readings|, n requires 0 <= n < |readings| => readings[n].outcome)
  }

  /** A page, the order in which it looked for the values, and its merged findings. */
  datatype Finished = Finished(outcome: Outcome, order: seq<Item>, merged: seq<Detection>)

  /** The page looked for every value, passed the check with its findings, and they are merged. */
  ghost predicate PageDone(tools: Tools, values: set<Item>, f: Finished) {
    (forall item :: item in f.order <==> item in values)
    && f.merged == MergedPage(tools, f.outcome, f.order) && !LosesTin(tools, f.outcome, values)
  }

  ghost predicate AllDone(tools: Tools, values: set<Item>, done: seq<Finished>) {
    forall n | 0 <= n < |done| :: PageDone(tools, values, done[n])
  }

  ghost function OutcomesOf(done: seq<Finished>): seq<Outcome> {
    seq(|done|, n requires 0 <= n < |done| => done[n].outcome)
  }

  ghost function OrdersOf(done: seq<Finished>): seq<seq<Item>> {
    seq(|done|, n requires 0 <= n < |done| => done[n].order)
  }

  ghost function MergedOf(done: seq<Finished>): seq<seq<Detection>> {
    seq(|done|, n requires 0 <= n < |done| => done[n].merged)
  }

  /** Propagation, the net, the check and merging for one page. */
  method FinishPage(tools: Tools, result: PageResult, docValues: set<Item>)
    returns (ok: bool, merged: seq<Detection>, ghost order: seq<Item>)
    requires tools.al.Valid()
    ensures ok <==> !LosesTin(tools, result.Value(), docValues)
    ensures ok ==> PageDone(tools, docValues, Finished(result.Value(), order, merged))
  {
    var found;
    found, order := FindOnPage(tools, result, docValues);
    TinOfPage(tools, result.Value(), order, docValues);
    ok := CheckUnanchored(result, found);
    merged := MergePageDetections(found);
  }

  lemma OneMoreDone(done: seq<Finished>, f: Finished)
    ensures OutcomesOf(done + [f]) == OutcomesOf(done) + [f.outcome]
    ensures Flatten(MergedOf(done + [f])) == Flatten(MergedOf(done)) + f.merged
  {
    FlattenAppend(MergedOf(done), f.merged);
    assert MergedOf(done + [f]) == MergedOf(done) + [f.merged];
  }

  /** The second half of detection, page by page. */
  method FindOnPages(tools: Tools, results: seq<PageResult>, docValues: set<Item>, ghost outcomes: seq<Outcome>)
    returns (r: Result<seq<Detection>, DetectorError>, ghost done: seq<Finished>, ghost lost: nat)
    requires tools.al.Valid() && |results| == |outcomes|
    requires forall n | 0 <= n < |results| :: results[n].Value() == outcomes[n]
    ensures r.Ok? ==>
              && OutcomesOf(done) == outcomes && r.value == Flatten(MergedOf(done))
              && AllDone(tools, docValues, done)
    ensures r.Err? ==> r.error == DetectionUnanchored && lost < |outcomes| && LosesTin(tools, outcomes[lost], docValues)
  {
    hide PageDone, LosesTin;
    done, lost := [], 0;
    var detections: seq<Detection> := [];
    for n := 0 to |results|
      invariant |done| == n && OutcomesOf(done) == outcomes[..n]
      invariant detections == Flatten(MergedOf(done))
      invariant AllDone(tools, docValues, done)
    {
      var ok, page, order := FinishPage(tools, results[n], docValues);
      if !ok {
        return Err(DetectionUnanchored), [], n;
      }
      ghost var f := Finished(outcomes[n], order, page);
      OneMoreDone(done, f);
      detections := detections + page;
      done := done + [f];
    }
    WholePrefix(outcomes);
    return Ok(detections), done, 0;
  }

  /** Some page loses a taxpayer number, given the values of the whole document. */
  ghost predicate AnyLosesTin(tools: Tools, outcomes: seq<Outcome>) {
    exists p :: 0 <= p < |outcomes| && LosesTin(tools, outcomes[p], DocValues(outcomes))
  }

  lemma DoneIsTrustworthy(tools: Tools, readings: seq<Reading>, done: seq<Finished>)
    requires tools.al.Valid()
    requires AllHonest(tools, readings) && OutcomesOf(done) == Outcomes(readings)
    requires AllDone(tools, DocValues(OutcomesOf(done)), done)
    ensures var outcomes, orders, found := OutcomesOf(done), OrdersOf(done), Flatten(MergedOf(done));
            && Orders(orders, DocValues(outcomes)) && found == Document(tools, outcomes, orders)
            && Trustworthy(tools, outcomes, found) && !AnyLosesTin(tools, outcomes)
  {
    var outcomes, orders := OutcomesOf(done), OrdersOf(done);
    forall n | 0 <= n < |done|
      ensures PageDone(tools, DocValues(outcomes), done[n]) && IsReading(tools, outcomes[n])
    {
      assert Honest(tools, readings[n]);
      assert outcomes[n] == Outcomes(readings)[n];
    }
    assert MergedOf(done) == MergedPages(tools, outcomes, orders);
    DetectionIsTrustworthy(tools, outcomes, orders);
  }

  /** The values of the propagated categories, from every page. */
  method CollectValues(results: seq<PageResult>, ghost outcomes: seq<Outcome>) returns (docValues: set<Item>)
    requires |results| == |outcomes| && forall n | 0 <= n < |results| :: results[n].Value() == outcomes[n]
    ensures docValues == DocValues(outcomes)
  {
    docValues := {};
    for n := 0 to |results|
      invariant docValues == DocValues(outcomes[..n])
    {
      OneMorePage(outcomes[..n], outcomes[n]);
      assert outcomes[..n + 1] == outcomes[..n] + [outcomes[n]];
      docValues := docValues + Propagated(results[n].items);
    }
    WholePrefix(outcomes);
  }

  /** Detects over the whole document; what it lets through can be trusted. */
  method DetectDocument(tools: Tools, pages: seq<PageArtifact>)
    returns (r: Result<seq<Detection>, DetectorError>, ghost readings: seq<Reading>, ghost orders: seq<seq<Item>>)
    requires tools.al.Valid() && Distinct(pages)
    modifies pages
    ensures Begins(pages, readings) && AllHonest(tools, readings)
    ensures r.Ok? ==>
              && |readings| == |orders| == |pages| && Orders(orders, DocValues(Outcomes(readings)))
              && r.value == Document(tools, Outcomes(readings), orders)
              && Trustworthy(tools, Outcomes(readings), r.value)
    ensures |readings| < |pages| ==> r.Err? && FailsToRead(tools, pages[|readings|], r.error)
    ensures |readings| == |pages| ==> (r.Err? <==> AnyLosesTin(tools, Outcomes(readings)))
    ensures |readings| == |pages| && r.Err? ==> r.error == DetectionUnanchored
  {
    orders := [];
    var read;
    read, readings := ReadPages(tools, pages);
    if read.Err? {
      return Err(read.error), readings, [];
    }
    var docValues := CollectValues(read.value, Outcomes(readings));
    ghost var done, lost;
    r, done, lost := FindOnPages(tools, read.value, docValues, Outcomes(readings));
    if r.Ok? {
      orders := OrdersOf(done);
      DoneIsTrustworthy(tools, readings, done);
    }
  }
}
