/**
 * The PDF report of a PageSpeed analysis: a header band, one section per
 * available result (mobile, then desktop) with four score cards and five
 * metric rows, a page break before the desktop section when the cursor is
 * low on the page, a footer on every page, and a file name derived from
 * the analysed URL.
 *
 * The PDF library is reduced to a `Doc`: a list of pages, each the list of
 * marks drawn on it, and the page that drawing goes to. Fonts, widths and
 * x positions are not modelled; each mark keeps its y position and what it
 * says, and text colours are recorded only as a card's tier colour.
 */
module ExportPdf {
  import opened Wrappers

  // ------------------------------------------------------------ results

  /** The four category scores, each in 0..100. */
  datatype Scores = Scores(performance: int, accessibility: int, bestPractices: int, seo: int)

  /** Display strings (`None` when the API left one out) and the 0..1 scores of LCP and CLS. */
  datatype Metrics = Metrics(
    lcp: Option<string>,
    lcpScore: real,
    fid: Option<string>,
    cls: Option<string>,
    clsScore: real,
    fcp: Option<string>,
    tbt: Option<string>,
    si: Option<string>)

  /** One analysis (mobile or desktop) as the analyze endpoint returns it. */
  datatype AnalysisResults = AnalysisResults(scores: Scores, metrics: Metrics)

  // -------------------------------------------------------------- tiers

  datatype Rgb = Rgb(r: int, g: int, b: int)

  const Green := Rgb(34, 197, 94)
  const Yellow := Rgb(234, 179, 8)
  const Red := Rgb(239, 68, 68)

  /** The status printed under a score card. */
  function ScoreLabel(score: int): (status: string)
    ensures status == "Good" <==> score >= 90
    ensures status == "Needs Improvement" <==> 50 <= score < 90
    ensures status == "Poor" <==> score < 50
  {
    if score >= 90 then "Good"
    else if score >= 50 then "Needs Improvement"
    else "Poor"
  }

  /** The colour of a score card's number and status. */
  function ScoreRgb(score: int): (rgb: Rgb)
    ensures rgb == Green <==> score >= 90
    ensures rgb == Yellow <==> 50 <= score < 90
    ensures rgb == Red <==> score < 50
  {
    if score >= 90 then Green
    else if score >= 50 then Yellow
    else Red
  }

  /** Label and colour follow the same tiers: a card never says "Good" in red. */
  lemma LabelAndColourAgree(score: int)
    ensures ScoreLabel(score) == "Good" <==> ScoreRgb(score) == Green
    ensures ScoreLabel(score) == "Needs Improvement" <==> ScoreRgb(score) == Yellow
    ensures ScoreLabel(score) == "Poor" <==> ScoreRgb(score) == Red
  {
  }

  // ------------------------------------------------------------ marks

  /** Something drawn on a page, with the y position it was drawn at. */
  datatype Mark =
      /** The dark band behind the report title. */
    | HeaderBand
    | Text(text: string, y: int)
      /** The line under a section title. */
    | Rule(y: int)
      /** A score card: the score, the category name and the status, in the tier's colour. */
    | Card(name: string, value: int, status: string, colour: Rgb, y: int)
      /** A metric row: the metric's name and its printed value. */
    | MetricRow(name: string, shown: string, y: int)
      /** The footer band with the attribution and "Page index of total". */
    | Footer(index: nat, total: nat)

  /** The marks of `marks` that satisfy `p`, in order. */
  function Filter(marks: seq<Mark>, p: Mark -> bool): (r: seq<Mark>)
    ensures |r| <= |marks|
    ensures forall m :: m in r ==> m in marks && p(m)
  {
    if marks == [] then []
    else (if p(marks[0]) then [marks[0]] else []) + Filter(marks[1..], p)
  }

  lemma {:induction false} FilterAppend(a: seq<Mark>, b: seq<Mark>, p: Mark -> bool)
    ensures Filter(a + b, p) == Filter(a, p) + Filter(b, p)
  {
    if a == [] {
      assert a + b == b;
    } else {
      assert (a + b)[1..] == a[1..] + b;
      FilterAppend(a[1..], b, p);
    }
  }

  lemma {:induction false} FilterAll(marks: seq<Mark>, p: Mark -> bool)
    requires forall m :: m in marks ==> p(m)
    ensures Filter(marks, p) == marks
  {
    if marks != [] {
      FilterAll(marks[1..], p);
    }
  }

  lemma {:induction false} FilterNone(marks: seq<Mark>, p: Mark -> bool)
    requires forall m :: m in marks ==> !p(m)
    ensures Filter(marks, p) == []
  {
    if marks != [] {
      FilterNone(marks[1..], p);
    }
  }

  /** Filtering `a + b + c` keeps exactly `b` when `p` holds throughout `b` and nowhere in `a` or `c`. */
  lemma FilterKeepsMiddle(a: seq<Mark>, b: seq<Mark>, c: seq<Mark>, p: Mark -> bool)
    requires forall m :: m in a ==> !p(m)
    requires forall m :: m in b ==> p(m)
    requires forall m :: m in c ==> !p(m)
    ensures Filter(a + b + c, p) == b
  {
    FilterAppend(a + b, c, p);
    FilterAppend(a, b, p);
    FilterNone(a, p);
    FilterAll(b, p);
    FilterNone(c, p);
  }

  // ----------------------------------------------------------- section

  /** The score cards of a section, left to right. */
  function ScoreEntries(results: AnalysisResults): seq<(string, int)> {
    [ ("Performance", results.scores.performance),
      ("Accessibility", results.scores.accessibility),
      ("Best Practices", results.scores.bestPractices),
      ("SEO", results.scores.seo) ]
  }

  /** The metric rows of a section, top to bottom. */
  function MetricEntries(results: AnalysisResults): seq<(string, Option<string>)> {
    [ ("Largest Contentful Paint (LCP)", results.metrics.lcp),
      ("Cumulative Layout Shift (CLS)", results.metrics.cls),
      ("Total Blocking Time (TBT)", results.metrics.tbt),
      ("First Contentful Paint (FCP)", results.metrics.fcp),
      ("Speed Index (SI)", results.metrics.si) ]
  }

  /** `metric.value || "N/A"`: a missing or empty value prints as "N/A". */
  function DisplayValue(value: Option<string>): (shown: string)
    ensures value == None || value == Some("") ==> shown == "N/A"
    ensures value.Some? && value.value != "" ==> shown == value.value
  {
    if value.Some? && value.value != "" then value.value else "N/A"
  }

  function CardAt(entry: (string, int), y: int): Mark {
    Card(entry.0, entry.1, ScoreLabel(entry.1), ScoreRgb(entry.1), y)
  }

  function RowAt(entry: (string, Option<string>), y: int): Mark {
    MetricRow(entry.0, DisplayValue(entry.1), y)
  }

  /** Vertical space one section takes: title 4, rule 12, cards 55, heading 8, five rows of 13, margin 8. */
  const SectionHeight: int := 4 + 12 + 55 + 8 + 5 * 13 + 8

  /** What `drawScoreSection(label, results, startY)` draws, in order. */
  function SectionMarks(title: string, results: AnalysisResults, startY: int): (marks: seq<Mark>)
    ensures |marks| == 12
  {
    var cards := ScoreEntries(results);
    var rows := MetricEntries(results);
    [Text(title + " Results", startY), Rule(startY + 4)]
    + seq(4, i requires 0 <= i < 4 => CardAt(cards[i], startY + 16))
    + [Text("Core Web Vitals", startY + 71)]
    + seq(5, k requires 0 <= k < 5 => RowAt(rows[k], startY + 79 + 13 * k))
  }

  predicate IsCard(m: Mark) { m.Card? }
  predicate IsMetricRow(m: Mark) { m.MetricRow? }
  predicate IsFooter(m: Mark) { m.Footer? }

  /** The four parts of a section: title and rule, cards, heading, rows. */
  lemma SectionParts(title: string, results: AnalysisResults, startY: int)
    ensures var cards := ScoreEntries(results);
      var rows := MetricEntries(results);
      SectionMarks(title, results, startY)
      == [Text(title + " Results", startY), Rule(startY + 4)]
      + [CardAt(cards[0], startY + 16), CardAt(cards[1], startY + 16), CardAt(cards[2], startY + 16), CardAt(cards[3], startY + 16)]
      + [Text("Core Web Vitals", startY + 71)]
      + [RowAt(rows[0], startY + 79), RowAt(rows[1], startY + 92), RowAt(rows[2], startY + 105),
         RowAt(rows[3], startY + 118), RowAt(rows[4], startY + 131)]
  {
  }

  /**
   * A section shows exactly four score cards, Performance, Accessibility,
   * Best Practices and SEO, each with its score and that score's tier.
   */
  lemma SectionCards(title: string, results: AnalysisResults, startY: int)
    ensures var s := results.scores;
      Filter(SectionMarks(title, results, startY), IsCard) ==
      [ Card("Performance", s.performance, ScoreLabel(s.performance), ScoreRgb(s.performance), startY + 16),
        Card("Accessibility", s.accessibility, ScoreLabel(s.accessibility), ScoreRgb(s.accessibility), startY + 16),
        Card("Best Practices", s.bestPractices, ScoreLabel(s.bestPractices), ScoreRgb(s.bestPractices), startY + 16),
        Card("SEO", s.seo, ScoreLabel(s.seo), ScoreRgb(s.seo), startY + 16) ]
  {
    var entries := ScoreEntries(results);
    var head := [Text(title + " Results", startY), Rule(startY + 4)];
    var cards := [CardAt(entries[0], startY + 16), CardAt(entries[1], startY + 16),
                  CardAt(entries[2], startY + 16), CardAt(entries[3], startY + 16)];
    var rest := [Text("Core Web Vitals", startY + 71)] + seq(5, k requires 0 <= k < 5 => RowAt(MetricEntries(results)[k], startY + 79 + 13 * k));
    SectionParts(title, results, startY);
    assert SectionMarks(title, results, startY) == head + cards + rest;
    FilterKeepsMiddle(head, cards, rest, IsCard);
  }

  /**
   * A section shows exactly five metric rows, LCP, CLS, TBT, FCP and SI,
   * 13 units apart, each printing its value or "N/A".
   */
  lemma SectionRows(title: string, results: AnalysisResults, startY: int)
    ensures var m := results.metrics;
      Filter(SectionMarks(title, results, startY), IsMetricRow) ==
      [ MetricRow("Largest Contentful Paint (LCP)", DisplayValue(m.lcp), startY + 79),
        MetricRow("Cumulative Layout Shift (CLS)", DisplayValue(m.cls), startY + 92),
        MetricRow("Total Blocking Time (TBT)", DisplayValue(m.tbt), startY + 105),
        MetricRow("First Contentful Paint (FCP)", DisplayValue(m.fcp), startY + 118),
        MetricRow("Speed Index (SI)", DisplayValue(m.si), startY + 131) ]
  {
    var entries := MetricEntries(results);
    var head := [Text(title + " Results", startY), Rule(startY + 4)]
      + seq(4, i requires 0 <= i < 4 => CardAt(ScoreEntries(results)[i], startY + 16))
      + [Text("Core Web Vitals", startY + 71)];
    var rows := [RowAt(entries[0], startY + 79), RowAt(entries[1], startY + 92), RowAt(entries[2], startY + 105),
                 RowAt(entries[3], startY + 118), RowAt(entries[4], startY + 131)];
    SectionParts(title, results, startY);
    assert SectionMarks(title, results, startY) == head + rows + [];
    FilterKeepsMiddle(head, rows, [], IsMetricRow);
  }

  // ---------------------------------------------------------- document

  /** The parts of a PDF document the report uses. */
  class Doc {
    /** Every page, first to last, as the marks drawn on it. */
    var pages: seq<seq<Mark>>
    /** The page drawing goes to, counted from 1. */
    var current: nat

    ghost predicate Valid()
      reads this
    {
      1 <= current <= |pages|
    }

    /** `new jsPDF()`: one empty page. */
    constructor ()
      ensures Valid() && pages == [[]] && current == 1
    {
      pages := [[]];
      current := 1;
    }

    /** `addPage()`: append an empty page and make it current. */
    method AddPage()
      requires Valid()
      modifies this
      ensures Valid() && pages == old(pages) + [[]] && current == |pages|
    {
      pages := pages + [[]];
      current := |pages|;
    }

    /** `setPage(n)`. */
    method SetPage(n: nat)
      requires 1 <= n <= |pages|
      modifies this
      ensures Valid() && pages == old(pages) && current == n
    {
      current := n;
    }

    /** Draw `m` on the current page. */
    method Draw(m: Mark)
      requires Valid()
      modifies this
      ensures Valid() && current == old(current)
      ensures pages == old(pages)[current - 1 := old(pages)[current - 1] + [m]]
      ensures |pages| == |old(pages)| && pages[current - 1] == old(pages)[current - 1] + [m]
      ensures forall k :: 0 <= k < |pages| && k != current - 1 ==> pages[k] == old(pages)[k]
    {
      pages := pages[current - 1 := pages[current - 1] + [m]];
    }

    /** `getNumberOfPages()`. */
    function NumberOfPages(): nat
      reads this
    {
      |pages|
    }
  }

  /** Append `marks` to page `index` (from 1) of `pages`. */
  function Extend(pages: seq<seq<Mark>>, index: nat, marks: seq<Mark>): (r: seq<seq<Mark>>)
    requires 1 <= index <= |pages|
    ensures |r| == |pages|
  {
    pages[index - 1 := pages[index - 1] + marks]
  }

  /** Appending to the same page twice appends the concatenation once. */
  lemma ExtendTwice(pages: seq<seq<Mark>>, index: nat, a: seq<Mark>, b: seq<Mark>)
    requires 1 <= index <= |pages|
    ensures Extend(Extend(pages, index, a), index, b) == Extend(pages, index, a + b)
  {
    var lhs, rhs := Extend(Extend(pages, index, a), index, b), Extend(pages, index, a + b);
    assert lhs[index - 1] == pages[index - 1] + a + b == rhs[index - 1];
    assert forall k :: 0 <= k < |pages| ==> lhs[k] == rhs[k];
  }

  /** The four score cards of a section, all at `y`. */
  function CardMarks(scores: seq<(string, int)>, y: int): (marks: seq<Mark>)
    requires |scores| == 4
  {
    seq(4, i requires 0 <= i < 4 => CardAt(scores[i], y))
  }

  /** The five metric rows of a section, 13 apart from `y`. */
  function RowMarks(metrics: seq<(string, Option<string>)>, y: int): (marks: seq<Mark>)
    requires |metrics| == 5
  {
    seq(5, k requires 0 <= k < 5 => RowAt(metrics[k], y + 13 * k))
  }

  /** The `scores.forEach` loop: one card per score on the current page. */
  method DrawCards(doc: Doc, scores: seq<(string, int)>, y: int)
    requires doc.Valid() && |scores| == 4
    modifies doc
    ensures doc.Valid() && doc.current == old(doc.current)
    ensures doc.pages == Extend(old(doc.pages), doc.current, CardMarks(scores, y))
  {
    ghost var before := doc.pages;
    ghost var c := doc.current - 1;
    ghost var cards := CardMarks(scores, y);
    for i := 0 to 4
      invariant doc.Valid() && doc.current == c + 1 && |doc.pages| == |before|
      invariant doc.pages[c] == before[c] + cards[..i]
      invariant forall k :: 0 <= k < |before| && k != c ==> doc.pages[k] == before[k]
    {
      assert cards[..i + 1] == cards[..i] + [CardAt(scores[i], y)];
      doc.Draw(CardAt(scores[i], y));
    }
    assert cards[..4] == cards;
  }

  /** The `metrics.forEach` loop: one row per metric, advancing the cursor by 13. */
  method DrawRows(doc: Doc, metrics: seq<(string, Option<string>)>, y: int) returns (cy: int)
    requires doc.Valid() && |metrics| == 5
    modifies doc
    ensures doc.Valid() && doc.current == old(doc.current)
    ensures doc.pages == Extend(old(doc.pages), doc.current, RowMarks(metrics, y))
    ensures cy == y + 5 * 13
  {
    ghost var before := doc.pages;
    ghost var c := doc.current - 1;
    ghost var rows := RowMarks(metrics, y);
    cy := y;
    for k := 0 to 5
      invariant doc.Valid() && doc.current == c + 1 && |doc.pages| == |before|
      invariant doc.pages[c] == before[c] + rows[..k]
      invariant forall j :: 0 <= j < |before| && j != c ==> doc.pages[j] == before[j]
      invariant cy == y + 13 * k
    {
      assert rows[..k + 1] == rows[..k] + [RowAt(metrics[k], cy)];
      doc.Draw(RowAt(metrics[k], cy));
      cy := cy + 13;
    }
    assert rows[..5] == rows;
  }

  /**
   * `drawScoreSection`: draw one section on the current page from `startY`
   * and return the cursor below it.
   */
  method DrawScoreSection(doc: Doc, title: string, results: AnalysisResults, startY: int) returns (cy: int)
    requires doc.Valid()
    modifies doc
    ensures doc.Valid() && doc.current == old(doc.current)
    ensures doc.pages == Extend(old(doc.pages), doc.current, SectionMarks(title, results, startY))
    ensures cy == startY + SectionHeight
  {
    ghost var before := doc.pages;
    ghost var i := doc.current;
    ghost var caption := [Text(title + " Results", startY)];
    ghost var rule := [Rule(startY + 4)];
    ghost var heading := [Text("Core Web Vitals", startY + 71)];
    cy := startY;
    doc.Draw(Text(title + " Results", cy));
    cy := cy + 4;
    doc.Draw(Rule(cy));
    cy := cy + 12;
    ExtendTwice(before, i, caption, rule);

    var scores := ScoreEntries(results);
    DrawCards(doc, scores, cy);
    ExtendTwice(before, i, caption + rule, CardMarks(scores, startY + 16));
    cy := cy + 55;
    doc.Draw(Text("Core Web Vitals", cy));
    cy := cy + 8;
    ghost var upper := caption + rule + CardMarks(scores, startY + 16);
    ExtendTwice(before, i, upper, heading);

    var metrics := MetricEntries(results);
    cy := DrawRows(doc, metrics, cy);
    cy := cy + 8;
    ExtendTwice(before, i, upper + heading, RowMarks(metrics, startY + 79));
    assert SectionMarks(title, results, startY) == upper + heading + RowMarks(metrics, startY + 79);
  }

  // ------------------------------------------------------------ report

  /** Cursor at which the first section starts, below the header band. */
  const FirstSectionY: int := 62

  /** Cursor beyond which the desktop section starts on a new page. */
  const PageBreakY: int := 180

  /** Cursor at which a section starts on a fresh page. */
  const TopY: int := 20

  function HeaderMarks(url: string, generatedAt: string): seq<Mark> {
    [ HeaderBand,
      Text("PageSpeed Analysis Report", 28),
      Text("URL: " + url, 38),
      Text("Generated: " + generatedAt, 44) ]
  }

  /** The cursor after the mobile section, or where it would have started. */
  function CursorAfterMobile(mobile: Option<AnalysisResults>): (y: int)
    ensures y > PageBreakY <==> mobile.Some?
  {
    if mobile.Some? then FirstSectionY + SectionHeight else FirstSectionY
  }

  /** The pages of the report before the footer pass. */
  function Content(url: string, generatedAt: string, mobile: Option<AnalysisResults>, desktop: Option<AnalysisResults>)
    : (pages: seq<seq<Mark>>)
    ensures 1 <= |pages| <= 2
  {
    var first := HeaderMarks(url, generatedAt)
      + (if mobile.Some? then SectionMarks("Mobile", mobile.value, FirstSectionY) else []);
    var y := CursorAfterMobile(mobile);
    if desktop.None? then [first]
    else if y > PageBreakY then [first, SectionMarks("Desktop", desktop.value, TopY)]
    else [first + SectionMarks("Desktop", desktop.value, y)]
  }

  /** The footer pass: page i of n gets `Footer(i, n)` after its content. */
  function Stamped(pages: seq<seq<Mark>>): (r: seq<seq<Mark>>)
    ensures |r| == |pages|
  {
    seq(|pages|, i requires 0 <= i < |pages| => pages[i] + [Footer(i + 1, |pages|)])
  }

  /**
   * The finished report: one page, or two when both results are present; the
   * first opens with the header and every page ends with its own footer.
   */
  function Report(url: string, generatedAt: string, mobile: Option<AnalysisResults>, desktop: Option<AnalysisResults>)
    : (pages: seq<seq<Mark>>)
    ensures |pages| == if mobile.Some? && desktop.Some? then 2 else 1
    ensures HeaderMarks(url, generatedAt) <= pages[0]
    ensures forall i :: 0 <= i < |pages| ==> |pages[i]| > 0 && pages[i][|pages[i]| - 1] == Footer(i + 1, |pages|)
  {
    var content := Content(url, generatedAt, mobile, desktop);
    var header := HeaderMarks(url, generatedAt);
    assert header <= content[0] by {
      var rest := content[0][|header|..];
      assert content[0] == header + rest;
    }
    Stamped(content)
  }

  /** The footer loop: stamp every page, 1 to n, with "Page i of n". */
  method StampFooters(doc: Doc)
    requires doc.Valid()
    modifies doc
    ensures doc.Valid()
    ensures doc.pages == Stamped(old(doc.pages))
  {
    var totalPages := doc.NumberOfPages();
    for i := 1 to totalPages + 1
      invariant |doc.pages| == totalPages && doc.Valid()
      invariant forall k :: 0 <= k < i - 1 ==> doc.pages[k] == old(doc.pages)[k] + [Footer(k + 1, totalPages)]
      invariant forall k :: i - 1 <= k < totalPages ==> doc.pages[k] == old(doc.pages)[k]
    {
      doc.SetPage(i);
      doc.Draw(Footer(i, totalPages));
    }
  }

  /** The header band with the title, the URL and the generation time, on the current page. */
  method DrawHeader(doc: Doc, url: string, generatedAt: string)
    requires doc.Valid()
    modifies doc
    ensures doc.Valid() && doc.current == old(doc.current)
    ensures doc.pages == Extend(old(doc.pages), doc.current, HeaderMarks(url, generatedAt))
  {
    ghost var before := doc.pages;
    ghost var h := HeaderMarks(url, generatedAt);
    doc.Draw(HeaderBand);
    assert [HeaderBand] == h[..1];
    doc.Draw(Text("PageSpeed Analysis Report", 28));
    ExtendTwice(before, doc.current, h[..1], [h[1]]);
    assert h[..1] + [h[1]] == h[..2];
    doc.Draw(Text("URL: " + url, 38));
    ExtendTwice(before, doc.current, h[..2], [h[2]]);
    assert h[..2] + [h[2]] == h[..3];
    doc.Draw(Text("Generated: " + generatedAt, 44));
    ExtendTwice(before, doc.current, h[..3], [h[3]]);
    assert h[..3] + [h[3]] == h;
  }

  /**
   * `exportAnalysisPDF`: lay out the report and name the file. The current
   * date is the input `generatedAt`; saving the file is not modelled.
   */
  method ExportAnalysisPdf(url: string, generatedAt: string,
                           mobile: Option<AnalysisResults>, desktop: Option<AnalysisResults>)
    returns (doc: Doc, fileName: string)
    ensures fresh(doc) && doc.Valid()
    ensures doc.pages == Report(url, generatedAt, mobile, desktop)
    ensures fileName == FileName(url)
  {
    doc := new Doc();
    DrawHeader(doc, url, generatedAt);
    assert doc.pages[0] == HeaderMarks(url, generatedAt);
    assert doc.pages == [HeaderMarks(url, generatedAt)];

    var y := FirstSectionY;
    if mobile.Some? {
      y := DrawScoreSection(doc, "Mobile", mobile.value, y);
    }
    ghost var first := HeaderMarks(url, generatedAt)
      + (if mobile.Some? then SectionMarks("Mobile", mobile.value, FirstSectionY) else []);
    assert doc.pages[0] == first;
    assert doc.pages == [first];
    assert y == CursorAfterMobile(mobile);

    if desktop.Some? {
      if y > PageBreakY {
        doc.AddPage();
        y := TopY;
        y := DrawScoreSection(doc, "Desktop", desktop.value, y);
        assert doc.pages[1] == SectionMarks("Desktop", desktop.value, TopY);
        assert doc.pages == [first, SectionMarks("Desktop", desktop.value, TopY)];
      } else {
        y := DrawScoreSection(doc, "Desktop", desktop.value, y);
        assert doc.pages[0] == first + SectionMarks("Desktop", desktop.value, CursorAfterMobile(mobile));
      }
    }
    assert doc.pages == Content(url, generatedAt, mobile, desktop);

    StampFooters(doc);
    fileName := FileName(url);
  }

  // ------------------------------------------------------ page properties

  /** A section draws no footer. */
  lemma SectionHasNoFooter(title: string, results: AnalysisResults, startY: int)
    ensures forall m :: m in SectionMarks(title, results, startY) ==> !IsFooter(m)
  {
    SectionParts(title, results, startY);
  }

  /** Before the footer pass no page carries a footer. */
  lemma ContentHasNoFooter(url: string, generatedAt: string,
                           mobile: Option<AnalysisResults>, desktop: Option<AnalysisResults>)
    ensures forall page, m :: page in Content(url, generatedAt, mobile, desktop) && m in page ==> !IsFooter(m)
  {
    if mobile.Some? {
      SectionHasNoFooter("Mobile", mobile.value, FirstSectionY);
    }
    if desktop.Some? {
      SectionHasNoFooter("Desktop", desktop.value, TopY);
      SectionHasNoFooter("Desktop", desktop.value, CursorAfterMobile(mobile));
    }
  }

  /** Page i (from 1) of a report of n pages carries exactly one footer, and it reads "Page i of n". */
  lemma FootersStampEveryPageOnce(url: string, generatedAt: string,
                                  mobile: Option<AnalysisResults>, desktop: Option<AnalysisResults>, i: nat)
    requires 1 <= i <= |Report(url, generatedAt, mobile, desktop)|
    ensures var pages := Report(url, generatedAt, mobile, desktop);
      Filter(pages[i - 1], IsFooter) == [Footer(i, |pages|)]
  {
    var content := Content(url, generatedAt, mobile, desktop);
    var page := content[i - 1];
    ContentHasNoFooter(url, generatedAt, mobile, desktop);
    assert page in content;
    assert Report(url, generatedAt, mobile, desktop)[i - 1] == page + [Footer(i, |content|)] + [];
    FilterKeepsMiddle(page, [Footer(i, |content|)], [], IsFooter);
  }

  // ------------------------------------------------------------ file name

  function IsAsciiAlphanumeric(c: char): bool {
    ('a' <= c <= 'z') || ('A' <= c <= 'Z') || ('0' <= c <= '9')
  }

  /** Length of an `http://` or `https://` (the regex `https?:\/\/`) starting at `p`, or 0 when none does. */
  function SchemeAt(s: string, p: nat): (n: nat)
    requires p <= |s|
    ensures n == 0 || n == 7 || n == 8
    ensures n > 0 ==> p + n <= |s|
    ensures n == 8 <==> "https://" <= s[p..]
    ensures n == 7 <==> "http://" <= s[p..]
  {
    if "https://" <= s[p..] then
      assert s[p..][4] == 's' != "http://"[4];
      8
    else if "http://" <= s[p..] then 7
    else 0
  }

  /** The leftmost position at or after `from` where the scheme pattern matches. */
  function FirstScheme(s: string, from: nat): (r: Option<nat>)
    requires from <= |s|
    ensures r.None? ==> forall q :: from <= q <= |s| ==> SchemeAt(s, q) == 0
    ensures r.Some? ==> from <= r.value <= |s| && SchemeAt(s, r.value) > 0
    ensures r.Some? ==> forall q :: from <= q < r.value ==> SchemeAt(s, q) == 0
    decreases |s| - from
  {
    if SchemeAt(s, from) > 0 then Some(from)
    else if from == |s| then None
    else FirstScheme(s, from + 1)
  }

  /** `url.replace(/https?:\/\//, "")`: remove the leftmost match only. */
  function StripScheme(s: string): (r: string)
    ensures FirstScheme(s, 0).None? ==> r == s
    ensures FirstScheme(s, 0).Some? ==>
      var p := FirstScheme(s, 0).value;
      |r| == |s| - SchemeAt(s, p) && r == s[..p] + s[p + SchemeAt(s, p)..]
  {
    match FirstScheme(s, 0)
    case None => s
    case Some(p) => s[..p] + s[p + SchemeAt(s, p)..]
  }

  /** `.replace(/[^a-zA-Z0-9]/g, "_")`: every other character becomes an underscore. */
  function Underscored(s: string): (r: string)
    ensures |r| == |s|
    ensures forall i :: 0 <= i < |s| && IsAsciiAlphanumeric(s[i]) ==> r[i] == s[i]
    ensures forall i :: 0 <= i < |s| && !IsAsciiAlphanumeric(s[i]) ==> r[i] == '_'
  {
    seq(|s|, i requires 0 <= i < |s| => if IsAsciiAlphanumeric(s[i]) then s[i] else '_')
  }

  /** The URL as it appears in the file name. */
  function Sanitize(url: string): (r: string)
    ensures forall c :: c in r ==> IsAsciiAlphanumeric(c) || c == '_'
    ensures |r| == |StripScheme(url)|
  {
    Underscored(StripScheme(url))
  }

  /**
   * `pagespeed_report_<sanitized>.pdf`: the name ends in `.pdf`, carries the
   * stripped URL's length in between, and uses only letters, digits and `_`
   * before its suffix.
   */
  function FileName(url: string): (name: string)
    ensures |name| == 21 + |StripScheme(url)|
    ensures name[..17] == "pagespeed_report_" && name[|name| - 4..] == ".pdf"
    ensures forall i :: 0 <= i < |name| - 4 ==> IsAsciiAlphanumeric(name[i]) || name[i] == '_'
  {
    var prefix, sanitized, suffix := "pagespeed_report_", Sanitize(url), ".pdf";
    var name := prefix + sanitized + suffix;
    assert |prefix| == 17 && |suffix| == 4;
    assert name[..17] == prefix && name[|name| - 4..] == suffix;
    SafeCharacters(prefix, sanitized, name);
    name
  }

  /** Letters, digits and `_` before the suffix: those of the prefix, then those of the sanitized URL. */
  lemma SafeCharacters(prefix: string, sanitized: string, name: string)
    requires forall c :: c in prefix ==> IsAsciiAlphanumeric(c) || c == '_'
    requires forall c :: c in sanitized ==> IsAsciiAlphanumeric(c) || c == '_'
    requires |prefix| + |sanitized| <= |name| && name[..|prefix| + |sanitized|] == prefix + sanitized
    ensures forall i :: 0 <= i < |prefix| + |sanitized| ==> IsAsciiAlphanumeric(name[i]) || name[i] == '_'
  {
    forall i | 0 <= i < |prefix| + |sanitized| ensures IsAsciiAlphanumeric(name[i]) || name[i] == '_' {
      assert name[i] == (prefix + sanitized)[i];
      if i < |prefix| {
        assert prefix[i] in prefix;
      } else {
        assert sanitized[i - |prefix|] in sanitized;
      }
    }
  }

  /** Underscoring is idempotent: a sanitized name sanitizes to itself. */
  lemma UnderscoredIdempotent(s: string)
    ensures Underscored(Underscored(s)) == Underscored(s)
  {
  }

  /** Only the first scheme is removed: one that the removal brings together survives it. */
  lemma StripSchemeIsNotGlobal()
    ensures StripScheme("hthttp://tp://x") == "http://x"
  {
    var s := "hthttp://tp://x";
    assert s[0..][2] == 'h' && s[1..][0] == 't';
    assert SchemeAt(s, 0) == 0 && SchemeAt(s, 1) == 0;
    assert SchemeAt(s, 2) == 7;
    assert FirstScheme(s, 2) == Some(2);
    assert FirstScheme(s, 1) == Some(2);
    assert FirstScheme(s, 0) == Some(2);
    var r := StripScheme(s);
    assert r == s[..2] + s[9..] && |r| == 8;
    assert forall k :: 0 <= k < 8 ==> r[k] == "http://x"[k];
  }
}
