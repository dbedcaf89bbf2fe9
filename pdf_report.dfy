/**
  The PDF export of the review (`handleDownloadPDF`, src/App.jsx): a title and a date
  line, then seven sections laid out top to bottom with a moving cursor that starts a
  new page once it has gone past 260, and finally a footer stamped on every page.
  The document is recorded as the drawing operations each page receives; text
  wrapping (`splitTextToSize`) is a parameter.
*/
module PdfReport {
  import opened Wrappers
  import opened JsString
  import opened JsValue
  import Normalizer

  const Left := 15
  const Top := 20
  const PageBreakAfter := 260
  const FooterY := 290
  const SectionWidth := 180
  const ReportTitle := "AI Code Review Report"
  const FooterText := "Developed by pd"
  const Placeholder := "\U{2014}"
  const FailureMessage := "Failed to generate PDF (jspdf error)."

  /** The drawing calls the report makes, with their coordinates. */
  datatype DrawOp =
    | TextOp(s: string, x: int, y: int)
    | LinesOp(lines: seq<string>, x: int, y: int)
    | RectOp(x: int, y: int, w: int, h: int)

  /** The drawing operations of one page, in the order they were made. */
  type Page = seq<DrawOp>

  /** The document of jsPDF: its pages and the page the next drawing call goes to (1-based). */
  class PdfDocument {
    var pages: seq<Page>
    var current: nat

    ghost predicate Valid()
      reads this
    {
      1 <= current <= |pages|
    }

    /** `new jsPDF()`: one empty page, which is current. */
    constructor ()
      ensures Valid() && pages == [[]] && current == 1
    {
      pages := [[]];
      current := 1;
    }

    /** `doc.addPage()`: an empty page at the end, which becomes current. */
    method AddPage()
      modifies this
      requires Valid()
      ensures Valid() && pages == old(pages) + [[]] && current == |pages|
    {
      pages := pages + [[]];
      current := |pages|;
    }

    /** `doc.setPage(n)`. */
    method SetPage(n: nat)
      modifies this
      requires Valid() && 1 <= n <= |pages|
      ensures Valid() && pages == old(pages) && current == n
    {
      current := n;
    }

    /** `doc.getNumberOfPages()`. */
    function NumberOfPages(): (n: nat)
      reads this
      requires Valid()
      ensures n >= 1 && n == |pages|
    {
      |pages|
    }

    /** Records one drawing call on the current page. */
    method Draw(op: DrawOp)
      modifies this
      requires Valid()
      ensures Valid() && current == old(current)
      ensures pages == old(pages)[current - 1 := old(pages)[current - 1] + [op]]
    {
      pages := pages[current - 1 := pages[current - 1] + [op]];
    }

    /** `doc.text(s, x, y)`. */
    method Text(s: string, x: int, y: int)
      modifies this
      requires Valid()
      ensures Valid() && current == old(current)
      ensures pages == old(pages)[current - 1 := old(pages)[current - 1] + [TextOp(s, x, y)]]
    {
      Draw(TextOp(s, x, y));
    }

    /** `doc.text(lines, x, y)` with an array of lines. */
    method TextLines(lines: seq<string>, x: int, y: int)
      modifies this
      requires Valid()
      ensures Valid() && current == old(current)
      ensures pages == old(pages)[current - 1 := old(pages)[current - 1] + [LinesOp(lines, x, y)]]
    {
      Draw(LinesOp(lines, x, y));
    }

    /** `doc.rect(x, y, w, h, 'F')`. */
    method Rect(x: int, y: int, w: int, h: int)
      modifies this
      requires Valid()
      ensures Valid() && current == old(current)
      ensures pages == old(pages)[current - 1 := old(pages)[current - 1] + [RectOp(x, y, w, h)]]
    {
      Draw(RectOp(x, y, w, h));
    }
  }

  /* ---------- Section bodies ---------- */

  /** A section: its heading and its body text. */
  datatype Section = Section(title: string, body: string)

  const SectionTitles: seq<string> := [
    "Summary", "Security Score", "Structure & Readability Score",
    "Space/Performance Optimization Score", "Strengths", "Issues", "Suggestions"]

  /**
    Line 87: `analysis.summary || '—'`, as the text that is wrapped (`String(v)`);
    `None` when that conversion throws.
  */
  function SummaryBody(analysis: map<string, Json>): (r: Option<string>)
    ensures !Truthy(Normalizer.Get(analysis, "summary")) ==> r == Some(Placeholder)
    ensures r.None? <==> Truthy(Normalizer.Get(analysis, "summary")) && ThrowsOnToString(analysis["summary"])
    ensures "summary" in analysis && analysis["summary"].JString? && analysis["summary"].s != "" ==>
      r == Some(analysis["summary"].s)
  {
    var v := Normalizer.Get(analysis, "summary");
    if Truthy(v) then ToString(v.value) else Some(Placeholder)
  }

  /**
    Lines 88-90: `${analysis.scores[key]}/100`; `None` when `analysis.scores` is
    `undefined` or `null`, where the property read throws a TypeError, and when
    converting the score to a string throws.
  */
  function ScoreBody(analysis: map<string, Json>, key: string): (r: Option<string>)
    ensures r.None? <==>
      || "scores" !in analysis || analysis["scores"].JNull?
      || (analysis["scores"].JObject? && key in analysis["scores"].props
          && ThrowsOnToString(analysis["scores"].props[key]))
    ensures r.Some? ==> EndsWith(r.value, "/100")
  {
    var scores := Normalizer.Get(analysis, "scores");
    if scores.None? || scores.value.JNull? then None
    else
      var score := if scores.value.JObject? then Normalizer.Get(scores.value.props, key) else None;
      match PropertyString(score)
      case None => None
      case Some(shown) =>
        var text := shown + "/100";
        assert text[|text| - 4..] == "/100";
        Some(text)
  }

  /**
    Lines 91-93: `(analysis[key] && analysis[key].join('\n')) || '—'`; `None` when the
    value is truthy but not an array, which has no callable `join` (a TypeError), and
    when converting one of its elements throws.
  */
  function ListBody(analysis: map<string, Json>, key: string): (r: Option<string>)
    ensures r.None? <==>
      Truthy(Normalizer.Get(analysis, key)) && (!analysis[key].JArray? || ThrowsOnToString(analysis[key]))
    ensures r.Some? ==> r.value != []
    ensures key in analysis && analysis[key].JArray? && analysis[key].items == [] ==> r == Some(Placeholder)
  {
    var v := Normalizer.Get(analysis, key);
    if !Truthy(v) then Some(Placeholder)
    else if v.value.JArray? then
      match JoinItems(v.value.items, "\n")
      case None => None
      case Some(joined) => Some(if joined == [] then Placeholder else joined)
    else None
  }

  /** A list whose join is empty (`[""]` or `[null]`) also shows the placeholder. */
  lemma BlankListShowsPlaceholder(analysis: map<string, Json>, key: string, item: Json)
    requires key in analysis && analysis[key] == JArray([item])
    requires item.JNull? || item == JString("")
    ensures ListBody(analysis, key) == Some(Placeholder)
  {
    assert JoinItems([item], "\n") == Some([]);
  }

  /** A list with a non-empty join shows its items, one per line. */
  lemma ListShowsItems(analysis: map<string, Json>, key: string)
    requires key in analysis && analysis[key].JArray?
    requires JoinItems(analysis[key].items, "\n").Some? && JoinItems(analysis[key].items, "\n").value != []
    ensures ListBody(analysis, key) == JoinItems(analysis[key].items, "\n")
    ensures |analysis[key].items| >= 1
  {
  }

  /** Lines 87-90: the summary and the three score sections, or `None` when building one of them throws. */
  function LeadingSections(analysis: map<string, Json>): (r: Option<seq<Section>>)
    ensures r.Some? <==>
      && SummaryBody(analysis).Some?
      && ScoreBody(analysis, "security").Some?
      && ScoreBody(analysis, "structure_readability").Some?
      && ScoreBody(analysis, "space_performance_optimization").Some?
    ensures r.Some? ==> |r.value| == 4 && forall i :: 0 <= i < 4 ==> r.value[i].title == SectionTitles[i]
  {
    var summary := SummaryBody(analysis);
    var security := ScoreBody(analysis, "security");
    var structure := ScoreBody(analysis, "structure_readability");
    var space := ScoreBody(analysis, "space_performance_optimization");
    if summary.None? || security.None? || structure.None? || space.None? then None
    else
      Some([
        Section("Summary", summary.value),
        Section("Security Score", security.value),
        Section("Structure & Readability Score", structure.value),
        Section("Space/Performance Optimization Score", space.value)])
  }

  /** Lines 91-93: the three list sections, or `None` when one of the lists throws. */
  function ListSections(analysis: map<string, Json>): (r: Option<seq<Section>>)
    ensures r.Some? <==>
      && ListBody(analysis, "strengths").Some?
      && ListBody(analysis, "issues").Some?
      && ListBody(analysis, "suggestions").Some?
    ensures r.Some? ==> |r.value| == 3 && forall i :: 0 <= i < 3 ==> r.value[i].title == SectionTitles[i + 4]
  {
    var strengths := ListBody(analysis, "strengths");
    var issues := ListBody(analysis, "issues");
    var suggestions := ListBody(analysis, "suggestions");
    if strengths.None? || issues.None? || suggestions.None? then None
    else
      Some([
        Section("Strengths", strengths.value),
        Section("Issues", issues.value),
        Section("Suggestions", suggestions.value)])
  }

  /** The seven sections of lines 87-93, or `None` when building one of them throws. */
  function Sections(analysis: map<string, Json>): (r: Option<seq<Section>>)
    ensures r.Some? <==> LeadingSections(analysis).Some? && ListSections(analysis).Some?
    ensures r.Some? ==> |r.value| == 7 && forall i :: 0 <= i < 7 ==> r.value[i].title == SectionTitles[i]
  {
    match (LeadingSections(analysis), ListSections(analysis))
    case (Some(leading), Some(lists)) =>
      var all := leading + lists;
      assert forall i :: 4 <= i < 7 ==> all[i] == lists[i - 4];
      Some(all)
    case _ => None
  }

  /* ---------- Layout ---------- */

  /** The pages drawn so far and the cursor `y`. */
  datatype Layout = Layout(pages: seq<Page>, y: int)

  /** Lines 67-72: the title at 20, the date line at 30, and the cursor left at 42. */
  function Header(now: string): (r: Layout)
    ensures r.y == 42 && |r.pages| == 1 && |r.pages[0]| == 2
    ensures forall op :: op in r.pages[0] ==> op.TextOp? && op.y < r.y
  {
    Layout([[TextOp(ReportTitle, Left + 40, Top), TextOp("Date: " + now, Left + 40, Top + 10)]], Top + 10 + 12)
  }

  /** Lines 76-83: the shaded heading bar, the heading and the wrapped body. */
  function SectionOps(title: string, lines: seq<string>, y: int): (r: Page)
    ensures |r| == 3 && r[0] == RectOp(Left, y, SectionWidth, 8)
    ensures forall i :: 1 <= i < |r| ==> !r[i].RectOp? && r[i].y > y
    ensures FooterOp !in r
  {
    [RectOp(Left, y, SectionWidth, 8), TextOp(title, Left + 2, y + 6), LinesOp(lines, Left, y + 12)]
  }

  function AppendToLast(pages: seq<Page>, ops: Page): (r: seq<Page>)
    requires |pages| > 0
    ensures |r| == |pages| && r[..|r| - 1] == pages[..|pages| - 1] && r[|r| - 1] == pages[|pages| - 1] + ops
  {
    pages[|pages| - 1 := pages[|pages| - 1] + ops]
  }

  /** Lines 73-86: `addSection` on the last page; past 260 a page is added and the cursor goes back to 20. */
  function PlaceSection(l: Layout, title: string, lines: seq<string>): (r: Layout)
    requires |l.pages| > 0
    ensures |l.pages| <= |r.pages| <= |l.pages| + 1
  {
    var pages := AppendToLast(l.pages, SectionOps(title, lines, l.y));
    var y := l.y + 12 + |lines| * 6 + 6;
    if y > PageBreakAfter then Layout(pages + [[]], Top) else Layout(pages, y)
  }

  /** The sections placed one after the other, the last one last. */
  function PlaceSections(l: Layout, secs: seq<Section>, wrap: string -> seq<string>): (r: Layout)
    requires |l.pages| > 0
    ensures |l.pages| <= |r.pages| <= |l.pages| + |secs|
  {
    if secs == [] then l
    else
      var last := secs[|secs| - 1];
      PlaceSection(PlaceSections(l, secs[..|secs| - 1], wrap), last.title, wrap(last.body))
  }

  const FooterOp := TextOp(FooterText, Left, FooterY)

  lemma PlaceSectionsSnoc(l: Layout, secs: seq<Section>, s: Section, wrap: string -> seq<string>)
    requires |l.pages| > 0
    ensures PlaceSections(l, secs + [s], wrap) == PlaceSection(PlaceSections(l, secs, wrap), s.title, wrap(s.body))
  {
    assert (secs + [s])[..|secs|] == secs;
  }

  /** Placing two runs of sections is placing their concatenation. */
  lemma {:induction false} PlaceSectionsAppend(l: Layout, first: seq<Section>, second: seq<Section>, wrap: string -> seq<string>)
    requires |l.pages| > 0
    ensures PlaceSections(l, first + second, wrap) == PlaceSections(PlaceSections(l, first, wrap), second, wrap)
    decreases |second|
  {
    if second == [] {
      assert first + second == first;
    } else {
      var init := second[..|second| - 1];
      var last := second[|second| - 1];
      assert first + second == (first + init) + [last];
      assert second == init + [last];
      PlaceSectionsAppend(l, first, init, wrap);
      PlaceSectionsSnoc(l, first + init, last, wrap);
      PlaceSectionsSnoc(PlaceSections(l, first, wrap), init, last, wrap);
    }
  }

  /** Lines 94-99: every page gets the footer as its last drawing. */
  function WithFooters(pages: seq<Page>): (r: seq<Page>)
    ensures |r| == |pages|
    ensures forall i :: 0 <= i < |r| ==> r[i] == pages[i] + [FooterOp]
  {
    seq(|pages|, i requires 0 <= i < |pages| => pages[i] + [FooterOp])
  }

  /** What `handleDownloadPDF` ends in. */
  datatype Outcome =
    | NotRequested
    | Failed(message: string)
    | Saved(pages: seq<Page>)

  /** The report for `analysis` (`None` is `null`), with `now` the date text and `wrap` the line wrapping. */
  function Report(analysis: Option<map<string, Json>>, now: string, wrap: string -> seq<string>): (r: Outcome)
    ensures r == NotRequested <==> analysis.None?
    ensures r.Saved? <==> analysis.Some? && Sections(analysis.value).Some?
    ensures r.Failed? ==> r.message == FailureMessage
    ensures r.Saved? ==> 1 <= |r.pages| <= 1 + 7
  {
    match analysis
    case None => NotRequested
    case Some(a) =>
      match Sections(a)
      case None => Failed(FailureMessage)
      case Some(secs) => Saved(Render(secs, now, wrap))
  }

  /** Lines 67-99 once the sections are built: the header, the sections in order, then the footers. */
  function Render(secs: seq<Section>, now: string, wrap: string -> seq<string>): (r: seq<Page>)
    ensures 1 <= |r| <= 1 + |secs|
  {
    WithFooters(PlaceSections(Header(now), secs, wrap).pages)
  }

  /* ---------- Properties of the layout ---------- */

  /** The cursor alone, section by section: where it ends and how many times it went past 260. */
  function CursorRun(y: int, secs: seq<Section>, wrap: string -> seq<string>): (r: (int, nat))
  {
    if secs == [] then (y, 0)
    else
      var before := CursorRun(y, secs[..|secs| - 1], wrap);
      var after := before.0 + 12 + 6 * |wrap(secs[|secs| - 1].body)| + 6;
      if after > PageBreakAfter then (Top, before.1 + 1) else (after, before.1)
  }

  /** One page is added for each time the cursor goes past 260, and for nothing else. */
  lemma {:induction false} PageCount(l: Layout, secs: seq<Section>, wrap: string -> seq<string>)
    requires |l.pages| > 0
    ensures PlaceSections(l, secs, wrap).y == CursorRun(l.y, secs, wrap).0
    ensures |PlaceSections(l, secs, wrap).pages| == |l.pages| + CursorRun(l.y, secs, wrap).1
  {
    if secs != [] {
      PageCount(l, secs[..|secs| - 1], wrap);
    }
  }

  /** Every heading bar is drawn with its top between 20 and 260. */
  ghost predicate BarsWithin(pages: seq<Page>) {
    forall i, j :: 0 <= i < |pages| && 0 <= j < |pages[i]| && pages[i][j].RectOp? ==>
      Top <= pages[i][j].y <= PageBreakAfter
  }

  lemma PlaceSectionBars(l: Layout, title: string, lines: seq<string>)
    requires |l.pages| > 0 && Top <= l.y <= PageBreakAfter && BarsWithin(l.pages)
    ensures Top <= PlaceSection(l, title, lines).y <= PageBreakAfter
    ensures BarsWithin(PlaceSection(l, title, lines).pages)
  {
    var ops := SectionOps(title, lines, l.y);
    var pages: seq<Page> := AppendToLast(l.pages, ops);
    var last := |pages| - 1;
    forall i: int, j: int | 0 <= i < |pages| && 0 <= j < |pages[i]| && pages[i][j].RectOp?
      ensures Top <= pages[i][j].y <= PageBreakAfter
    {
      if i == last && j >= |l.pages[last]| {
        assert pages[i][j] == ops[j - |l.pages[last]|];
      } else {
        assert pages[i][j] == l.pages[i][j];
      }
    }
  }

  /** The cursor stays in [20, 260] between sections, so no section starts below 260. */
  lemma {:induction false} BarsStayOnPage(l: Layout, secs: seq<Section>, wrap: string -> seq<string>)
    requires |l.pages| > 0 && Top <= l.y <= PageBreakAfter && BarsWithin(l.pages)
    ensures Top <= PlaceSections(l, secs, wrap).y <= PageBreakAfter
    ensures BarsWithin(PlaceSections(l, secs, wrap).pages)
  {
    if secs != [] {
      var last := secs[|secs| - 1];
      BarsStayOnPage(l, secs[..|secs| - 1], wrap);
      PlaceSectionBars(PlaceSections(l, secs[..|secs| - 1], wrap), last.title, wrap(last.body));
    }
  }

  /** No drawing of the content pass is the footer. */
  ghost predicate NoFooter(pages: seq<Page>) {
    forall i :: 0 <= i < |pages| ==> FooterOp !in pages[i]
  }

  lemma {:induction false} NoFooterInSections(l: Layout, secs: seq<Section>, wrap: string -> seq<string>)
    requires |l.pages| > 0 && NoFooter(l.pages)
    ensures NoFooter(PlaceSections(l, secs, wrap).pages)
  {
    if secs != [] {
      var last := secs[|secs| - 1];
      var before := PlaceSections(l, secs[..|secs| - 1], wrap);
      NoFooterInSections(l, secs[..|secs| - 1], wrap);
      var ops := SectionOps(last.title, wrap(last.body), before.y);
      assert FooterOp !in ops;
      var pages := AppendToLast(before.pages, ops);
      forall i | 0 <= i < |pages|
        ensures FooterOp !in pages[i]
      {
        if i == |pages| - 1 {
          assert pages[i] == before.pages[i] + ops;
        }
      }
    }
  }

  /** After the footer pass every page holds the footer exactly once, as its last drawing. */
  lemma FooterOncePerPage(pages: seq<Page>)
    requires NoFooter(pages)
    ensures forall i :: 0 <= i < |pages| ==>
      && multiset(WithFooters(pages)[i])[FooterOp] == 1
      && WithFooters(pages)[i][|WithFooters(pages)[i]| - 1] == FooterOp
  {
    forall i | 0 <= i < |pages|
      ensures multiset(WithFooters(pages)[i])[FooterOp] == 1
    {
      assert multiset(pages[i] + [FooterOp]) == multiset(pages[i]) + multiset{FooterOp};
    }
  }

  /** The section headings drawn on a page (the texts at x = 17), in drawing order. */
  function HeadingsOf(ops: Page): seq<string> {
    if ops == [] then []
    else
      var op := ops[|ops| - 1];
      HeadingsOf(ops[..|ops| - 1]) + (if op.TextOp? && op.x == Left + 2 then [op.s] else [])
  }

  /** The section headings of the whole document, page after page. */
  function Headings(pages: seq<Page>): seq<string> {
    if pages == [] then [] else Headings(pages[..|pages| - 1]) + HeadingsOf(pages[|pages| - 1])
  }

  function Titles(secs: seq<Section>): (r: seq<string>)
    ensures |r| == |secs| && forall i :: 0 <= i < |secs| ==> r[i] == secs[i].title
  {
    seq(|secs|, i requires 0 <= i < |secs| => secs[i].title)
  }

  lemma {:induction false} HeadingsOfAppend(a: Page, b: Page)
    ensures HeadingsOf(a + b) == HeadingsOf(a) + HeadingsOf(b)
    decreases |b|
  {
    if b == [] {
      assert a + b == a;
    } else {
      assert (a + b)[..|a + b| - 1] == a + b[..|b| - 1];
      HeadingsOfAppend(a, b[..|b| - 1]);
    }
  }

  lemma HeadingsOfLast(init: seq<Page>, page: Page)
    ensures Headings(init + [page]) == Headings(init) + HeadingsOf(page)
  {
    assert (init + [page])[..|init|] == init;
  }

  /** The drawings of one section hold one heading, its title. */
  lemma SectionHeading(title: string, lines: seq<string>, y: int)
    ensures HeadingsOf(SectionOps(title, lines, y)) == [title]
  {
    var ops := SectionOps(title, lines, y);
    assert ops[..2] == [ops[0], ops[1]];
    assert ops[..2][..1] == [ops[0]];
    assert ops[..2][..1][..0] == [];
    assert HeadingsOf([ops[0]]) == [];
    assert HeadingsOf(ops[..2]) == [title];
  }

  /** A section adds exactly its heading to the document's headings. */
  lemma PlaceSectionHeadings(l: Layout, title: string, lines: seq<string>)
    requires |l.pages| > 0
    ensures Headings(PlaceSection(l, title, lines).pages) == Headings(l.pages) + [title]
  {
    var ops := SectionOps(title, lines, l.y);
    var init := l.pages[..|l.pages| - 1];
    var page := l.pages[|l.pages| - 1];
    assert l.pages == init + [page];
    assert AppendToLast(l.pages, ops) == init + [page + ops];
    HeadingsOfLast(init, page);
    HeadingsOfLast(init, page + ops);
    HeadingsOfAppend(page, ops);
    SectionHeading(title, lines, l.y);
    HeadingsOfLast(AppendToLast(l.pages, ops), []);
  }

  /** The headings come out in the order of the sections. */
  lemma {:induction false} HeadingsInOrder(l: Layout, secs: seq<Section>, wrap: string -> seq<string>)
    requires |l.pages| > 0
    ensures Headings(PlaceSections(l, secs, wrap).pages) == Headings(l.pages) + Titles(secs)
  {
    if secs == [] {
      assert Headings(l.pages) + Titles(secs) == Headings(l.pages);
    } else {
      var init := secs[..|secs| - 1];
      var last := secs[|secs| - 1];
      HeadingsInOrder(l, init, wrap);
      PlaceSectionHeadings(PlaceSections(l, init, wrap), last.title, wrap(last.body));
      assert Titles(secs) == Titles(init) + [last.title];
    }
  }

  /** The footers add no heading. */
  lemma {:induction false} HeadingsIgnoreFooters(pages: seq<Page>)
    ensures Headings(WithFooters(pages)) == Headings(pages)
  {
    if pages != [] {
      var init := pages[..|pages| - 1];
      var page := pages[|pages| - 1];
      HeadingsIgnoreFooters(init);
      assert WithFooters(pages) == WithFooters(init) + [page + [FooterOp]];
      HeadingsOfLast(WithFooters(init), page + [FooterOp]);
      HeadingsOfAppend(page, [FooterOp]);
      assert [FooterOp][..0] == [];
    }
  }

  /** After at least one section, the last page is empty exactly when the cursor went back to 20. */
  lemma {:induction false} TrailingEmptyPage(l: Layout, secs: seq<Section>, wrap: string -> seq<string>)
    requires |l.pages| > 0 && Top <= l.y <= PageBreakAfter && BarsWithin(l.pages) && secs != []
    ensures var r := PlaceSections(l, secs, wrap);
      r.pages[|r.pages| - 1] == [] <==> r.y == Top
  {
    BarsStayOnPage(l, secs[..|secs| - 1], wrap);
  }

  /** Placing sections only ever adds drawings after the ones there are. */
  lemma {:induction false} PagesOnlyGrow(l: Layout, secs: seq<Section>, wrap: string -> seq<string>)
    requires |l.pages| > 0
    ensures |l.pages| <= |PlaceSections(l, secs, wrap).pages|
    ensures forall i :: 0 <= i < |l.pages| ==> l.pages[i] <= PlaceSections(l, secs, wrap).pages[i]
  {
    if secs != [] {
      var last := secs[|secs| - 1];
      var before := PlaceSections(l, secs[..|secs| - 1], wrap);
      PagesOnlyGrow(l, secs[..|secs| - 1], wrap);
      var after := PlaceSection(before, last.title, wrap(last.body));
      forall i | 0 <= i < |l.pages|
        ensures l.pages[i] <= after.pages[i]
      {
        assert before.pages[i] <= after.pages[i];
      }
    }
  }

  /* ---------- The saved report ---------- */

  /** The cursor stands at 42 when the first section begins. */
  lemma HeaderLayout(now: string)
    ensures Headings(Header(now).pages) == [] && BarsWithin(Header(now).pages) && NoFooter(Header(now).pages)
  {
    var page := Header(now).pages[0];
    assert page[..1][..0] == [];
    assert HeadingsOf(page[..1]) == [];
    assert page[..1] == [page[0]];
    assert HeadingsOf(page) == [];
    HeadingsOfLast([], page);
    assert [] + [page] == Header(now).pages;
  }

  /** The rendered pages: one, plus one for every time the cursor went past 260. */
  lemma RenderedPageCount(secs: seq<Section>, now: string, wrap: string -> seq<string>)
    ensures |Render(secs, now, wrap)| == 1 + CursorRun(42, secs, wrap).1
  {
    PageCount(Header(now), secs, wrap);
  }

  /** The rendered headings are the section titles, in order. */
  lemma RenderedHeadings(secs: seq<Section>, now: string, wrap: string -> seq<string>)
    ensures Headings(Render(secs, now, wrap)) == Titles(secs)
  {
    var content := PlaceSections(Header(now), secs, wrap).pages;
    HeaderLayout(now);
    HeadingsInOrder(Header(now), secs, wrap);
    HeadingsIgnoreFooters(content);
  }

  /** Every rendered heading bar starts between 20 and 260. */
  lemma RenderedBars(secs: seq<Section>, now: string, wrap: string -> seq<string>)
    ensures BarsWithin(Render(secs, now, wrap))
  {
    var content := PlaceSections(Header(now), secs, wrap).pages;
    HeaderLayout(now);
    BarsStayOnPage(Header(now), secs, wrap);
    var pages: seq<Page> := WithFooters(content);
    forall i: int, j: int | 0 <= i < |pages| && 0 <= j < |pages[i]| && pages[i][j].RectOp?
      ensures Top <= pages[i][j].y <= PageBreakAfter
    {
      assert j < |content[i]|;
      assert pages[i][j] == content[i][j];
    }
  }

  /** Every rendered page carries the footer exactly once, as its last drawing. */
  lemma RenderedFooters(secs: seq<Section>, now: string, wrap: string -> seq<string>)
    ensures var pages := Render(secs, now, wrap);
      forall i :: 0 <= i < |pages| ==>
        multiset(pages[i])[FooterOp] == 1 && pages[i][|pages[i]| - 1] == FooterOp
  {
    HeaderLayout(now);
    NoFooterInSections(Header(now), secs, wrap);
    FooterOncePerPage(PlaceSections(Header(now), secs, wrap).pages);
  }

  /** After at least one section, the last rendered page holds only the footer exactly when the cursor went back to 20. */
  lemma RenderedTrailingPage(secs: seq<Section>, now: string, wrap: string -> seq<string>)
    requires secs != []
    ensures var pages := Render(secs, now, wrap);
      pages[|pages| - 1] == [FooterOp] <==> CursorRun(42, secs, wrap).0 == Top
  {
    var content := PlaceSections(Header(now), secs, wrap).pages;
    HeaderLayout(now);
    TrailingEmptyPage(Header(now), secs, wrap);
    PageCount(Header(now), secs, wrap);
    var last := content[|content| - 1];
    assert WithFooters(content)[|content| - 1] == last + [FooterOp];
    assert last + [FooterOp] == [FooterOp] <==> last == [] by {
      if last + [FooterOp] == [FooterOp] {
        assert |last| == 0;
      }
    }
  }

  /** The first section starts on page 1 at 42: its bar, then its heading 6 lower. */
  lemma RenderedFirstSection(secs: seq<Section>, now: string, wrap: string -> seq<string>)
    requires secs != []
    ensures var pages := Render(secs, now, wrap);
      && |pages[0]| >= 4
      && pages[0][2] == RectOp(Left, 42, SectionWidth, 8)
      && pages[0][3] == TextOp(secs[0].title, Left + 2, 48)
  {
    var first := PlaceSections(Header(now), [secs[0]], wrap);
    PlaceSectionsSnoc(Header(now), [], secs[0], wrap);
    assert [] + [secs[0]] == [secs[0]];
    assert first.pages[0][2] == RectOp(Left, 42, SectionWidth, 8);
    assert first.pages[0][3] == TextOp(secs[0].title, Left + 2, 48);
    PlaceSectionsAppend(Header(now), [secs[0]], secs[1..], wrap);
    assert [secs[0]] + secs[1..] == secs;
    PagesOnlyGrow(first, secs[1..], wrap);
    var content := PlaceSections(Header(now), secs, wrap).pages;
    assert first.pages[0] <= content[0];
    assert WithFooters(content)[0] == content[0] + [FooterOp];
  }

  /** A saved report has one page, plus one for every time the cursor went past 260. */
  lemma ReportPageCount(analysis: map<string, Json>, now: string, wrap: string -> seq<string>)
    requires Sections(analysis).Some?
    ensures |Report(Some(analysis), now, wrap).pages| == 1 + CursorRun(42, Sections(analysis).value, wrap).1
  {
    RenderedPageCount(Sections(analysis).value, now, wrap);
  }

  /** A saved report shows the seven headings, in order. */
  lemma ReportHeadings(analysis: map<string, Json>, now: string, wrap: string -> seq<string>)
    requires Sections(analysis).Some?
    ensures Headings(Report(Some(analysis), now, wrap).pages) == SectionTitles
  {
    var secs := Sections(analysis).value;
    RenderedHeadings(secs, now, wrap);
    assert Titles(secs) == SectionTitles;
  }

  /** In a saved report every heading bar starts between 20 and 260. */
  lemma ReportBars(analysis: map<string, Json>, now: string, wrap: string -> seq<string>)
    requires Sections(analysis).Some?
    ensures BarsWithin(Report(Some(analysis), now, wrap).pages)
  {
    RenderedBars(Sections(analysis).value, now, wrap);
  }

  /** In a saved report every page carries the footer exactly once, as its last drawing. */
  lemma ReportFooters(analysis: map<string, Json>, now: string, wrap: string -> seq<string>)
    requires Sections(analysis).Some?
    ensures var pages := Report(Some(analysis), now, wrap).pages;
      forall i :: 0 <= i < |pages| ==>
        multiset(pages[i])[FooterOp] == 1 && pages[i][|pages[i]| - 1] == FooterOp
  {
    RenderedFooters(Sections(analysis).value, now, wrap);
  }

  /** The last page of a saved report holds only the footer exactly when the last section ran past 260. */
  lemma ReportTrailingPage(analysis: map<string, Json>, now: string, wrap: string -> seq<string>)
    requires Sections(analysis).Some?
    ensures var pages := Report(Some(analysis), now, wrap).pages;
      pages[|pages| - 1] == [FooterOp] <==> CursorRun(42, Sections(analysis).value, wrap).0 == Top
  {
    RenderedTrailingPage(Sections(analysis).value, now, wrap);
  }

  /** The first section of a saved report, the summary, starts on page 1 at 42: its bar, then its heading. */
  lemma ReportFirstSection(analysis: map<string, Json>, now: string, wrap: string -> seq<string>)
    requires Sections(analysis).Some?
    ensures var pages := Report(Some(analysis), now, wrap).pages;
      && |pages[0]| >= 4
      && pages[0][2] == RectOp(Left, 42, SectionWidth, 8)
      && pages[0][3] == TextOp("Summary", Left + 2, 48)
  {
    RenderedFirstSection(Sections(analysis).value, now, wrap);
  }

  /**
    Every record the normaliser returns is saved as a report, each score written as
    `<n>/100`, unless converting its summary or an element of one of its lists throws.
  */
  lemma NormalizedRecordRenders(props: map<string, Json>, now: string, wrap: string -> seq<string>)
    requires Normalizer.IsAnalysisRecord(props)
    requires "summary" in props ==> !ThrowsOnToString(props["summary"])
    requires forall key :: key in Normalizer.ListKeys ==> !ThrowsOnToString(props[key])
    ensures Report(Some(props), now, wrap).Saved?
    ensures forall key :: key in Normalizer.ScoreKeys ==>
      && var n := props["scores"].props[key].mantissa;
      && n >= 0
      && ScoreBody(props, key) == Some(DecimalString(n) + "/100")
  {
    forall key | key in Normalizer.ScoreKeys
      ensures var n := props["scores"].props[key].mantissa;
        n >= 0 && ScoreBody(props, key) == Some(DecimalString(n) + "/100")
    {
      var score := props["scores"].props[key];
      NumberStringOfInteger(score.mantissa);
    }
    assert "security" in Normalizer.ScoreKeys;
    assert "structure_readability" in Normalizer.ScoreKeys;
    assert "space_performance_optimization" in Normalizer.ScoreKeys;
    assert "strengths" in Normalizer.ListKeys && "issues" in Normalizer.ListKeys && "suggestions" in Normalizer.ListKeys;
  }

  /** A list holding an element whose conversion throws makes the export fail, even on a normalised record. */
  lemma ThrowingListFails(props: map<string, Json>, key: string, now: string, wrap: string -> seq<string>)
    requires Normalizer.IsAnalysisRecord(props)
    requires key in Normalizer.ListKeys && ThrowsOnToString(props[key])
    ensures Report(Some(props), now, wrap) == Failed(FailureMessage)
  {
    assert ListBody(props, key).None?;
  }

  /* ---------- The imperative drawing ---------- */

  /** Lines 73-86: `addSection(title, body)` with the cursor passed in and out. */
  method AddSection(doc: PdfDocument, y: int, title: string, body: string, wrap: string -> seq<string>)
    returns (next: int)
    modifies doc
    requires doc.Valid() && doc.current == |doc.pages|
    ensures doc.Valid() && doc.current == |doc.pages|
    ensures Layout(doc.pages, next) == PlaceSection(Layout(old(doc.pages), y), title, wrap(body))
  {
    ghost var before := doc.pages;
    doc.Rect(Left, y, SectionWidth, 8);
    doc.Text(title, Left + 2, y + 6);
    next := y + 12;
    var lines := wrap(body);
    doc.TextLines(lines, Left, next);
    assert before[|before| - 1] + [RectOp(Left, y, SectionWidth, 8)] + [TextOp(title, Left + 2, y + 6)]
      + [LinesOp(lines, Left, next)] == before[|before| - 1] + SectionOps(title, lines, y);
    assert doc.pages == AppendToLast(before, SectionOps(title, lines, y));
    next := next + |lines| * 6 + 6;
    if next > PageBreakAfter {
      doc.AddPage();
      next := Top;
    }
  }

  /** Lines 94-99: the footer loop over pages 1 to `getNumberOfPages()`. */
  method StampFooters(doc: PdfDocument)
    modifies doc
    requires doc.Valid()
    ensures doc.Valid() && doc.pages == WithFooters(old(doc.pages))
    ensures doc.current == |doc.pages|
  {
    ghost var content := doc.pages;
    var pageCount := doc.NumberOfPages();
    var i := 1;
    while i <= pageCount
      invariant 1 <= i <= pageCount + 1
      invariant doc.Valid() && |doc.pages| == pageCount == |content|
      invariant forall k :: 0 <= k < i - 1 ==> doc.pages[k] == content[k] + [FooterOp]
      invariant forall k :: i - 1 <= k < pageCount ==> doc.pages[k] == content[k]
      invariant i > 1 ==> doc.current == i - 1
    {
      doc.SetPage(i);
      doc.Text(FooterText, Left, FooterY);
      i := i + 1;
    }
  }

  /** Placing three or four sections one after the other. */
  lemma PlaceThree(l: Layout, s0: Section, s1: Section, s2: Section, wrap: string -> seq<string>)
    requires |l.pages| > 0
    ensures PlaceSections(l, [s0, s1, s2], wrap)
         == PlaceSection(PlaceSection(PlaceSection(l, s0.title, wrap(s0.body)), s1.title, wrap(s1.body)), s2.title, wrap(s2.body))
  {
    PlaceSectionsSnoc(l, [], s0, wrap);
    assert [] + [s0] == [s0];
    PlaceSectionsSnoc(l, [s0], s1, wrap);
    assert [s0] + [s1] == [s0, s1];
    PlaceSectionsSnoc(l, [s0, s1], s2, wrap);
    assert [s0, s1] + [s2] == [s0, s1, s2];
  }

  lemma PlaceFour(l: Layout, s0: Section, s1: Section, s2: Section, s3: Section, wrap: string -> seq<string>)
    requires |l.pages| > 0
    ensures PlaceSections(l, [s0, s1, s2, s3], wrap) == PlaceSection(PlaceSections(l, [s0, s1, s2], wrap), s3.title, wrap(s3.body))
  {
    PlaceSectionsSnoc(l, [s0, s1, s2], s3, wrap);
    assert [s0, s1, s2] + [s3] == [s0, s1, s2, s3];
  }

  /** Lines 87-90: the summary and score sections, in order; `ok` is false when reading the scores throws. */
  method DrawLeadingSections(doc: PdfDocument, y: int, analysis: map<string, Json>, wrap: string -> seq<string>)
    returns (next: int, ok: bool)
    modifies doc
    requires doc.Valid() && doc.current == |doc.pages|
    ensures doc.Valid() && doc.current == |doc.pages|
    ensures ok <==> LeadingSections(analysis).Some?
    ensures ok ==> Layout(doc.pages, next) == PlaceSections(Layout(old(doc.pages), y), LeadingSections(analysis).value, wrap)
  {
    ghost var start := Layout(doc.pages, y);
    var summary := SummaryBody(analysis);
    if summary.None? {
      return y, false;
    }
    next := AddSection(doc, y, "Summary", summary.value, wrap);
    var security := ScoreBody(analysis, "security");
    if security.None? {
      return next, false;
    }
    next := AddSection(doc, next, "Security Score", security.value, wrap);
    var structure := ScoreBody(analysis, "structure_readability");
    if structure.None? {
      return next, false;
    }
    next := AddSection(doc, next, "Structure & Readability Score", structure.value, wrap);
    ghost var s0, s1, s2 := Section("Summary", summary.value), Section("Security Score", security.value),
      Section("Structure & Readability Score", structure.value);
    PlaceThree(start, s0, s1, s2, wrap);
    var space := ScoreBody(analysis, "space_performance_optimization");
    if space.None? {
      return next, false;
    }
    next := AddSection(doc, next, "Space/Performance Optimization Score", space.value, wrap);
    ghost var s3 := Section("Space/Performance Optimization Score", space.value);
    PlaceFour(start, s0, s1, s2, s3, wrap);
    assert LeadingSections(analysis).value == [s0, s1, s2, s3];
    ok := true;
  }

  /** Lines 91-93: the list sections, in order; `ok` is false when a list throws. */
  method DrawListSections(doc: PdfDocument, y: int, analysis: map<string, Json>, wrap: string -> seq<string>)
    returns (next: int, ok: bool)
    modifies doc
    requires doc.Valid() && doc.current == |doc.pages|
    ensures doc.Valid() && doc.current == |doc.pages|
    ensures ok <==> ListSections(analysis).Some?
    ensures ok ==> Layout(doc.pages, next) == PlaceSections(Layout(old(doc.pages), y), ListSections(analysis).value, wrap)
  {
    ghost var start := Layout(doc.pages, y);
    var strengths := ListBody(analysis, "strengths");
    if strengths.None? {
      return y, false;
    }
    next := AddSection(doc, y, "Strengths", strengths.value, wrap);
    var issues := ListBody(analysis, "issues");
    if issues.None? {
      return next, false;
    }
    next := AddSection(doc, next, "Issues", issues.value, wrap);
    var suggestions := ListBody(analysis, "suggestions");
    if suggestions.None? {
      return next, false;
    }
    next := AddSection(doc, next, "Suggestions", suggestions.value, wrap);
    ghost var s0, s1, s2 := Section("Strengths", strengths.value), Section("Issues", issues.value),
      Section("Suggestions", suggestions.value);
    PlaceThree(start, s0, s1, s2, wrap);
    assert ListSections(analysis).value == [s0, s1, s2];
    ok := true;
  }

  /** Lines 49-104: the drawing, in the order the source makes it. */
  method DownloadPdf(analysis: Option<map<string, Json>>, now: string, wrap: string -> seq<string>)
    returns (outcome: Outcome)
    ensures outcome == Report(analysis, now, wrap)
  {
    if analysis.None? {
      return NotRequested;
    }
    var a := analysis.value;
    var doc := new PdfDocument();
    var y := Top;
    doc.Text(ReportTitle, Left + 40, y);
    y := y + 10;
    doc.Text("Date: " + now, Left + 40, y);
    y := y + 12;
    assert [] + [TextOp(ReportTitle, Left + 40, Top)] + [TextOp("Date: " + now, Left + 40, Top + 10)]
      == Header(now).pages[0];
    assert Layout(doc.pages, y) == Header(now);
    var ok;
    y, ok := DrawLeadingSections(doc, y, a, wrap);
    if !ok {
      return Failed(FailureMessage);
    }
    ghost var middle := PlaceSections(Header(now), LeadingSections(a).value, wrap);
    y, ok := DrawListSections(doc, y, a, wrap);
    if !ok {
      return Failed(FailureMessage);
    }
    PlaceSectionsAppend(Header(now), LeadingSections(a).value, ListSections(a).value, wrap);
    StampFooters(doc);
    return Saved(doc.pages);
  }
}
