/** The outline pass of `PDFOutlineExtractor`: the title search over the
    page texts, the heading pass in reading order, and `extract_outline`,
    which chooses the title, stores it and then collects the headings.
    Text extraction and metadata reading are not modelled: the extracted
    pages and the raw metadata title are parameters. */
module Outline {
  import opened Text
  import opened Wrappers
  import opened Classifier

  /** One entry of `pages_text`: the text of a page and its number. */
  datatype Page = Page(text: string, number: nat)

  /** A stripped line of a page, with the number of that page. */
  datatype Line = Line(text: string, page: nat)

  /** One outline entry: `{"level", "text", "page"}`. */
  datatype Heading = Heading(level: Level, text: string, page: nat)

  /** The result of `extract_outline`: `{"title", "outline"}`. */
  datatype Document = Document(title: string, outline: seq<Heading>)

  /** The `ValueError` raised when no page has text. */
  datatype ExtractError = NoExtractableText

  const UntitledDocument: string := "Untitled Document"

  /** The lines of one page, `text.split('\n')`, each stripped. */
  function PageLines(p: Page): seq<Line> {
    StripLines(SplitLines(p.text), p.number)
  }

  function StripLines(ls: seq<string>, page: nat): (r: seq<Line>)
    ensures |r| == |ls|
  {
    if ls == [] then [] else [Line(Strip(ls[0]), page)] + StripLines(ls[1..], page)
  }

  lemma {:induction false} StripLinesAt(ls: seq<string>, page: nat, k: nat)
    requires k < |ls|
    ensures StripLines(ls, page)[k] == Line(Strip(ls[k]), page)
  {
    if k > 0 {
      StripLinesAt(ls[1..], page, k - 1);
    }
  }

  /** Every line of every page, page after page. */
  function ReadingOrder(pages: seq<Page>): seq<Line> {
    if pages == [] then [] else PageLines(pages[0]) + ReadingOrder(pages[1..])
  }

  /** The lines of a concatenation of page lists are the lines of the
      first list followed by those of the second. */
  lemma {:induction false} ReadingOrderAppend(a: seq<Page>, b: seq<Page>)
    ensures ReadingOrder(a + b) == ReadingOrder(a) + ReadingOrder(b)
  {
    if a == [] {
      assert a + b == b;
    } else {
      assert (a + b)[0] == a[0];
      assert (a + b)[1..] == a[1..] + b;
      ReadingOrderAppend(a[1..], b);
    }
  }

  /** Reading one more page adds that page's lines. */
  lemma ReadingOrderStep(pages: seq<Page>, i: nat)
    requires i < |pages|
    ensures ReadingOrder(pages[..i + 1]) == ReadingOrder(pages[..i]) + PageLines(pages[i])
  {
    assert [pages[i]][1..] == [];
    assert ReadingOrder([pages[i]]) == PageLines(pages[i]) + [];
    assert pages[..i + 1] == pages[..i] + [pages[i]];
    ReadingOrderAppend(pages[..i], [pages[i]]);
  }

  /** Every line in reading order is stripped and carries the number of a
      page it came from. */
  lemma {:induction false} ReadingOrderLines(pages: seq<Page>)
    ensures forall l :: l in ReadingOrder(pages) ==>
              Trimmed(l.text) && exists p :: p in pages && p.number == l.page
  {
    if pages != [] {
      ReadingOrderLines(pages[1..]);
      forall l | l in ReadingOrder(pages)
        ensures Trimmed(l.text) && exists p :: p in pages && p.number == l.page
      {
        if l in PageLines(pages[0]) {
          var k :| 0 <= k < |PageLines(pages[0])| && PageLines(pages[0])[k] == l;
          StripLinesAt(SplitLines(pages[0].text), pages[0].number, k);
          assert pages[0] in pages;
        } else {
          assert l in ReadingOrder(pages[1..]);
          var p :| p in pages[1..] && p.number == l.page;
          assert p in pages;
        }
      }
    }
  }

  // ---- The heading pass ----

  /** The outline entry a line gives when `is_heading` accepts it against
      the stored title `title`. */
  function Entry(title: Option<string>, l: Line): Option<Heading> {
    if IsHeading(l.text, title) then Some(Heading(HeadingLevel(l.text), l.text, l.page)) else None
  }

  function HeadingPicker(title: Option<string>): Line -> Option<Heading> {
    l => Entry(title, l)
  }

  /** The entries `pick` gives for `lines`, in the order of the lines. */
  function Collect(lines: seq<Line>, pick: Line -> Option<Heading>): (r: seq<Heading>)
    ensures |r| <= |lines|
  {
    if lines == [] then []
    else (if pick(lines[0]).Some? then [pick(lines[0]).value] else []) + Collect(lines[1..], pick)
  }

  /** `extract_headings` with the stored title `title`. */
  function Headings(pages: seq<Page>, title: Option<string>): seq<Heading> {
    Collect(ReadingOrder(pages), HeadingPicker(title))
  }

  lemma {:induction false} CollectAppend(a: seq<Line>, b: seq<Line>, pick: Line -> Option<Heading>)
    ensures Collect(a + b, pick) == Collect(a, pick) + Collect(b, pick)
  {
    if a == [] {
      assert a + b == b;
    } else {
      assert (a + b)[0] == a[0];
      assert (a + b)[1..] == a[1..] + b;
      var first := if pick(a[0]).Some? then [pick(a[0]).value] else [];
      assert Collect(a + b, pick) == first + Collect(a[1..] + b, pick);
      CollectAppend(a[1..], b, pick);
      assert Collect(a, pick) == first + Collect(a[1..], pick);
    }
  }

  /** Collecting one more line adds at most its own entry. */
  lemma CollectStep(lines: seq<Line>, j: nat, pick: Line -> Option<Heading>)
    requires j < |lines|
    ensures Collect(lines[..j + 1], pick) ==
            Collect(lines[..j], pick) + (if pick(lines[j]).Some? then [pick(lines[j]).value] else [])
  {
    assert lines[..j + 1] == lines[..j] + [lines[j]];
    CollectAppend(lines[..j], [lines[j]], pick);
    assert [lines[j]][1..] == [];
  }

  /** The outline of a document is the outline of its first pages followed
      by the outline of the rest: entries keep page order. */
  lemma HeadingsAppend(a: seq<Page>, b: seq<Page>, title: Option<string>)
    ensures Headings(a + b, title) == Headings(a, title) + Headings(b, title)
  {
    ReadingOrderAppend(a, b);
    CollectAppend(ReadingOrder(a), ReadingOrder(b), HeadingPicker(title));
  }

  /** Every collected entry is the entry of one of the lines. */
  lemma {:induction false} CollectSound(lines: seq<Line>, pick: Line -> Option<Heading>)
    ensures forall m :: 0 <= m < |Collect(lines, pick)| ==>
              exists k :: 0 <= k < |lines| && pick(lines[k]) == Some(Collect(lines, pick)[m])
  {
    if lines != [] {
      CollectSound(lines[1..], pick);
      var r := Collect(lines, pick);
      var rest := Collect(lines[1..], pick);
      var d := if pick(lines[0]).Some? then 1 else 0;
      assert r == (if pick(lines[0]).Some? then [pick(lines[0]).value] else []) + rest;
      forall m | 0 <= m < |r| ensures exists k :: 0 <= k < |lines| && pick(lines[k]) == Some(r[m]) {
        if m < d {
          assert pick(lines[0]) == Some(r[m]);
        } else {
          assert r[m] == rest[m - d];
          var k :| 0 <= k < |lines[1..]| && pick(lines[1..][k]) == Some(rest[m - d]);
          assert lines[1..][k] == lines[k + 1];
          assert pick(lines[k + 1]) == Some(r[m]);
        }
      }
    } else {
      assert Collect(lines, pick) == [];
    }
  }

  /** Every line `pick` accepts gives its entry. */
  lemma {:induction false} CollectComplete(lines: seq<Line>, pick: Line -> Option<Heading>, k: nat)
    requires k < |lines| && pick(lines[k]).Some?
    ensures pick(lines[k]).value in Collect(lines, pick)
  {
    var rest := Collect(lines[1..], pick);
    assert Collect(lines, pick) == (if pick(lines[0]).Some? then [pick(lines[0]).value] else []) + rest;
    if k > 0 {
      assert lines[1..][k - 1] == lines[k];
      CollectComplete(lines[1..], pick, k - 1);
    }
  }

  // ---- The title ----

  /** The test of `extract_title_from_content` on a stripped line. */
  predicate IsTitleCandidate(s: string) {
    s != [] && |s| > 3 && !IsNoise(s)
  }

  /** The text of the first line that satisfies `p`, if any. */
  function FirstWhere(lines: seq<Line>, p: string -> bool): (r: Option<string>)
    ensures r.Some? ==> p(r.value)
  {
    if lines == [] then None
    else if p(lines[0].text) then Some(lines[0].text)
    else FirstWhere(lines[1..], p)
  }

  /** Line `k` satisfies `p` and no line before it does. */
  ghost predicate FirstAt(lines: seq<Line>, p: string -> bool, k: nat) {
    k < |lines| && p(lines[k].text) && forall m :: 0 <= m < k ==> !p(lines[m].text)
  }

  /** `FirstWhere` finds the earliest line that satisfies `p`, and finds
      none only when there is none. */
  lemma {:induction false} FirstWhereIsFirst(lines: seq<Line>, p: string -> bool)
    ensures FirstWhere(lines, p).None? <==> forall k :: 0 <= k < |lines| ==> !p(lines[k].text)
    ensures FirstWhere(lines, p).Some? ==>
              exists k: nat :: FirstAt(lines, p, k) && lines[k].text == FirstWhere(lines, p).value
  {
    if lines != [] {
      if p(lines[0].text) {
        assert FirstAt(lines, p, 0);
      } else {
        FirstWhereIsFirst(lines[1..], p);
        if FirstWhere(lines, p).Some? {
          var k: nat :| FirstAt(lines[1..], p, k) && lines[1..][k].text == FirstWhere(lines, p).value;
          forall m | 0 <= m < k + 1 ensures !p(lines[m].text) {
            if m > 0 {
              assert lines[m] == lines[1..][m - 1];
            }
          }
          assert FirstAt(lines, p, k + 1);
        } else {
          forall k | 0 <= k < |lines| ensures !p(lines[k].text) {
            if k > 0 {
              assert lines[k] == lines[1..][k - 1];
            }
          }
        }
      }
    }
  }

  /** What `FirstWhere` returns is the text of one of the lines. */
  lemma {:induction false} FirstWhereFound(lines: seq<Line>, p: string -> bool)
    ensures FirstWhere(lines, p).Some? ==> exists k :: 0 <= k < |lines| && lines[k].text == FirstWhere(lines, p).value
  {
    if lines != [] && !p(lines[0].text) {
      FirstWhereFound(lines[1..], p);
      if FirstWhere(lines, p).Some? {
        var k :| 0 <= k < |lines[1..]| && lines[1..][k].text == FirstWhere(lines, p).value;
        assert lines[k + 1] == lines[1..][k];
      }
    }
  }

  /** The first match in a concatenation is the first match in its first
      part, if there is one, and otherwise the first in its second. */
  lemma {:induction false} FirstWhereAppend(a: seq<Line>, b: seq<Line>, p: string -> bool)
    ensures FirstWhere(a + b, p) == if FirstWhere(a, p).Some? then FirstWhere(a, p) else FirstWhere(b, p)
  {
    if a == [] {
      assert a + b == b;
    } else {
      assert (a + b)[0] == a[0];
      assert (a + b)[1..] == a[1..] + b;
      FirstWhereAppend(a[1..], b, p);
    }
  }

  /** `extract_title_from_content`: the first candidate line in reading
      order, or "Untitled Document". */
  function ContentTitle(pages: seq<Page>): (t: string)
    ensures Trimmed(t) && |t| > 3
  {
    match FirstWhere(ReadingOrder(pages), IsTitleCandidate)
    case Some(s) =>
      ReadingOrderLines(pages);
      FirstWhereFound(ReadingOrder(pages), IsTitleCandidate);
      s
    case None => UntitledDocument
  }

  /** The content title is the first candidate line in reading order, and
      is "Untitled Document" exactly when no line is a candidate. */
  lemma ContentTitleIsFirstCandidate(pages: seq<Page>)
    ensures (forall k :: 0 <= k < |ReadingOrder(pages)| ==> !IsTitleCandidate(ReadingOrder(pages)[k].text)) ==>
              ContentTitle(pages) == UntitledDocument
    ensures (exists k :: 0 <= k < |ReadingOrder(pages)| && IsTitleCandidate(ReadingOrder(pages)[k].text)) ==>
              exists k: nat :: FirstAt(ReadingOrder(pages), IsTitleCandidate, k) &&
                               ReadingOrder(pages)[k].text == ContentTitle(pages)
  {
    FirstWhereIsFirst(ReadingOrder(pages), IsTitleCandidate);
  }

  /** The usable part of `extract_title_from_metadata`: the raw metadata
      title, stripped, if it is longer than two characters. */
  function MetadataTitle(raw: Option<string>): (r: Option<string>)
    ensures r.Some? <==> raw.Some? && |Strip(raw.value)| > 2
    ensures r.Some? ==> r.value == Strip(raw.value) && Trimmed(r.value)
  {
    match raw
    case None => None
    case Some(x) =>
      var t := Strip(x);
      if t != [] && |t| > 2 then Some(t) else None
  }

  /** The title `extract_outline` settles on: the metadata title, or else
      the content title. */
  function ResolveTitle(pages: seq<Page>, raw: Option<string>): (t: string)
    ensures Trimmed(t) && |t| > 2
    ensures MetadataTitle(raw).Some? ==> t == MetadataTitle(raw).value
    ensures MetadataTitle(raw).None? ==> t == ContentTitle(pages)
  {
    match MetadataTitle(raw)
    case Some(m) => m
    case None => ContentTitle(pages)
  }

  /** `extract_outline` on extracted pages and a raw metadata title. */
  function OutlineOf(pages: seq<Page>, raw: Option<string>): Result<Document, ExtractError> {
    if pages == [] then Err(NoExtractableText)
    else
      var t := ResolveTitle(pages, raw);
      Ok(Document(t, Headings(pages, Some(t))))
  }

  /** What every outline looks like: it fails only when there are no
      pages; otherwise every entry is a stripped line of one of the pages
      that passed `is_heading` against the chosen title, carries the level
      `determine_heading_level` gives it, and does not repeat the title. */
  lemma OutlineShape(pages: seq<Page>, raw: Option<string>)
    ensures OutlineOf(pages, raw).Err? <==> pages == []
    ensures OutlineOf(pages, raw).Ok? ==>
              var d := OutlineOf(pages, raw).value;
              d.title == ResolveTitle(pages, raw) &&
              forall m :: 0 <= m < |d.outline| ==> FromPages(pages, d.title, d.outline[m])
  {
    if pages != [] {
      var t := ResolveTitle(pages, raw);
      var lines := ReadingOrder(pages);
      var hs := Headings(pages, Some(t));
      CollectSound(lines, HeadingPicker(Some(t)));
      ReadingOrderLines(pages);
      forall m | 0 <= m < |hs| ensures FromPages(pages, t, hs[m]) {
        var k :| 0 <= k < |lines| && HeadingPicker(Some(t))(lines[k]) == Some(hs[m]);
        EntryFromLine(t, lines[k], hs[m]);
      }
    }
  }

  /** `h` is the entry of a stripped line of `pages` that passed
      `is_heading` against `title`; its level is the line's level and its
      text is not the title. */
  ghost predicate FromPages(pages: seq<Page>, title: string, h: Heading) {
    Line(h.text, h.page) in ReadingOrder(pages) &&
    IsHeading(h.text, Some(title)) && h.level == HeadingLevel(h.text) &&
    Trimmed(h.text) && h.text != title &&
    exists p :: p in pages && p.number == h.page
  }

  lemma EntryFromLine(title: string, l: Line, h: Heading)
    requires Entry(Some(title), l) == Some(h)
    requires Trimmed(l.text) && title != ""
    ensures IsHeading(h.text, Some(title)) && h.level == HeadingLevel(h.text)
    ensures h.text == l.text && h.page == l.page && h.text != title
  {
    HeadingIsNotTitle(l.text, title);
  }

  /** A stripped line that passes `is_heading` is not the stored title. */
  lemma HeadingIsNotTitle(s: string, title: string)
    requires Trimmed(s) && title != "" && IsHeading(s, Some(title))
    ensures s != title
  {
    StripTrimmed(s);
    EarlyGuardsReject(s, Some(title));
  }

  /** Every heading line of the pages is in the outline. */
  lemma OutlineComplete(pages: seq<Page>, raw: Option<string>, k: nat)
    requires pages != []
    requires k < |ReadingOrder(pages)|
    requires IsHeading(ReadingOrder(pages)[k].text, Some(ResolveTitle(pages, raw)))
    ensures var l := ReadingOrder(pages)[k];
            Heading(HeadingLevel(l.text), l.text, l.page) in OutlineOf(pages, raw).value.outline
  {
    var pick := HeadingPicker(Some(ResolveTitle(pages, raw)));
    assert pick(ReadingOrder(pages)[k]).Some?;
    CollectComplete(ReadingOrder(pages), pick, k);
  }

  /** `PDFOutlineExtractor` with the one field its outline pass changes. */
  class OutlineExtractor {
    /** `_detected_title`: the title of the last outline, read by
        `is_heading`. */
    var detectedTitle: Option<string>

    constructor ()
      ensures detectedTitle == None
    {
      detectedTitle := None;
    }

    /** `extract_title_from_content`: the first line, in reading order,
        that is a title candidate, or "Untitled Document". */
    method ExtractTitleFromContent(pages: seq<Page>) returns (title: string)
      ensures title == ContentTitle(pages)
    {
      ghost var first := FirstWhere(ReadingOrder(pages), IsTitleCandidate);
      var i := 0;
      while i < |pages|
        invariant 0 <= i <= |pages|
        invariant first == FirstWhere(ReadingOrder(pages[i..]), IsTitleCandidate)
      {
        assert pages[i..][1..] == pages[i + 1..];
        FirstWhereAppend(PageLines(pages[i]), ReadingOrder(pages[i + 1..]), IsTitleCandidate);
        var found := PageTitleCandidate(pages[i]);
        if found.Some? {
          return found.value;
        }
        i := i + 1;
      }
      return UntitledDocument;
    }

    /** The inner loop of `extract_title_from_content`, over the lines of
        one page, returning early at the first candidate. */
    method PageTitleCandidate(page: Page) returns (r: Option<string>)
      ensures r == FirstWhere(PageLines(page), IsTitleCandidate)
    {
      var lines := SplitLines(page.text);
      ghost var pl := PageLines(page);
      ghost var first := FirstWhere(pl, IsTitleCandidate);
      assert pl[0..] == pl;
      var j := 0;
      while j < |lines|
        invariant 0 <= j <= |lines|
        invariant first == FirstWhere(pl[j..], IsTitleCandidate)
      {
        var line := Strip(lines[j]);
        StripLinesAt(lines, page.number, j);
        assert pl[j..][0] == Line(line, page.number);
        if line != [] && |line| > 3 && !IsNoise(line) {
          return Some(line);
        }
        assert pl[j..][1..] == pl[j + 1..];
        j := j + 1;
      }
      return None;
    }

    /** `extract_headings`: every line of every page, in order, tested by
        `is_heading` against the stored title and given its level. */
    method ExtractHeadings(pages: seq<Page>) returns (headings: seq<Heading>)
      ensures headings == Headings(pages, detectedTitle)
    {
      headings := [];
      var i := 0;
      while i < |pages|
        invariant 0 <= i <= |pages|
        invariant headings == Headings(pages[..i], detectedTitle)
      {
        var found := PageHeadings(pages[i]);
        headings := headings + found;
        ReadingOrderStep(pages, i);
        CollectAppend(ReadingOrder(pages[..i]), PageLines(pages[i]), HeadingPicker(detectedTitle));
        i := i + 1;
      }
      assert pages[..i] == pages;
    }

    /** The inner loop of `extract_headings`, over the lines of one page. */
    method PageHeadings(page: Page) returns (headings: seq<Heading>)
      ensures headings == Collect(PageLines(page), HeadingPicker(detectedTitle))
    {
      ghost var pick := HeadingPicker(detectedTitle);
      var lines := SplitLines(page.text);
      ghost var pl := PageLines(page);
      headings := [];
      var j := 0;
      while j < |lines|
        invariant 0 <= j <= |lines|
        invariant headings == Collect(pl[..j], pick)
      {
        var line := Strip(lines[j]);
        StripLinesAt(lines, page.number, j);
        CollectStep(pl, j, pick);
        assert pick(pl[j]) == Entry(detectedTitle, Line(line, page.number));
        if IsHeading(line, detectedTitle) {
          var level := HeadingLevel(line);
          headings := headings + [Heading(level, line, page.number)];
        }
        j := j + 1;
      }
      assert pl[..j] == pl;
    }

    /** `extract_outline` after extraction: fail on no pages, choose the
        title, store it, then run the heading pass against it. */
    method ExtractOutline(pages: seq<Page>, raw: Option<string>) returns (r: Result<Document, ExtractError>)
      modifies this
      ensures r == OutlineOf(pages, raw)
      ensures pages == [] ==> detectedTitle == old(detectedTitle)
      ensures pages != [] ==> detectedTitle == Some(r.value.title)
    {
      if pages == [] {
        return Err(NoExtractableText);
      }
      var title: string;
      var meta := MetadataTitle(raw);
      if meta.None? {
        title := ExtractTitleFromContent(pages);
      } else {
        title := meta.value;
      }
      detectedTitle := Some(title);
      var headings := ExtractHeadings(pages);
      return Ok(Document(title, headings));
    }
  }

  /** One extractor serves a whole batch of files: what an earlier file
      left in `_detected_title` does not change the outline of the next
      one, which is the outline a fresh extractor gives. */
  method ReusedExtractorAgrees(earlier: seq<Page>, earlierRaw: Option<string>, pages: seq<Page>, raw: Option<string>)
    returns (fromFresh: Result<Document, ExtractError>, fromReused: Result<Document, ExtractError>)
    ensures fromFresh == fromReused
    ensures fromReused == OutlineOf(pages, raw)
  {
    var reused := new OutlineExtractor();
    var _ := reused.ExtractOutline(earlier, earlierRaw);
    fromReused := reused.ExtractOutline(pages, raw);
    var another := new OutlineExtractor();
    fromFresh := another.ExtractOutline(pages, raw);
  }
}
