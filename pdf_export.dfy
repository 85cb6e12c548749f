/**
 * The PDF export (lib/export/exportToPDF.ts). A document is a list of pages, each a
 * list of drawn items; the exporter writes a header, then one entry per company
 * while a cursor `yPos` moves down the page and a new page is started when the
 * cursor passes `pageHeight - 40`, and finally a footer on every page. Text
 * wrapping (`splitTextToSize`) is the parameter `wrap`; the creation date is text
 * passed in.
 */
module PdfExport {
  import opened Wrappers
  import opened Text
  import opened Records

  datatype FontStyle = Normal | Bold | Italic

  datatype Font = Font(size: nat, style: FontStyle)

  /** A text block (one or more lines) at a position in the font in effect, or a drawn line. */
  datatype Item =
    | TextItem(lines: seq<string>, x: real, y: real, font: Font)
    | RuleItem(x1: real, y1: real, x2: real, y2: real)

  const TitleFont := Font(18, Bold)
  const InfoFont := Font(10, Normal)
  const HeadingFont := Font(12, Bold)
  const DetailFont := Font(9, Normal)
  const FooterFont := Font(8, Italic)

  const StartY: real := 44.0
  const LineHeight: real := 7.0
  const TopY: real := 20.0
  const BottomMargin: real := 40.0

  /** The document as jsPDF keeps it: pages, the page being written and the font in effect. */
  class PdfDoc {
    var pages: seq<seq<Item>>
    var current: nat
    var fontSize: nat
    var fontStyle: FontStyle

    predicate Valid()
      reads this
    {
      1 <= |pages| && current < |pages|
    }

    /** A new document has one empty page, in the default 16-point normal font. */
    constructor ()
      ensures Valid()
      ensures pages == [[]] && current == 0 && fontSize == 16 && fontStyle == Normal
    {
      pages := [[]];
      current := 0;
      fontSize := 16;
      fontStyle := Normal;
    }

    method SetFontSize(size: nat)
      modifies this
      ensures fontSize == size
      ensures pages == old(pages) && current == old(current) && fontStyle == old(fontStyle)
    {
      fontSize := size;
    }

    method SetFont(style: FontStyle)
      modifies this
      ensures fontStyle == style
      ensures pages == old(pages) && current == old(current) && fontSize == old(fontSize)
    {
      fontStyle := style;
    }

    /** `doc.text`: adds the text to the current page in the font in effect. */
    method Text(lines: seq<string>, x: real, y: real)
      requires Valid()
      modifies this
      ensures Valid()
      ensures pages == old(pages)[old(current) := old(pages)[old(current)] + [TextItem(lines, x, y, Font(old(fontSize), old(fontStyle)))]]
      ensures current == old(current) && fontSize == old(fontSize) && fontStyle == old(fontStyle)
    {
      pages := pages[current := pages[current] + [TextItem(lines, x, y, Font(fontSize, fontStyle))]];
    }

    /** `doc.line`: draws a line on the current page. */
    method Line(x1: real, y1: real, x2: real, y2: real)
      requires Valid()
      modifies this
      ensures Valid()
      ensures pages == old(pages)[old(current) := old(pages)[old(current)] + [RuleItem(x1, y1, x2, y2)]]
      ensures current == old(current) && fontSize == old(fontSize) && fontStyle == old(fontStyle)
    {
      pages := pages[current := pages[current] + [RuleItem(x1, y1, x2, y2)]];
    }

    /** `doc.addPage`: appends an empty page and makes it current. */
    method AddPage()
      requires Valid()
      modifies this
      ensures Valid()
      ensures pages == old(pages) + [[]] && current == |old(pages)|
      ensures fontSize == old(fontSize) && fontStyle == old(fontStyle)
    {
      pages := pages + [[]];
      current := |pages| - 1;
    }

    /** `doc.setPage(n)`: pages are numbered from 1. */
    method SetPage(n: nat)
      requires Valid() && 1 <= n <= |pages|
      modifies this
      ensures Valid()
      ensures current == n - 1
      ensures pages == old(pages) && fontSize == old(fontSize) && fontStyle == old(fontStyle)
    {
      current := n - 1;
    }
  }

  // ---- The document the exporter produces, as functions ----

  function CountLine(count: nat): string {
    "Anzahl Unternehmen: " + NatToString(count)
  }

  const TitleItem := TextItem(["Niedersachsen Beratungsunternehmen"], 14.0, 20.0, TitleFont)
  const HeaderRule := RuleItem(14.0, 36.0, 196.0, 36.0)

  function DateItem(dateText: string): Item {
    TextItem(["Erstellt am: " + dateText], 14.0, 28.0, InfoFont)
  }

  function CountItem(count: nat): Item {
    TextItem([CountLine(count)], 14.0, 33.0, InfoFont)
  }

  function HeaderItems(dateText: string, count: nat): seq<Item> {
    [TitleItem, DateItem(dateText), CountItem(count), HeaderRule]
  }

  /** `${index + 1}. ${company.name}`. */
  function Heading(index: nat, name: string): string {
    NatToString(index + 1) + ". " + name
  }

  /** A detail line, written and advancing the cursor by 5 only when the field is truthy. */
  function Detail(caption: string, field: Option<string>, y: real): (seq<Item>, real) {
    if TruthyText(field) then ([TextItem([caption + field.value], 20.0, y, DetailFont)], y + 5.0) else ([], y)
  }

  function Names(specs: seq<Specialization>): (r: seq<string>)
    ensures |r| == |specs|
  {
    seq(|specs|, i requires 0 <= i < |specs| => specs[i].name)
  }

  /** The description block: `wrap` gives its lines, each 5 high. */
  function DescriptionPart(c: Company, y: real, wrap: string -> seq<string>): (seq<Item>, real) {
    if TruthyText(c.description) then
      ([TextItem(wrap(c.description.value), 20.0, y, DetailFont)], y + (|wrap(c.description.value)| * 5) as real)
    else ([], y)
  }

  /** The specialization line, names joined with ', '. */
  function SpecializationsPart(c: Company, y: real): (seq<Item>, real) {
    if |c.specializations| > 0 then
      ([TextItem(["Spezialisierungen: " + Join(Names(c.specializations), ", ")], 20.0, y, DetailFont)], y + 5.0)
    else ([], y)
  }

  /** The items of one entry written from cursor `y`, and the cursor after it. */
  function Entry(c: Company, index: nat, y: real, wrap: string -> seq<string>): (seq<Item>, real) {
    var d := DescriptionPart(c, y + LineHeight, wrap);
    var a := Detail("Adresse: ", c.address, d.1);
    var w := Detail("Website: ", c.website, a.1);
    var m := Detail("Email: ", c.email, w.1);
    var t := Detail("Telefon: ", c.phone, m.1);
    var sp := SpecializationsPart(c, t.1);
    ([TextItem([Heading(index, c.name)], 14.0, y, HeadingFont)] + d.0 + a.0 + w.0 + m.0 + t.0 + sp.0, sp.1 + 5.0)
  }

  /** The height of an entry, counted field by field. */
  function EntryHeight(c: Company, wrap: string -> seq<string>): real {
    var descLines := if TruthyText(c.description) then |wrap(c.description.value)| else 0;
    var details := (if TruthyText(c.address) then 1 else 0) + (if TruthyText(c.website) then 1 else 0)
                 + (if TruthyText(c.email) then 1 else 0) + (if TruthyText(c.phone) then 1 else 0);
    var specs := if |c.specializations| > 0 then 1 else 0;
    LineHeight + (5 * (descLines + details + specs) + 5) as real
  }

  datatype Layout = Layout(pages: seq<seq<Item>>, y: real)

  /** Adds items to the last page. */
  function Place(pages: seq<seq<Item>>, items: seq<Item>): seq<seq<Item>>
    requires |pages| > 0
  {
    pages[|pages| - 1 := pages[|pages| - 1] + items]
  }

  lemma PlaceTwice(pages: seq<seq<Item>>, a: seq<Item>, b: seq<Item>)
    requires |pages| > 0
    ensures Place(Place(pages, a), b) == Place(pages, a + b)
  {
    assert pages[|pages| - 1] + a + b == pages[|pages| - 1] + (a + b);
  }

  /** One company: the page-break check, then its entry. */
  function Step(l: Layout, c: Company, index: nat, pageHeight: real, wrap: string -> seq<string>): (r: Layout)
    requires |l.pages| > 0
    ensures |r.pages| > 0
  {
    var (pages, y) := if l.y > pageHeight - BottomMargin then (l.pages + [[]], TopY) else (l.pages, l.y);
    var (items, yEnd) := Entry(c, index, y, wrap);
    Layout(Place(pages, items), yEnd)
  }

  /** The pages and cursor after the header and the entries of `companies`; `count` is shown in the header. */
  function LayoutOf(companies: seq<Company>, dateText: string, count: nat, pageHeight: real, wrap: string -> seq<string>): (r: Layout)
    ensures |r.pages| > 0
    decreases |companies|
  {
    if companies == [] then Layout([HeaderItems(dateText, count)], StartY)
    else
      var n := |companies| - 1;
      Step(LayoutOf(companies[..n], dateText, count, pageHeight, wrap), companies[n], n, pageHeight, wrap)
  }

  function Footer(page: nat, total: nat, pageWidth: real, pageHeight: real): Item {
    TextItem(["Seite " + NatToString(page) + " von " + NatToString(total)], pageWidth / 2.0, pageHeight - 10.0, FooterFont)
  }

  /** The pages with the footers of the first `k` pages written. */
  function WithFooters(pages: seq<seq<Item>>, k: nat, pageWidth: real, pageHeight: real): (r: seq<seq<Item>>)
    ensures |r| == |pages|
  {
    seq(|pages|, j requires 0 <= j < |pages| =>
      if j < k then pages[j] + [Footer(j + 1, |pages|, pageWidth, pageHeight)] else pages[j])
  }

  /** The finished document. */
  function Document(companies: seq<Company>, dateText: string, pageWidth: real, pageHeight: real, wrap: string -> seq<string>): seq<seq<Item>> {
    var pages := LayoutOf(companies, dateText, |companies|, pageHeight, wrap).pages;
    WithFooters(pages, |pages|, pageWidth, pageHeight)
  }

  // ---- Properties of the document ----

  /** An entry moves the cursor by its height: 7, 5 per description line and per present detail, 5 more. */
  lemma EntryAdvance(c: Company, index: nat, y: real, wrap: string -> seq<string>)
    ensures Entry(c, index, y, wrap).1 == y + EntryHeight(c, wrap)
    ensures EntryHeight(c, wrap) >= 12.0
  {
  }

  /**
   * A page is added before an entry exactly when the cursor is past `pageHeight - 40`;
   * the entry then starts at 20, otherwise at the cursor. Earlier pages are left as they are.
   */
  lemma StepPageBreak(l: Layout, c: Company, index: nat, pageHeight: real, wrap: string -> seq<string>)
    requires |l.pages| > 0
    ensures var r := Step(l, c, index, pageHeight, wrap);
      && |r.pages| == |l.pages| + (if l.y > pageHeight - BottomMargin then 1 else 0)
      && (forall j :: 0 <= j < |l.pages| - 1 ==> r.pages[j] == l.pages[j])
      && r.y == (if l.y > pageHeight - BottomMargin then TopY else l.y) + EntryHeight(c, wrap)
  {
    var y := if l.y > pageHeight - BottomMargin then TopY else l.y;
    EntryAdvance(c, index, y, wrap);
  }

  /** There is one page more than there are page breaks, so at most one per company. */
  lemma {:induction false} PageCountBound(companies: seq<Company>, dateText: string, count: nat, pageHeight: real, wrap: string -> seq<string>)
    ensures 1 <= |LayoutOf(companies, dateText, count, pageHeight, wrap).pages| <= 1 + |companies|
    decreases |companies|
  {
    if companies != [] {
      var n := |companies| - 1;
      var l := LayoutOf(companies[..n], dateText, count, pageHeight, wrap);
      PageCountBound(companies[..n], dateText, count, pageHeight, wrap);
      StepPageBreak(l, companies[n], n, pageHeight, wrap);
    }
  }

  /** The first page begins with the header, and its count line shows `count`. */
  lemma {:induction false} HeaderFirst(companies: seq<Company>, dateText: string, count: nat, pageHeight: real, wrap: string -> seq<string>)
    ensures var p := LayoutOf(companies, dateText, count, pageHeight, wrap).pages[0];
      |p| >= 4 && p[..4] == HeaderItems(dateText, count) && p[2] == TextItem([CountLine(count)], 14.0, 33.0, InfoFont)
    decreases |companies|
  {
    if companies != [] {
      var n := |companies| - 1;
      var l := LayoutOf(companies[..n], dateText, count, pageHeight, wrap);
      HeaderFirst(companies[..n], dateText, count, pageHeight, wrap);
      var r := LayoutOf(companies, dateText, count, pageHeight, wrap);
      StepPageBreak(l, companies[n], n, pageHeight, wrap);
      if |l.pages| == 1 && !(l.y > pageHeight - BottomMargin) {
        var items := Entry(companies[n], n, l.y, wrap).0;
        assert r.pages[0] == l.pages[0] + items;
        assert r.pages[0][..4] == l.pages[0][..4];
      }
    }
  }

  /** All items of all pages, page by page. */
  function Flatten(pages: seq<seq<Item>>): seq<Item> {
    if pages == [] then [] else Flatten(pages[..|pages| - 1]) + pages[|pages| - 1]
  }

  /** The texts written in the heading font, in document order. */
  function Headings(items: seq<Item>): seq<string> {
    if items == [] then []
    else
      var last := items[|items| - 1];
      Headings(items[..|items| - 1]) + (if last.TextItem? && last.font == HeadingFont then last.lines else [])
  }

  lemma {:induction false} HeadingsAppend(a: seq<Item>, b: seq<Item>)
    ensures Headings(a + b) == Headings(a) + Headings(b)
    decreases |b|
  {
    if b == [] {
      assert a + b == a;
    } else {
      assert (a + b)[..|a + b| - 1] == a + b[..|b| - 1];
      HeadingsAppend(a, b[..|b| - 1]);
    }
  }

  lemma FlattenPlace(pages: seq<seq<Item>>, items: seq<Item>)
    requires |pages| > 0
    ensures Flatten(Place(pages, items)) == Flatten(pages) + items
  {
    var n := |pages| - 1;
    assert Place(pages, items)[..n] == pages[..n];
  }

  lemma FlattenNewPage(pages: seq<seq<Item>>)
    ensures Flatten(pages + [[]]) == Flatten(pages)
  {
    assert (pages + [[]])[..|pages|] == pages;
  }

  /** The only heading-font text of an entry is its heading. */
  lemma EntryHeadings(c: Company, index: nat, y: real, wrap: string -> seq<string>)
    ensures Headings(Entry(c, index, y, wrap).0) == [Heading(index, c.name)]
  {
    var d := DescriptionPart(c, y + LineHeight, wrap);
    var a := Detail("Adresse: ", c.address, d.1);
    var w := Detail("Website: ", c.website, a.1);
    var m := Detail("Email: ", c.email, w.1);
    var t := Detail("Telefon: ", c.phone, m.1);
    var sp := SpecializationsPart(c, t.1);
    var h := [TextItem([Heading(index, c.name)], 14.0, y, HeadingFont)];
    assert Headings(h) == [Heading(index, c.name)] by {
      assert h[..0] == [];
    }
    DescriptionHasNoHeadings(c, y + LineHeight, wrap);
    DetailHasNoHeadings("Adresse: ", c.address, d.1);
    DetailHasNoHeadings("Website: ", c.website, a.1);
    DetailHasNoHeadings("Email: ", c.email, w.1);
    DetailHasNoHeadings("Telefon: ", c.phone, m.1);
    SpecializationsHaveNoHeadings(c, t.1);
    HeadingsAppend(h, d.0);
    HeadingsAppend(h + d.0, a.0);
    HeadingsAppend(h + d.0 + a.0, w.0);
    HeadingsAppend(h + d.0 + a.0 + w.0, m.0);
    HeadingsAppend(h + d.0 + a.0 + w.0 + m.0, t.0);
    HeadingsAppend(h + d.0 + a.0 + w.0 + m.0 + t.0, sp.0);
  }

  lemma DetailHasNoHeadings(caption: string, field: Option<string>, y: real)
    ensures Headings(Detail(caption, field, y).0) == []
  {
    var part := Detail(caption, field, y).0;
    if part != [] {
      assert part[..0] == [];
    }
  }

  lemma DescriptionHasNoHeadings(c: Company, y: real, wrap: string -> seq<string>)
    ensures Headings(DescriptionPart(c, y, wrap).0) == []
  {
    var part := DescriptionPart(c, y, wrap).0;
    if part != [] {
      assert part[..0] == [];
    }
  }

  lemma SpecializationsHaveNoHeadings(c: Company, y: real)
    ensures Headings(SpecializationsPart(c, y).0) == []
  {
    var part := SpecializationsPart(c, y).0;
    if part != [] {
      assert part[..0] == [];
    }
  }

  lemma HeadingsSingle(x: Item)
    ensures Headings([x]) == if x.TextItem? && x.font == HeadingFont then x.lines else []
  {
    assert [x][..0] == [];
  }

  lemma HeaderHasNoHeadings(dateText: string, count: nat)
    ensures Headings(Flatten([HeaderItems(dateText, count)])) == []
  {
    var h := HeaderItems(dateText, count);
    var ps: seq<seq<Item>> := [h];
    assert Flatten(ps) == h by {
      assert ps[..0] == [];
    }
    HeadingsSingle(TitleItem);
    HeadingsSingle(DateItem(dateText));
    HeadingsSingle(CountItem(count));
    HeadingsSingle(HeaderRule);
    HeadingsAppend([TitleItem], [DateItem(dateText)]);
    HeadingsAppend([TitleItem, DateItem(dateText)], [CountItem(count)]);
    HeadingsAppend([TitleItem, DateItem(dateText), CountItem(count)], [HeaderRule]);
    assert Headings([TitleItem]) == [];
    assert Headings([TitleItem, DateItem(dateText)]) == [];
    assert [TitleItem, DateItem(dateText)] + [CountItem(count)] == [TitleItem, DateItem(dateText), CountItem(count)];
    assert Headings([TitleItem, DateItem(dateText), CountItem(count)]) == [];
    assert h == [TitleItem, DateItem(dateText), CountItem(count)] + [HeaderRule];
    assert Headings(h) == [];
  }

  /** One step adds exactly the heading of its company to the headings written so far. */
  lemma StepHeadings(l: Layout, c: Company, index: nat, pageHeight: real, wrap: string -> seq<string>)
    requires |l.pages| > 0
    ensures Headings(Flatten(Step(l, c, index, pageHeight, wrap).pages)) == Headings(Flatten(l.pages)) + [Heading(index, c.name)]
  {
    var pages := if l.y > pageHeight - BottomMargin then l.pages + [[]] else l.pages;
    var y := if l.y > pageHeight - BottomMargin then TopY else l.y;
    if l.y > pageHeight - BottomMargin {
      FlattenNewPage(l.pages);
    }
    var items := Entry(c, index, y, wrap).0;
    assert Step(l, c, index, pageHeight, wrap).pages == Place(pages, items);
    FlattenPlace(pages, items);
    HeadingsAppend(Flatten(pages), items);
    EntryHeadings(c, index, y, wrap);
  }

  function NumberedHeadings(companies: seq<Company>): (r: seq<string>)
    ensures |r| == |companies|
  {
    seq(|companies|, i requires 0 <= i < |companies| => Heading(i, companies[i].name))
  }

  lemma NumberedHeadingsSnoc(companies: seq<Company>)
    requires |companies| > 0
    ensures var n := |companies| - 1;
      NumberedHeadings(companies) == NumberedHeadings(companies[..n]) + [Heading(n, companies[n].name)]
  {
  }

  /** Exactly one heading per company, `<i+1>. <name>`, in input order. */
  lemma {:induction false} HeadingsInOrder(companies: seq<Company>, dateText: string, count: nat, pageHeight: real, wrap: string -> seq<string>)
    ensures Headings(Flatten(LayoutOf(companies, dateText, count, pageHeight, wrap).pages)) == NumberedHeadings(companies)
    decreases |companies|
  {
    if companies == [] {
      HeaderHasNoHeadings(dateText, count);
    } else {
      var n := |companies| - 1;
      var l := LayoutOf(companies[..n], dateText, count, pageHeight, wrap);
      HeadingsInOrder(companies[..n], dateText, count, pageHeight, wrap);
      assert LayoutOf(companies, dateText, count, pageHeight, wrap) == Step(l, companies[n], n, pageHeight, wrap);
      StepHeadings(l, companies[n], n, pageHeight, wrap);
      NumberedHeadingsSnoc(companies);
    }
  }

  /** Page j of N ends with the footer `Seite j von N`, after that page's own items. */
  lemma FootersNumbered(companies: seq<Company>, dateText: string, pageWidth: real, pageHeight: real, wrap: string -> seq<string>)
    ensures var body := LayoutOf(companies, dateText, |companies|, pageHeight, wrap).pages;
      var doc := Document(companies, dateText, pageWidth, pageHeight, wrap);
      && |doc| == |body|
      && forall j :: 0 <= j < |doc| ==>
           doc[j] == body[j] + [TextItem(["Seite " + NatToString(j + 1) + " von " + NatToString(|doc|)], pageWidth / 2.0, pageHeight - 10.0, FooterFont)]
  {
    var body := LayoutOf(companies, dateText, |companies|, pageHeight, wrap).pages;
    var doc := WithFooters(body, |body|, pageWidth, pageHeight);
    forall j | 0 <= j < |doc| ensures doc[j] == body[j] + [Footer(j + 1, |doc|, pageWidth, pageHeight)] {
    }
  }

  /** Footers are in the footer font, so appending one to every page adds no heading. */
  lemma {:induction false} FootersAddNoHeadings(pages: seq<seq<Item>>, footed: seq<seq<Item>>, total: nat, pageWidth: real, pageHeight: real)
    requires |footed| == |pages|
    requires forall j :: 0 <= j < |pages| ==> footed[j] == pages[j] + [Footer(j + 1, total, pageWidth, pageHeight)]
    ensures Headings(Flatten(footed)) == Headings(Flatten(pages))
    decreases |pages|
  {
    if pages != [] {
      var n := |pages| - 1;
      var f := Footer(n + 1, total, pageWidth, pageHeight);
      FootersAddNoHeadings(pages[..n], footed[..n], total, pageWidth, pageHeight);
      assert Flatten(footed) == Flatten(footed[..n]) + (pages[n] + [f]);
      HeadingsAppend(Flatten(footed[..n]), pages[n] + [f]);
      HeadingsAppend(pages[n], [f]);
      HeadingsSingle(f);
      HeadingsAppend(Flatten(pages[..n]), pages[n]);
    }
  }

  /** The finished document, footers included, has one heading per company, `<i+1>. <name>`, in input order. */
  lemma DocumentHeadings(companies: seq<Company>, dateText: string, pageWidth: real, pageHeight: real, wrap: string -> seq<string>)
    ensures Headings(Flatten(Document(companies, dateText, pageWidth, pageHeight, wrap))) == NumberedHeadings(companies)
  {
    var body := LayoutOf(companies, dateText, |companies|, pageHeight, wrap).pages;
    var doc := Document(companies, dateText, pageWidth, pageHeight, wrap);
    FootersAddNoHeadings(body, doc, |body|, pageWidth, pageHeight);
    HeadingsInOrder(companies, dateText, |companies|, pageHeight, wrap);
  }

  /** No companies: one page with the header and `Seite 1 von 1`. */
  lemma EmptyDocument(dateText: string, pageWidth: real, pageHeight: real, wrap: string -> seq<string>)
    ensures Document([], dateText, pageWidth, pageHeight, wrap) ==
      [HeaderItems(dateText, 0) + [TextItem(["Seite 1 von 1"], pageWidth / 2.0, pageHeight - 10.0, FooterFont)]]
  {
    var body := LayoutOf([], dateText, 0, pageHeight, wrap).pages;
    assert body == [HeaderItems(dateText, 0)];
    assert NatToString(1) == "1";
    assert "Seite " + NatToString(1) + " von " + NatToString(1) == "Seite 1 von 1";
    var d := Document([], dateText, pageWidth, pageHeight, wrap);
    assert |d| == 1;
    assert d[0] == HeaderItems(dateText, 0) + [Footer(1, 1, pageWidth, pageHeight)];
  }

  // ---- The exporter ----

  /** Writes the title, the date, the count and the rule on the first page. */
  method WriteHeader(doc: PdfDoc, dateText: string, count: nat)
    requires doc.Valid() && doc.pages == [[]] && doc.current == 0
    modifies doc
    ensures doc.Valid() && doc.current == 0
    ensures doc.pages == [HeaderItems(dateText, count)]
  {
    doc.SetFontSize(18);
    doc.SetFont(Bold);
    doc.Text(["Niedersachsen Beratungsunternehmen"], 14.0, 20.0);
    assert |doc.pages| == 1 && doc.pages[0] == [TitleItem];
    doc.SetFontSize(10);
    doc.SetFont(Normal);
    doc.Text(["Erstellt am: " + dateText], 14.0, 28.0);
    assert |doc.pages| == 1 && doc.pages[0] == [TitleItem, DateItem(dateText)];
    doc.Text([CountLine(count)], 14.0, 33.0);
    assert |doc.pages| == 1 && doc.pages[0] == [TitleItem, DateItem(dateText), CountItem(count)];
    doc.Line(14.0, 36.0, 196.0, 36.0);
    assert |doc.pages| == 1 && doc.pages[0] == HeaderItems(dateText, count);
  }

  /** One `if (company.<field>)` block: the labelled line and 5 more on the cursor when the field is truthy. */
  method WriteDetail(doc: PdfDoc, caption: string, field: Option<string>, y: real) returns (yEnd: real)
    requires doc.Valid() && doc.current == |doc.pages| - 1 && doc.fontSize == 9 && doc.fontStyle == Normal
    modifies doc
    ensures doc.Valid() && doc.current == |doc.pages| - 1 && doc.fontSize == 9 && doc.fontStyle == Normal
    ensures doc.pages == Place(old(doc.pages), Detail(caption, field, y).0)
    ensures yEnd == Detail(caption, field, y).1
  {
    yEnd := y;
    if TruthyText(field) {
      doc.Text([caption + field.value], 20.0, yEnd);
      yEnd := yEnd + 5.0;
    } else {
      assert old(doc.pages)[|old(doc.pages)| - 1] + [] == old(doc.pages)[|old(doc.pages)| - 1];
    }
  }

  method WriteDescription(doc: PdfDoc, c: Company, y: real, wrap: string -> seq<string>) returns (yEnd: real)
    requires doc.Valid() && doc.current == |doc.pages| - 1
    modifies doc
    ensures doc.Valid() && doc.current == |doc.pages| - 1
    ensures TruthyText(c.description) ==> doc.fontSize == 9 && doc.fontStyle == Normal
    ensures doc.pages == Place(old(doc.pages), DescriptionPart(c, y, wrap).0)
    ensures yEnd == DescriptionPart(c, y, wrap).1
  {
    yEnd := y;
    if TruthyText(c.description) {
      doc.SetFontSize(9);
      doc.SetFont(Normal);
      var descLines := wrap(c.description.value);
      doc.Text(descLines, 20.0, yEnd);
      yEnd := yEnd + (|descLines| * 5) as real;
    } else {
      assert old(doc.pages)[|old(doc.pages)| - 1] + [] == old(doc.pages)[|old(doc.pages)| - 1];
    }
  }

  method WriteSpecializations(doc: PdfDoc, c: Company, y: real) returns (yEnd: real)
    requires doc.Valid() && doc.current == |doc.pages| - 1 && doc.fontSize == 9 && doc.fontStyle == Normal
    modifies doc
    ensures doc.Valid() && doc.current == |doc.pages| - 1
    ensures doc.pages == Place(old(doc.pages), SpecializationsPart(c, y).0)
    ensures yEnd == SpecializationsPart(c, y).1
  {
    yEnd := y;
    if |c.specializations| > 0 {
      var specs := Join(Names(c.specializations), ", ");
      doc.Text(["Spezialisierungen: " + specs], 20.0, yEnd);
      yEnd := yEnd + 5.0;
    } else {
      assert old(doc.pages)[|old(doc.pages)| - 1] + [] == old(doc.pages)[|old(doc.pages)| - 1];
    }
  }

  /** Writes one entry on the current (last) page from cursor `y`; returns the new cursor. */
  method WriteEntry(doc: PdfDoc, c: Company, index: nat, y: real, wrap: string -> seq<string>) returns (yEnd: real)
    requires doc.Valid() && doc.current == |doc.pages| - 1
    modifies doc
    ensures doc.Valid() && doc.current == |doc.pages| - 1
    ensures doc.pages == Place(old(doc.pages), Entry(c, index, y, wrap).0)
    ensures yEnd == Entry(c, index, y, wrap).1
  {
    ghost var start := doc.pages;
    var yPos := y;
    doc.SetFontSize(12);
    doc.SetFont(Bold);
    doc.Text([Heading(index, c.name)], 14.0, yPos);
    ghost var written := [TextItem([Heading(index, c.name)], 14.0, yPos, HeadingFont)];
    assert doc.pages == Place(start, written);
    yPos := yPos + LineHeight;
    ghost var before := yPos;
    yPos := WriteDescription(doc, c, yPos, wrap);
    PlaceTwice(start, written, DescriptionPart(c, before, wrap).0);
    written := written + DescriptionPart(c, before, wrap).0;
    doc.SetFontSize(9);
    doc.SetFont(Normal);
    before := yPos;
    yPos := WriteDetail(doc, "Adresse: ", c.address, yPos);
    PlaceTwice(start, written, Detail("Adresse: ", c.address, before).0);
    written := written + Detail("Adresse: ", c.address, before).0;
    before := yPos;
    yPos := WriteDetail(doc, "Website: ", c.website, yPos);
    PlaceTwice(start, written, Detail("Website: ", c.website, before).0);
    written := written + Detail("Website: ", c.website, before).0;
    before := yPos;
    yPos := WriteDetail(doc, "Email: ", c.email, yPos);
    PlaceTwice(start, written, Detail("Email: ", c.email, before).0);
    written := written + Detail("Email: ", c.email, before).0;
    before := yPos;
    yPos := WriteDetail(doc, "Telefon: ", c.phone, yPos);
    PlaceTwice(start, written, Detail("Telefon: ", c.phone, before).0);
    written := written + Detail("Telefon: ", c.phone, before).0;
    before := yPos;
    yPos := WriteSpecializations(doc, c, yPos);
    PlaceTwice(start, written, SpecializationsPart(c, before).0);
    written := written + SpecializationsPart(c, before).0;
    yEnd := yPos + 5.0;
  }

  /** The footer loop: page i of N gets `Seite i von N`. */
  method WriteFooters(doc: PdfDoc, pageWidth: real, pageHeight: real)
    requires doc.Valid()
    modifies doc
    ensures doc.Valid()
    ensures doc.pages == WithFooters(old(doc.pages), |old(doc.pages)|, pageWidth, pageHeight)
  {
    ghost var body := doc.pages;
    var totalPages := |doc.pages|;
    for i := 1 to totalPages + 1
      invariant doc.Valid() && |doc.pages| == totalPages
      invariant doc.pages == WithFooters(body, i - 1, pageWidth, pageHeight)
    {
      doc.SetPage(i);
      doc.SetFontSize(8);
      doc.SetFont(Italic);
      doc.Text(["Seite " + NatToString(i) + " von " + NatToString(totalPages)], pageWidth / 2.0, pageHeight - 10.0);
    }
  }

  /** `exportToPDF` up to `doc.save`: the document it builds. */
  method ExportToPdf(companies: seq<Company>, dateText: string, pageWidth: real, pageHeight: real, wrap: string -> seq<string>)
    returns (doc: PdfDoc)
    ensures fresh(doc) && doc.Valid()
    ensures doc.pages == Document(companies, dateText, pageWidth, pageHeight, wrap)
  {
    doc := new PdfDoc();
    WriteHeader(doc, dateText, |companies|);
    assert companies[..0] == [];
    var yPos := StartY;
    for i := 0 to |companies|
      invariant doc.Valid() && doc.current == |doc.pages| - 1
      invariant Layout(doc.pages, yPos) == LayoutOf(companies[..i], dateText, |companies|, pageHeight, wrap)
    {
      assert companies[..i + 1][..i] == companies[..i];
      if yPos > pageHeight - BottomMargin {
        doc.AddPage();
        yPos := TopY;
      }
      yPos := WriteEntry(doc, companies[i], i, yPos, wrap);
    }
    assert companies[..|companies|] == companies;
    WriteFooters(doc, pageWidth, pageHeight);
  }
}
