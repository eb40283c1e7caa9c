// The PDF processor: text assembly from the first ten pages, span positions
// from text blocks, table clean-up, and the header check on streams. The PDF
// parser itself is a parameter: it maps a path or the stream's bytes to the
// pages it finds, or to the message it fails with.
module PdfProcessor {
  import opened Wrappers
  import opened Text
  import opened Json
  import opened Streams

  /** Only the first ten pages of a document are read. */
  const PageLimit: nat := 10

  /** A span of a text line: its text (when present), box, font and size. */
  datatype Span = Span(text: Option<string>, bbox: Json, font: Json, size: Json)

  /** A block of the page dictionary; `kind` 0 is a text block. */
  datatype Block = Block(kind: int, lines: seq<seq<Span>>)

  /** A table as found on a page: rows of cells, a cell possibly `None`. */
  type RawTable = seq<seq<Option<string>>>

  /** What the parser gives for one page: its text, its blocks and its tables. */
  datatype Page = Page(text: string, blocks: seq<Block>, tables: seq<RawTable>)

  /** What is handed to the parser: a path, or the bytes of a stream. */
  datatype PdfInput = FromPath(path: string) | FromBytes(bytes: seq<byte>)

  type Parser = PdfInput -> Result<seq<Page>, string>

  /**
   * The argument a caller passes: a path, a `BytesIO`, a buffered file reader,
   * or any other object, named by its type.
   */
  datatype PdfSource = PathSource(path: string) | BytesSource(stream: ByteStream)
                     | ReaderSource(stream: ByteStream) | OtherSource(typeName: string)

  /** `str(type(source))` for the sources a function refuses. */
  function TypeText(source: PdfSource): string {
    match source
    case PathSource(_) => "<class 'str'>"
    case BytesSource(_) => "<class '_io.BytesIO'>"
    case ReaderSource(_) => "<class '_io.BufferedReader'>"
    case OtherSource(t) => "<class '" + t + "'>"
  }

  /**
   * Opening the document. A path goes to the parser as is, a `BytesIO` as all
   * of its bytes, and (only where `readers` holds) a buffered reader as the
   * bytes from its position on; anything else is refused by type.
   */
  function Open(source: PdfSource, parser: Parser, readers: bool): (r: Result<seq<Page>, string>)
    ensures source.OtherSource? || (source.ReaderSource? && !readers) ==> r.Err?
    ensures source.BytesSource? ==> r == parser(FromBytes(source.stream.data))
    ensures source.PathSource? ==> r == parser(FromPath(source.path))
  {
    match source
    case PathSource(p) => parser(FromPath(p))
    case BytesSource(s) => parser(FromBytes(s.data))
    case ReaderSource(s) =>
      if readers then parser(FromBytes(if s.pos <= |s.data| then s.data[s.pos..] else []))
      else Err("Unsupported PDF source type: " + TypeText(source))
    case OtherSource(_) => Err("Unsupported PDF source type: " + TypeText(source))
  }

  function Min(a: nat, b: nat): nat {
    if a <= b then a else b
  }

  /** The pages that are read: the first `min(len(doc), 10)`. */
  function ReadPages(pages: seq<Page>): (r: seq<Page>)
    ensures |r| == Min(|pages|, PageLimit) && r == pages[..|r|]
  {
    pages[..Min(|pages|, PageLimit)]
  }

  // ----- extract_text -----

  /** A page's text with its 1-based number. */
  datatype NumberedText = NumberedText(number: nat, text: string)

  /** The pages that contribute to the text: those with non-whitespace text, in page order. */
  function Kept(pages: seq<Page>): (k: seq<NumberedText>)
    ensures |k| <= |pages|
    ensures forall e :: e in k ==> 1 <= e.number <= |pages| && e.text == pages[e.number - 1].text && !Blank(e.text)
    decreases |pages|
  {
    if pages == [] then []
    else
      var last := pages[|pages| - 1];
      Kept(pages[..|pages| - 1]) + (if Blank(last.text) then [] else [NumberedText(|pages|, last.text)])
  }

  /** A page contributes iff its text is not blank. */
  lemma {:induction false} KeptIff(pages: seq<Page>, i: nat)
    requires i < |pages|
    ensures NumberedText(i + 1, pages[i].text) in Kept(pages) <==> !Blank(pages[i].text)
    decreases |pages|
  {
    if i < |pages| - 1 && !Blank(pages[i].text) {
      var init := pages[..|pages| - 1];
      KeptIff(init, i);
    }
  }

  predicate InPageOrder(k: seq<NumberedText>) {
    forall a, b :: 0 <= a < b < |k| ==> k[a].number < k[b].number
  }

  /** Contributions appear in increasing page order. */
  lemma {:induction false} KeptInOrder(pages: seq<Page>)
    ensures InPageOrder(Kept(pages))
    decreases |pages|
  {
    if pages != [] {
      var init := pages[..|pages| - 1];
      KeptInOrder(init);
      var k0 := Kept(init);
      var last := pages[|pages| - 1];
      var k := Kept(pages);
      assert k == k0 + (if Blank(last.text) then [] else [NumberedText(|pages|, last.text)]);
      forall a, b | 0 <= a < b < |k|
        ensures k[a].number < k[b].number
      {
        assert k[a] == k0[a] && k0[a] in k0;
        assert k0[a].number <= |init|;
        if b >= |k0| {
          assert k[b].number == |pages|;
        } else {
          assert k[b] == k0[b];
          assert k0[a].number < k0[b].number;
        }
      }
    }
  }

  /** `f"--- Page {n} ---\n{text}"` */
  function Render(p: NumberedText): string {
    "--- Page " + NatToString(p.number) + " ---\n" + p.text
  }

  function RenderAll(k: seq<NumberedText>): (r: seq<string>)
    ensures |r| == |k| && forall i :: 0 <= i < |k| ==> r[i] == Render(k[i])
    decreases |k|
  {
    if k == [] then [] else RenderAll(k[..|k| - 1]) + [Render(k[|k| - 1])]
  }

  /** The text of the pages read: each contributing page rendered, joined by a blank line. */
  function PagesText(pages: seq<Page>): string {
    Join("\n\n", RenderAll(Kept(ReadPages(pages))))
  }

  /** `extract_text`: the assembled text, or the failure wrapped in one message. */
  function ExtractTextResult(source: PdfSource, parser: Parser): (r: Result<string, string>)
    ensures r.Err? <==> Open(source, parser, true).Err?
    ensures r.Err? ==> r.error == "Failed to extract text from PDF: " + Open(source, parser, true).error
  {
    match Open(source, parser, true)
    case Err(e) => Err("Failed to extract text from PDF: " + e)
    case Ok(pages) => Ok(PagesText(pages))
  }

  /** A document none of whose first ten pages has text yields `""`, not an error. */
  lemma {:induction false} NoTextIsEmpty(pages: seq<Page>)
    requires forall i :: 0 <= i < |pages| && i < PageLimit ==> Blank(pages[i].text)
    ensures PagesText(pages) == ""
  {
    var r := ReadPages(pages);
    AllBlankKeepsNothing(r);
  }

  lemma {:induction false} AllBlankKeepsNothing(pages: seq<Page>)
    requires forall i :: 0 <= i < |pages| ==> Blank(pages[i].text)
    ensures Kept(pages) == []
    decreases |pages|
  {
    if pages != [] {
      AllBlankKeepsNothing(pages[..|pages| - 1]);
    }
  }

  /** Pages after the tenth never change the text. */
  lemma PagesBeyondLimitIgnored(pages: seq<Page>, more: seq<Page>)
    requires |pages| >= PageLimit
    ensures PagesText(pages + more) == PagesText(pages)
  {
    assert ReadPages(pages + more) == ReadPages(pages);
  }

  /** A one-page document with text yields that page under its header. */
  lemma SinglePageText(p: Page)
    requires !Blank(p.text)
    ensures PagesText([p]) == "--- Page 1 ---\n" + p.text
  {
    assert ReadPages([p]) == [p];
    assert [p][..0] == [];
    assert Kept([p]) == [NumberedText(1, p.text)];
  }

  /** One more page read extends the rendered text by that page, if it has text. */
  lemma KeptStep(pages: seq<Page>, i: nat)
    requires i < |pages|
    ensures RenderAll(Kept(pages[..i + 1])) ==
      RenderAll(Kept(pages[..i])) + (if Blank(pages[i].text) then [] else [Render(NumberedText(i + 1, pages[i].text))])
  {
    var init := pages[..i + 1];
    assert init[..i] == pages[..i] && init[i] == pages[i];
    if !Blank(pages[i].text) {
      RenderAllSnoc(Kept(pages[..i]), NumberedText(i + 1, pages[i].text));
    }
  }

  lemma RenderAllSnoc(k: seq<NumberedText>, x: NumberedText)
    ensures RenderAll(k + [x]) == RenderAll(k) + [Render(x)]
  {
    assert (k + [x])[..|k|] == k;
  }

  /**
   * `extract_text`: the page loop, with the document closed on every path on
   * which it was opened (`closed`).
   */
  method ExtractText(source: PdfSource, parser: Parser) returns (r: Result<string, string>, closed: bool)
    ensures r == ExtractTextResult(source, parser)
    ensures closed <==> Open(source, parser, true).Ok?
  {
    var doc := Open(source, parser, true);
    if doc.Err? {
      return Err("Failed to extract text from PDF: " + doc.error), false;
    }
    var pages := doc.value;
    var n := Min(|pages|, PageLimit);
    var content: seq<string> := [];
    var i := 0;
    while i < n
      invariant 0 <= i <= n
      invariant content == RenderAll(Kept(pages[..i]))
    {
      KeptStep(pages, i);
      if !Blank(pages[i].text) {
        content := content + [Render(NumberedText(i + 1, pages[i].text))];
      }
      i := i + 1;
    }
    assert pages[..n] == ReadPages(pages);
    r, closed := Ok(Join("\n\n", content)), true;
  }

  /** `extract_text_from_stream`: the same as `extract_text` on the stream. */
  method ExtractTextFromStream(stream: ByteStream, parser: Parser) returns (r: Result<string, string>)
    ensures r == ExtractTextResult(BytesSource(stream), parser)
    ensures r.Ok? <==> parser(FromBytes(stream.data)).Ok?
  {
    var closed;
    r, closed := ExtractText(BytesSource(stream), parser);
  }

  // ----- extract_text_with_positions -----

  /** One entry of the position list: a span and the 1-based page it is on. */
  datatype Positioned = Positioned(text: string, page: nat, bbox: Json, font: Json, size: Json)

  function EntryOf(s: Span, page: nat): Positioned {
    Positioned(if s.text.Some? then s.text.value else "", page, s.bbox, s.font, s.size)
  }

  function SpanEntries(spans: seq<Span>, page: nat): (r: seq<Positioned>)
    ensures |r| == |spans| && forall e :: e in r ==> e.page == page
    decreases |spans|
  {
    if spans == [] then [] else SpanEntries(spans[..|spans| - 1], page) + [EntryOf(spans[|spans| - 1], page)]
  }

  function LineEntries(lines: seq<seq<Span>>, page: nat): (r: seq<Positioned>)
    ensures forall e :: e in r ==> e.page == page
    decreases |lines|
  {
    if lines == [] then [] else LineEntries(lines[..|lines| - 1], page) + SpanEntries(lines[|lines| - 1], page)
  }

  /** The entries of a block: its spans if it is a text block, none otherwise. */
  function BlockEntries(b: Block, page: nat): (r: seq<Positioned>)
    ensures b.kind != 0 ==> r == []
    ensures forall e :: e in r ==> e.page == page
  {
    if b.kind == 0 then LineEntries(b.lines, page) else []
  }

  function BlocksEntries(blocks: seq<Block>, page: nat): (r: seq<Positioned>)
    ensures forall e :: e in r ==> e.page == page
    decreases |blocks|
  {
    if blocks == [] then [] else BlocksEntries(blocks[..|blocks| - 1], page) + BlockEntries(blocks[|blocks| - 1], page)
  }

  /** Every span of every text block, page by page. */
  function PageEntries(pages: seq<Page>): (r: seq<Positioned>)
    ensures forall e :: e in r ==> 1 <= e.page <= |pages|
    decreases |pages|
  {
    if pages == [] then [] else PageEntries(pages[..|pages| - 1]) + BlocksEntries(pages[|pages| - 1].blocks, |pages|)
  }

  /** A page without text blocks adds no entries. */
  lemma {:induction false} NonTextBlocksIgnored(blocks: seq<Block>, page: nat)
    requires forall i :: 0 <= i < |blocks| ==> blocks[i].kind != 0
    ensures BlocksEntries(blocks, page) == []
    decreases |blocks|
  {
    if blocks != [] {
      NonTextBlocksIgnored(blocks[..|blocks| - 1], page);
    }
  }

  /** A text block contributes one entry per span, in order. */
  lemma {:induction false} LineEntriesCount(lines: seq<seq<Span>>, page: nat, total: nat)
    requires total == SpanCount(lines)
    ensures |LineEntries(lines, page)| == total
    decreases |lines|
  {
    if lines != [] {
      LineEntriesCount(lines[..|lines| - 1], page, SpanCount(lines[..|lines| - 1]));
    }
  }

  function SpanCount(lines: seq<seq<Span>>): nat
    decreases |lines|
  {
    if lines == [] then 0 else SpanCount(lines[..|lines| - 1]) + |lines[|lines| - 1]|
  }

  /** `extract_text_with_positions`: the entries of the pages read, or the failure. */
  function PositionsResult(source: PdfSource, parser: Parser): (r: Result<seq<Positioned>, string>)
    ensures r.Err? <==> Open(source, parser, false).Err?
    ensures r.Ok? ==> forall e :: e in r.value ==> 1 <= e.page <= PageLimit
  {
    match Open(source, parser, false)
    case Err(e) => Err("Failed to extract text with positions: " + e)
    case Ok(pages) => Ok(PageEntries(ReadPages(pages)))
  }

  method ExtractTextWithPositions(source: PdfSource, parser: Parser) returns (r: Result<seq<Positioned>, string>)
    ensures r == PositionsResult(source, parser)
  {
    var doc := Open(source, parser, false);
    if doc.Err? {
      return Err("Failed to extract text with positions: " + doc.error);
    }
    var pages := doc.value;
    var n := Min(|pages|, PageLimit);
    var out: seq<Positioned> := [];
    var i := 0;
    while i < n
      invariant 0 <= i <= n
      invariant out == PageEntries(pages[..i])
    {
      PageEntriesStep(pages, i);
      out := AppendBlocks(out, pages[i].blocks, i + 1);
      i := i + 1;
    }
    assert pages[..n] == ReadPages(pages);
    r := Ok(out);
  }

  lemma PageEntriesStep(pages: seq<Page>, i: nat)
    requires i < |pages|
    ensures PageEntries(pages[..i + 1]) == PageEntries(pages[..i]) + BlocksEntries(pages[i].blocks, i + 1)
  {
    var init := pages[..i + 1];
    assert init[..i] == pages[..i] && init[i] == pages[i];
  }

  lemma BlocksEntriesStep(blocks: seq<Block>, j: nat, page: nat)
    requires j < |blocks|
    ensures BlocksEntries(blocks[..j + 1], page) == BlocksEntries(blocks[..j], page) + BlockEntries(blocks[j], page)
  {
    var init := blocks[..j + 1];
    assert init[..j] == blocks[..j] && init[j] == blocks[j];
  }

  /** The block loop of one page. */
  method AppendBlocks(out: seq<Positioned>, blocks: seq<Block>, page: nat) returns (r: seq<Positioned>)
    ensures r == out + BlocksEntries(blocks, page)
  {
    r := out;
    var j := 0;
    while j < |blocks|
      invariant 0 <= j <= |blocks|
      invariant r == out + BlocksEntries(blocks[..j], page)
    {
      BlocksEntriesStep(blocks, j, page);
      r := AppendBlock(r, blocks[j], page);
      j := j + 1;
    }
    assert blocks[..j] == blocks;
  }

  /** One block of the loop: a text block adds its spans, any other block nothing. */
  method AppendBlock(out: seq<Positioned>, b: Block, page: nat) returns (r: seq<Positioned>)
    ensures r == out + BlockEntries(b, page)
  {
    r := out;
    if b.kind == 0 {
      r := AppendLines(r, b.lines, page);
    }
  }

  /** The line loop of one text block. */
  method AppendLines(out: seq<Positioned>, lines: seq<seq<Span>>, page: nat) returns (r: seq<Positioned>)
    ensures r == out + LineEntries(lines, page)
  {
    r := out;
    var k := 0;
    while k < |lines|
      invariant 0 <= k <= |lines|
      invariant r == out + LineEntries(lines[..k], page)
    {
      assert lines[..k + 1][..k] == lines[..k];
      r := AppendSpans(r, lines[k], page);
      k := k + 1;
    }
    assert lines[..k] == lines;
  }

  /** The span loop of one line. */
  method AppendSpans(out: seq<Positioned>, spans: seq<Span>, page: nat) returns (r: seq<Positioned>)
    ensures r == out + SpanEntries(spans, page)
  {
    r := out;
    var l := 0;
    while l < |spans|
      invariant 0 <= l <= |spans|
      invariant r == out + SpanEntries(spans[..l], page)
    {
      assert spans[..l + 1][..l] == spans[..l];
      r := r + [EntryOf(spans[l], page)];
      l := l + 1;
    }
    assert spans[..l] == spans;
  }

  // ----- extract_tables -----

  /** `[cell if cell else "" for cell in row]` */
  function CleanRow(row: seq<Option<string>>): (r: seq<string>)
    ensures |r| == |row|
    ensures forall i :: 0 <= i < |row| ==> (r[i] == "" <==> row[i].None? || row[i].value == "")
    ensures forall i :: 0 <= i < |row| ==> row[i].Some? ==> r[i] == row[i].value
  {
    seq(|row|, i requires 0 <= i < |row| => if row[i].Some? then row[i].value else "")
  }

  function CleanTable(t: RawTable): (r: seq<seq<string>>)
    ensures |r| == |t|
    decreases |t|
  {
    if t == [] then [] else CleanTable(t[..|t| - 1]) + [CleanRow(t[|t| - 1])]
  }

  /** The cleaned tables of one page, tables without rows dropped. */
  function PageTables(ts: seq<RawTable>): (r: seq<seq<seq<string>>>)
    ensures forall t :: t in r ==> t != []
    decreases |ts|
  {
    if ts == [] then []
    else
      var t := CleanTable(ts[|ts| - 1]);
      PageTables(ts[..|ts| - 1]) + (if t != [] then [t] else [])
  }

  function TablesOf(pages: seq<Page>): (r: seq<seq<seq<string>>>)
    ensures forall t :: t in r ==> t != []
    decreases |pages|
  {
    if pages == [] then [] else TablesOf(pages[..|pages| - 1]) + PageTables(pages[|pages| - 1].tables)
  }

  /** `extract_tables`: the tables of the pages read; any failure gives no tables. */
  function TablesResult(source: PdfSource, parser: Parser): (r: seq<seq<seq<string>>>)
    ensures Open(source, parser, false).Err? ==> r == []
    ensures forall t :: t in r ==> t != []
  {
    match Open(source, parser, false)
    case Err(_) => []
    case Ok(pages) => TablesOf(ReadPages(pages))
  }

  /** Each table with rows is kept, cleaned; tables without rows add nothing. */
  lemma {:induction false} PageTablesCount(ts: seq<RawTable>)
    ensures |PageTables(ts)| == |set i | 0 <= i < |ts| && ts[i] != []|
    decreases |ts|
  {
    if ts != [] {
      var n := |ts| - 1;
      PageTablesCount(ts[..n]);
      var below := set i | 0 <= i < n && ts[..n][i] != [];
      var all := set i | 0 <= i < |ts| && ts[i] != [];
      assert below == set i | 0 <= i < n && ts[i] != [];
      if ts[n] != [] {
        assert all == below + {n};
      } else {
        assert all == below;
      }
    }
  }

  method ExtractTables(source: PdfSource, parser: Parser) returns (tables: seq<seq<seq<string>>>)
    ensures tables == TablesResult(source, parser)
  {
    var doc := Open(source, parser, false);
    if doc.Err? {
      return [];
    }
    var pages := doc.value;
    var n := Min(|pages|, PageLimit);
    tables := [];
    var i := 0;
    while i < n
      invariant 0 <= i <= n
      invariant tables == TablesOf(pages[..i])
    {
      TablesOfStep(pages, i);
      tables := AppendPageTables(tables, pages[i].tables);
      i := i + 1;
    }
    assert pages[..n] == ReadPages(pages);
  }

  lemma TablesOfStep(pages: seq<Page>, i: nat)
    requires i < |pages|
    ensures TablesOf(pages[..i + 1]) == TablesOf(pages[..i]) + PageTables(pages[i].tables)
  {
    var init := pages[..i + 1];
    assert init[..i] == pages[..i] && init[i] == pages[i];
  }

  /** The table loop of one page. */
  method AppendPageTables(out: seq<seq<seq<string>>>, ts: seq<RawTable>) returns (r: seq<seq<seq<string>>>)
    ensures r == out + PageTables(ts)
  {
    r := out;
    var j := 0;
    while j < |ts|
      invariant 0 <= j <= |ts|
      invariant r == out + PageTables(ts[..j])
    {
      assert ts[..j + 1][..j] == ts[..j];
      var extracted := CleanRows(ts[j]);
      if extracted != [] {
        r := r + [extracted];
      }
      j := j + 1;
    }
    assert ts[..j] == ts;
  }

  /** The row loop of one table. */
  method CleanRows(t: RawTable) returns (rows: seq<seq<string>>)
    ensures rows == CleanTable(t)
  {
    rows := [];
    var k := 0;
    while k < |t|
      invariant 0 <= k <= |t|
      invariant rows == CleanTable(t[..k])
    {
      assert t[..k + 1][..k] == t[..k];
      rows := rows + [CleanRow(t[k])];
      k := k + 1;
    }
    assert t[..k] == t;
  }

  // ----- validate_pdf_stream -----

  /** `b'%PDF-'`: a PDF file begins with this header (section 7.5.2 of ISO 32000-1). */
  const PdfHeader: seq<byte> := [0x25, 0x50, 0x44, 0x46, 0x2D]

  /**
   * `validate_pdf_stream`: rewind, read five bytes, rewind; valid iff those are
   * the header and the parser accepts the bytes. The stream comes back at 0.
   */
  function ValidatePdfStream(stream: ByteStream, parser: Parser): (r: (bool, ByteStream))
    ensures r.1 == ByteStream(stream.data, 0)
    ensures r.0 <==> |stream.data| >= 5 && stream.data[..5] == PdfHeader && parser(FromBytes(stream.data)).Ok?
  {
    var (header, s1) := Read(Seek(stream, 0), 5);
    var s2 := Seek(s1, 0);
    if header != PdfHeader then (false, s2)
    else (parser(FromBytes(s2.data)).Ok?, s2)
  }

  /** Whatever the parser would say, bytes not starting with the header are refused. */
  lemma NoHeaderRefused(stream: ByteStream, parser: Parser)
    requires |stream.data| < 5 || stream.data[..5] != PdfHeader
    ensures !ValidatePdfStream(stream, parser).0
  {
  }
}
