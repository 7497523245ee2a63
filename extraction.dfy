/**
 * The extraction dispatcher of `FileProcessor`: which files a scan admits,
 * how a path picks an extraction strategy, and how each strategy assembles
 * text from what its decoding library yields.
 */
module Extraction {
  import opened Strings
  import opened Outcomes

  /** A worksheet as ClosedXML presents it: its name, and the used cells' values of each used row. */
  datatype Worksheet = Worksheet(name: string, rows: seq<seq<string>>)

  /**
   * What each library yields for one file: `File.ReadAllText`; for each page,
   * the text iText's extraction strategy produces while processing that page;
   * the inner text of the Word body (`None` when there is no body); the
   * workbook's worksheets; the text nodes of each slide; Tesseract's text.
   */
  datatype DecodedFile = DecodedFile(
    text: Outcome<string>,
    pdfPages: Outcome<seq<Outcome<string>>>,
    wordBody: Outcome<Option<string>>,
    workbook: Outcome<seq<Worksheet>>,
    slides: Outcome<seq<seq<string>>>,
    ocr: Outcome<string>)

  /** The extraction strategy a path selects. */
  datatype Format = PlainText | Pdf | Word | Excel | PowerPoint | Image | Unsupported

  const ImageExtensions: seq<string> := [".jpg", ".jpeg", ".png", ".bmp", ".tiff", ".tif"]

  // ---------------------------------------------------------------------
  // Scanning and classification
  // ---------------------------------------------------------------------

  /**
   * `ScanFiles`: the enumerated paths that end with one of the extensions,
   * ignoring case, in enumeration order.
   */
  function ScanFiles(listing: seq<string>, extensions: seq<string>): (r: seq<string>)
    ensures |r| <= |listing|
  {
    if listing == [] then []
    else
      var n := |listing| - 1;
      ScanFiles(listing[..n], extensions) + (if AnyEndsWithIgnoreCase(listing[n], extensions) then [listing[n]] else [])
  }

  /** `IsImage`: the path ends with an image extension, ignoring case. */
  function IsImage(path: string): bool {
    AnyEndsWithIgnoreCase(path, ImageExtensions)
  }

  /**
   * The dispatch chain of `ExtractContent`: document suffixes are checked in
   * this order and with ordinal (case-sensitive) comparison, image suffixes
   * last and ignoring case.
   */
  function Classify(path: string): Format {
    if EndsWith(path, ".txt") || EndsWith(path, ".log") || EndsWith(path, ".csv") || EndsWith(path, ".err") then PlainText
    else if EndsWith(path, ".pdf") then Pdf
    else if EndsWith(path, ".docx") || EndsWith(path, ".doc") then Word
    else if EndsWith(path, ".xlsx") || EndsWith(path, ".xls") then Excel
    else if EndsWith(path, ".ppt") || EndsWith(path, ".pptx") then PowerPoint
    else if IsImage(path) then Image
    else Unsupported
  }

  // ---------------------------------------------------------------------
  // Text assembly per format (specification)
  // ---------------------------------------------------------------------

  /** Every used cell's value followed by one space. */
  function CellsText(cells: seq<string>): string {
    if cells == [] then "" else CellsText(cells[..|cells| - 1]) + cells[|cells| - 1] + " "
  }

  /** One line per used row. */
  function RowsText(rows: seq<seq<string>>, newLine: string): string {
    if rows == [] then "" else RowsText(rows[..|rows| - 1], newLine) + CellsText(rows[|rows| - 1]) + newLine
  }

  /** The header line, the row lines and a blank line. */
  function SheetText(sheet: Worksheet, newLine: string): string {
    "Worksheet: " + sheet.name + newLine + RowsText(sheet.rows, newLine) + newLine
  }

  /** The sheets' text in workbook order, before trimming. */
  function SheetsText(sheets: seq<Worksheet>, newLine: string): string {
    ConcatMap(sheets, SheetTextOf(newLine))
  }

  function SheetTextOf(newLine: string): Worksheet -> string {
    sheet => SheetText(sheet, newLine)
  }

  /** `ExtractFromExcel`: the trimmed sheets' text; "" when ClosedXML throws. */
  function ExcelText(workbook: Outcome<seq<Worksheet>>, newLine: string): string {
    match workbook
    case Threw => ""
    case Decoded(sheets) => Trim(SheetsText(sheets, newLine))
  }

  /** `ExtractFromPdf`, as intended: every page's text once, in page order, without separator. */
  function PdfText(document: Outcome<seq<Outcome<string>>>): string {
    match document
    case Threw => ""
    case Decoded(pages) =>
      match CollectAll(pages)
      case Threw => ""
      case Decoded(texts) => Flatten(texts)
  }

  /**
   * The text a single, shared `SimpleTextExtractionStrategy` returns page after
   * page: its buffer is never cleared, so after page k it holds pages 1..k, and
   * that whole buffer is appended each time.
   */
  function CumulativeText(texts: seq<string>): string {
    if texts == [] then "" else CumulativeText(texts[..|texts| - 1]) + Flatten(texts)
  }

  /** `ExtractFromPdf` as written (see `PdfPageRepeated`). */
  function PdfTextAsWritten(document: Outcome<seq<Outcome<string>>>): string {
    match document
    case Threw => ""
    case Decoded(pages) =>
      match CollectAll(pages)
      case Threw => ""
      case Decoded(texts) => CumulativeText(texts)
  }

  /** `ExtractFromWord`: the body's inner text; "" with no body or when OpenXml throws. */
  function WordText(body: Outcome<Option<string>>): string {
    match body
    case Decoded(Some(t)) => t
    case Decoded(None) => ""
    case Threw => ""
  }

  /** `ExtractFromPowerPoint`: all text nodes of all slides, one "\n" between every two nodes. */
  function PowerPointText(slides: Outcome<seq<seq<string>>>): string {
    match slides
    case Threw => ""
    case Decoded(s) => Join("\n", Flatten(s))
  }

  /** `ExtractFromImage`: Tesseract's text, trimmed; "" when it throws. */
  function ImageText(ocr: Outcome<string>): string {
    match ocr
    case Threw => ""
    case Decoded(t) => Trim(t)
  }

  /** What `ExtractContent` returns for a path; every failure becomes "". */
  function ExtractedText(path: string, file: DecodedFile, newLine: string): string {
    match Classify(path)
    case PlainText => (match file.text case Decoded(t) => t case Threw => "")
    case Pdf => PdfText(file.pdfPages)
    case Word => WordText(file.wordBody)
    case Excel => ExcelText(file.workbook, newLine)
    case PowerPoint => PowerPointText(file.slides)
    case Image => ImageText(file.ocr)
    case Unsupported => ""
  }

  // ---------------------------------------------------------------------
  // The imperative extraction
  // ---------------------------------------------------------------------

  /** `ExtractContent`: the dispatch chain, each strategy's failure caught and turned into "". */
  method ExtractContent(filePath: string, file: DecodedFile, newLine: string) returns (content: string)
    ensures content == ExtractedText(filePath, file, newLine)
  {
    if EndsWith(filePath, ".txt") || EndsWith(filePath, ".log") || EndsWith(filePath, ".csv") || EndsWith(filePath, ".err") {
      assert Classify(filePath) == PlainText;
      return if file.text.Decoded? then file.text.value else "";
    }
    if EndsWith(filePath, ".pdf") {
      assert Classify(filePath) == Pdf;
      content := ExtractFromPdf(file.pdfPages);
      return;
    }
    if EndsWith(filePath, ".docx") || EndsWith(filePath, ".doc") {
      assert Classify(filePath) == Word;
      return WordText(file.wordBody);
    }
    if EndsWith(filePath, ".xlsx") || EndsWith(filePath, ".xls") {
      assert Classify(filePath) == Excel;
      content := ExtractFromExcel(file.workbook, newLine);
      return;
    }
    if EndsWith(filePath, ".ppt") || EndsWith(filePath, ".pptx") {
      assert Classify(filePath) == PowerPoint;
      return PowerPointText(file.slides);
    }
    if IsImage(filePath) {
      assert Classify(filePath) == Image;
      return ImageText(file.ocr);
    }
    // NotSupportedException, caught by the method's own handler
    return "";
  }

  /** `ExtractFromExcel`: a header line per sheet, a line per used row, a blank line per sheet, trimmed. */
  method ExtractFromExcel(workbook: Outcome<seq<Worksheet>>, newLine: string) returns (text: string)
    ensures text == ExcelText(workbook, newLine)
  {
    if workbook.Threw? {
      return "";
    }
    var sheets := workbook.value;
    var extracted := new StringBuilder(newLine);
    var i := 0;
    while i < |sheets|
      invariant 0 <= i <= |sheets|
      invariant extracted.text == SheetsText(sheets[..i], newLine)
    {
      AppendSheet(extracted, sheets[i]);
      assert sheets[..i + 1][..i] == sheets[..i];
      i := i + 1;
    }
    assert sheets[..i] == sheets;
    text := Trim(extracted.text);
  }

  /** One pass of the worksheet loop of `ExtractFromExcel`. */
  method AppendSheet(extracted: StringBuilder, sheet: Worksheet)
    modifies extracted
    ensures extracted.text == old(extracted.text) + SheetText(sheet, extracted.newLine)
  {
    extracted.AppendLine("Worksheet: " + sheet.name);
    AppendRows(extracted, sheet.rows);
    extracted.AppendLine("");
  }

  /** The row loop of `ExtractFromExcel`, over one worksheet's used rows. */
  method AppendRows(extracted: StringBuilder, rows: seq<seq<string>>)
    modifies extracted
    ensures extracted.text == old(extracted.text) + RowsText(rows, extracted.newLine)
  {
    var r := 0;
    while r < |rows|
      invariant 0 <= r <= |rows|
      invariant extracted.text == old(extracted.text) + RowsText(rows[..r], extracted.newLine)
    {
      AppendRow(extracted, rows[r]);
      assert rows[..r + 1][..r] == rows[..r];
      r := r + 1;
    }
    assert rows[..r] == rows;
  }

  /** One pass of the row loop of `ExtractFromExcel`. */
  method AppendRow(extracted: StringBuilder, cells: seq<string>)
    modifies extracted
    ensures extracted.text == old(extracted.text) + CellsText(cells) + extracted.newLine
  {
    var c := 0;
    while c < |cells|
      invariant 0 <= c <= |cells|
      invariant extracted.text == old(extracted.text) + CellsText(cells[..c])
    {
      assert cells[..c + 1][..c] == cells[..c];
      extracted.Append(cells[c] + " ");
      c := c + 1;
    }
    assert cells[..c] == cells;
    extracted.AppendLine("");
  }

  /** `ExtractFromPdf`, as intended: each page's text appended once. */
  method ExtractFromPdf(document: Outcome<seq<Outcome<string>>>) returns (text: string)
    ensures text == PdfText(document)
  {
    if document.Threw? {
      return "";
    }
    var pages := document.value;
    var builder := new StringBuilder("");
    var page := 0;
    while page < |pages|
      invariant 0 <= page <= |pages|
      invariant CollectAll(pages[..page]).Decoded?
      invariant builder.text == Flatten(CollectAll(pages[..page]).value)
    {
      assert pages[..page + 1][..page] == pages[..page];
      if pages[page].Threw? {
        return "";
      }
      builder.Append(pages[page].value);
      page := page + 1;
    }
    assert pages[..page] == pages;
    text := builder.text;
  }

  /** `ExtractFromPdf` as written: one strategy object shared by all pages, its whole text appended per page. */
  method ExtractFromPdfAsWritten(document: Outcome<seq<Outcome<string>>>) returns (text: string)
    ensures text == PdfTextAsWritten(document)
  {
    if document.Threw? {
      return "";
    }
    var pages := document.value;
    var builder := new StringBuilder("");
    var strategy := new StringBuilder("");
    var page := 0;
    while page < |pages|
      invariant 0 <= page <= |pages|
      invariant CollectAll(pages[..page]).Decoded?
      invariant strategy.text == Flatten(CollectAll(pages[..page]).value)
      invariant builder.text == CumulativeText(CollectAll(pages[..page]).value)
    {
      assert pages[..page + 1][..page] == pages[..page];
      if pages[page].Threw? {
        return "";
      }
      strategy.Append(pages[page].value);
      builder.Append(strategy.text);
      page := page + 1;
    }
    assert pages[..page] == pages;
    text := builder.text;
  }

  // ---------------------------------------------------------------------
  // Properties
  // ---------------------------------------------------------------------

  /** Scanning keeps enumeration order: the scan of a + b is the scan of a, then the scan of b. */
  lemma {:induction false} ScanFilesAppend(a: seq<string>, b: seq<string>, extensions: seq<string>)
    ensures ScanFiles(a + b, extensions) == ScanFiles(a, extensions) + ScanFiles(b, extensions)
    decreases |b|
  {
    if b == [] {
      assert a + b == a;
    } else {
      var n := |b| - 1;
      var ab := a + b;
      assert ab[..|ab| - 1] == a + b[..n] && ab[|ab| - 1] == b[n];
      var last := if AnyEndsWithIgnoreCase(b[n], extensions) then [b[n]] else [];
      assert ScanFiles(ab, extensions) == ScanFiles(a + b[..n], extensions) + last;
      ScanFilesAppend(a, b[..n], extensions);
      assert ScanFiles(b, extensions) == ScanFiles(b[..n], extensions) + last;
    }
  }

  /** The scan keeps exactly the enumerated paths that end with a supported extension, ignoring case. */
  lemma {:induction false} ScanFilesExactly(listing: seq<string>, extensions: seq<string>, f: string)
    ensures f in ScanFiles(listing, extensions) <==> f in listing && AnyEndsWithIgnoreCase(f, extensions)
  {
    if listing != [] {
      var n := |listing| - 1;
      ScanFilesExactly(listing[..n], extensions, f);
      assert listing == listing[..n] + [listing[n]];
    }
  }

  /** No extensions admit nothing; the empty extension admits every path. */
  lemma {:induction false} ScanFilesBounds(listing: seq<string>, extensions: seq<string>)
    ensures extensions == [] ==> ScanFiles(listing, extensions) == []
    ensures "" in extensions ==> ScanFiles(listing, extensions) == listing
  {
    if listing != [] {
      var n := |listing| - 1;
      ScanFilesBounds(listing[..n], extensions);
      if "" in extensions {
        var k :| 0 <= k < |extensions| && extensions[k] == "";
        assert EndsWithIgnoreCase(listing[n], extensions[k]);
        assert listing[..n] + [listing[n]] == listing;
      }
    }
  }

  /** `IsImage` ignores case: paths equal up to case are both images or both not. */
  lemma IsImageIgnoresCase(p: string, q: string)
    requires Fold(p) == Fold(q)
    ensures IsImage(p) == IsImage(q)
  {
    forall k | 0 <= k < |ImageExtensions|
      ensures EndsWithIgnoreCase(p, ImageExtensions[k]) == EndsWithIgnoreCase(q, ImageExtensions[k])
    {
    }
  }

  lemma FoldedImageExtensions()
    ensures Fold(ImageExtensions[0]) == ".JPG" && Fold(ImageExtensions[1]) == ".JPEG"
    ensures Fold(ImageExtensions[2]) == ".PNG" && Fold(ImageExtensions[3]) == ".BMP"
    ensures Fold(ImageExtensions[4]) == ".TIFF" && Fold(ImageExtensions[5]) == ".TIF"
  {
  }

  /** "A.PDF" is not an image: no image extension matches it, whatever the case. */
  lemma UpperPdfIsNotImage()
    ensures !IsImage("A.PDF")
  {
    assert Fold("A.PDF") == "A.PDF";
    FoldedImageExtensions();
    forall k | 0 <= k < |ImageExtensions|
      ensures !EndsWithIgnoreCase("A.PDF", ImageExtensions[k])
    {
      var e := Fold(ImageExtensions[k]);
      if |e| == 5 {
        assert "A.PDF"[0] != e[0];
      } else {
        assert "A.PDF"[1..][2] != e[2];
      }
    }
  }

  /** A scan for ".pdf" admits "A.PDF": the scan ignores case. */
  lemma ScanAdmitsUpperCase()
    ensures ScanFiles(["A.PDF"], [".pdf"]) == ["A.PDF"]
  {
    assert Fold("A.PDF")[1..] == ".PDF" == Fold(".pdf");
    assert EndsWithIgnoreCase("A.PDF", [".pdf"][0]);
    assert ["A.PDF"][..0] == [];
  }

  /** Case matters for documents: "A.PDF" finds no strategy and yields "". */
  lemma UpperCasePdfUnsupported(file: DecodedFile, newLine: string)
    ensures Classify("A.PDF") == Unsupported && ExtractedText("A.PDF", file, newLine) == ""
  {
    UpperPdfIsNotImage();
    OnlyImagesEndInCapitals("A.PDF");
  }

  /** "A.PNG" is an image: the image test ignores case. */
  lemma UpperPngIsImage()
    ensures IsImage("A.PNG")
  {
    FoldedImageExtensions();
    assert Fold("A.PNG")[1..] == ".PNG";
    assert EndsWithIgnoreCase("A.PNG", ImageExtensions[2]);
  }

  /** Case does not matter for images: "A.PNG" goes to OCR. */
  lemma UpperCasePngIsImage(file: DecodedFile, newLine: string)
    ensures Classify("A.PNG") == Image && ExtractedText("A.PNG", file, newLine) == ImageText(file.ocr)
  {
    UpperPngIsImage();
    OnlyImagesEndInCapitals("A.PNG");
  }

  /** Every document suffix ends in a lower-case letter, so a path ending in a capital can only be an image. */
  lemma OnlyImagesEndInCapitals(path: string)
    requires path != [] && 'A' <= path[|path| - 1] <= 'Z'
    ensures Classify(path) == if IsImage(path) then Image else Unsupported
  {
    var suffixes := [".txt", ".log", ".csv", ".err", ".pdf", ".docx", ".doc", ".xlsx", ".xls", ".ppt", ".pptx"];
    forall k | 0 <= k < |suffixes|
      ensures !EndsWith(path, suffixes[k])
    {
      var s := suffixes[k];
      assert 'a' <= s[|s| - 1] <= 'z';
      if |s| <= |path| {
        assert path[|path| - |s|..][|s| - 1] == path[|path| - 1];
      }
    }
    assert !EndsWith(path, suffixes[0]) && !EndsWith(path, suffixes[1]) && !EndsWith(path, suffixes[2]);
    assert !EndsWith(path, suffixes[3]) && !EndsWith(path, suffixes[4]) && !EndsWith(path, suffixes[5]);
    assert !EndsWith(path, suffixes[6]) && !EndsWith(path, suffixes[7]) && !EndsWith(path, suffixes[8]);
    assert !EndsWith(path, suffixes[9]) && !EndsWith(path, suffixes[10]);
  }

  /** Plain-text files come through verbatim. */
  lemma PlainTextVerbatim(path: string, file: DecodedFile, newLine: string, t: string)
    requires EndsWith(path, ".txt") || EndsWith(path, ".log") || EndsWith(path, ".csv") || EndsWith(path, ".err")
    requires file.text == Decoded(t)
    ensures ExtractedText(path, file, newLine) == t
  {
  }

  /** Excel: the sheets' text keeps workbook order. */
  lemma SheetsTextAppend(a: seq<Worksheet>, b: seq<Worksheet>, newLine: string)
    ensures SheetsText(a + b, newLine) == SheetsText(a, newLine) + SheetsText(b, newLine)
  {
    ConcatMapAppend(a, b, SheetTextOf(newLine));
  }

  /** Excel: the text before trimming is the sheets before `i`, sheet `i`, then the rest. */
  lemma SheetsTextAt(sheets: seq<Worksheet>, newLine: string, i: nat)
    requires i < |sheets|
    ensures SheetsText(sheets, newLine)
            == SheetsText(sheets[..i], newLine) + SheetText(sheets[i], newLine) + SheetsText(sheets[i + 1..], newLine)
  {
    var before, one, after := sheets[..i], [sheets[i]], sheets[i + 1..];
    assert sheets == before + (one + after);
    SheetsTextAppend(before, one + after, newLine);
    SheetsTextAppend(one, after, newLine);
    assert SheetsText(one, newLine) == SheetText(sheets[i], newLine) by {
      assert one[..0] == [];
      assert SheetsText(one, newLine) == SheetsText([], newLine) + SheetTextOf(newLine)(sheets[i]);
    }
  }

  /** Excel: before trimming, sheet `i`'s header starts where the sheets before it end. */
  lemma HeaderAt(sheets: seq<Worksheet>, newLine: string, i: nat)
    requires i < |sheets|
    ensures var raw := SheetsText(sheets, newLine);
            var at := |SheetsText(sheets[..i], newLine)|;
            at + 10 <= |raw| && raw[at..at + 10] == "Worksheet:"
  {
    var before := SheetsText(sheets[..i], newLine);
    var header := SheetText(sheets[i], newLine);
    SheetsTextAt(sheets, newLine, i);
    assert header[..10] == "Worksheet:";
    SliceOfPrefix(before + header, SheetsText(sheets, newLine), |before|, |before| + 10);
    assert (before + header)[|before|..|before| + 10] == header[..10];
  }

  /**
   * Excel: every worksheet's header survives the final trim, at the offset
   * where its sheet starts, so the headers appear in workbook order.
   */
  lemma ExcelHeaders(sheets: seq<Worksheet>, newLine: string, i: nat)
    requires i < |sheets|
    ensures var text := ExcelText(Decoded(sheets), newLine);
            var at := |SheetsText(sheets[..i], newLine)|;
            at + 10 <= |text| && text[at..at + 10] == "Worksheet:"
  {
    var raw := SheetsText(sheets, newLine);
    var at := |SheetsText(sheets[..i], newLine)|;
    HeaderAt(sheets, newLine, i);
    HeaderAt(sheets, newLine, 0);
    assert sheets[..0] == [];
    assert raw[0] == raw[0..10][0] == 'W';
    assert raw[at + 9] == raw[at..at + 10][9] == ':';
    TrimEndKeeps(raw, at + 9);
    assert Trim(raw) == TrimEnd(raw);
    SliceOfPrefix(TrimEnd(raw), raw, at, at + 10);
  }

  lemma SliceOfPrefix(t: string, s: string, lo: nat, hi: nat)
    requires t <= s && lo <= hi <= |t|
    ensures t[lo..hi] == s[lo..hi]
  {
  }

  /** PowerPoint: slides are joined like nodes, one "\n" between the last node of one and the first of the next. */
  lemma SlidesJoined(a: seq<seq<string>>, b: seq<seq<string>>)
    requires Flatten(a) != [] && Flatten(b) != []
    ensures PowerPointText(Decoded(a + b)) == PowerPointText(Decoded(a)) + "\n" + PowerPointText(Decoded(b))
  {
    FlattenAppend(a, b);
    JoinAppend("\n", Flatten(a), Flatten(b));
  }

  /** PowerPoint: splitting the text at "\n" gives back every node, when no node holds a line break. */
  lemma SlideNodesRecoverable(slides: seq<seq<string>>)
    requires Flatten(slides) != []
    requires forall i :: 0 <= i < |Flatten(slides)| ==> '\n' !in Flatten(slides)[i]
    ensures Split(PowerPointText(Decoded(slides)), '\n') == Flatten(slides)
  {
    SplitJoin(Flatten(slides), '\n');
  }

  /** The iText text of a document is the text of its first pages followed by that of the rest. */
  lemma PdfPagesInOrder(a: seq<string>, b: seq<string>)
    ensures PdfText(Decoded(AllDecoded(a + b))) == PdfText(Decoded(AllDecoded(a))) + PdfText(Decoded(AllDecoded(b)))
  {
    AllDecodedCollects(a);
    AllDecodedCollects(b);
    AllDecodedCollects(a + b);
    FlattenAppend(a, b);
  }

  /**
   * As written, two pages with texts "A" and "B" give "AAB": the first page's
   * text is repeated once for every later page.
   */
  lemma PdfPageRepeated()
    ensures PdfTextAsWritten(Decoded(AllDecoded(["A", "B"]))) == "AAB"
    ensures PdfText(Decoded(AllDecoded(["A", "B"]))) == "AB"
  {
    var texts := ["A", "B"];
    AllDecodedCollects(texts);
    assert texts[..1] == ["A"] && texts[..1][..0] == [];
    assert Flatten(texts[..1]) == "A";
    assert Flatten(texts) == "AB";
    assert CumulativeText(texts[..1]) == "A";
    assert CumulativeText(texts) == "A" + "AB";
  }
}
