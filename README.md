# DocCentrik scanning pipeline in Dafny

DocCentrik walks a folder tree and extracts the text of each document it finds: plain text, PDF, Word, Excel, PowerPoint, or an image through OCR. It searches that text for configured keywords and regular expressions. It logs a status line and one report line per match for every file, and it can upload matching files over SFTP.

This project models the core of that pipeline:

- `FileProcessor`:
  - the folder scan filter;
  - the match engine `SearchContent`;
  - the extraction dispatcher `ExtractContent`;
  - the per-format text assembly for Excel, PDF through iText, Word, PowerPoint and images.
- `PDFProcessor`: the recursive content-object walk of the PdfSharpCore extractor and its page loop.
- `Program.Main`: the per-file loop, with the logger and the uploader as objects with state.

Each module is one Dafny file:

| module | file | models |
|---|---|---|
| `Strings` | strings.dfy | the .NET string operations the code uses: ordinal ignore-case comparison, `EndsWith`, `Contains`, `Trim`, `string.Join`, `Path.GetExtension`, and `StringBuilder` as a class |
| `Outcomes` | outcomes.dfy | the result of a call into a library: either a value or an exception |
| `MatchEngine` | match_engine.dfy | `SearchContent` |
| `Extraction` | extraction.dfy | `ScanFiles`, `IsImage`, `ExtractContent` and the `ExtractFrom*` helpers |
| `PdfContent` | pdf_content.dfy | `PDFProcessor.ExtractText` and `ExtractTextFromContent` |
| `Orchestration` | orchestration.dfy | `Program.Main`, `Logger`, `SftpUploader` |

Everything outside the program is an input:

- what each decoding library yields for a file (`Extraction.DecodedFile`);
- the regular-expression engine, which says whether a pattern compiles and lists its matches (`MatchEngine.RegexEngine`);
- the directory listing;
- whether an SFTP transfer succeeds;
- `Environment.NewLine`.

An exception thrown by a library is the value `Threw`. The imperative code stays imperative:

- `SearchContent`, `ExtractFromExcel`, both PDF extractors, `Run` and the file-loop body are methods with loops.
- `ExtractTextFromContent` is a recursive method that appends to a `StringBuilder` object it is passed.
- `Logger` and `SftpUploader` are classes whose methods append to their fields.

Each method is proved equal to a specification function. The properties are proved about those functions.

### Where the code and the design documentation disagree

The model follows the code, with one exception: the PDF branch of the dispatcher uses the corrected page loop. See "## Findings" and "## Left out".

- **Dispatch is case-sensitive.** `ExtractContent` compares document suffixes case-sensitively, so "A.PDF" is unsupported and yields "". Image suffixes are the only ones compared ignoring case. The documentation says classification ignores case.
- **The empty keyword matches empty text.** The empty keyword is contained in every text, including the empty text, so empty content can still yield a match. The documentation says empty text gives an empty result.
- **An invalid pattern fails every file, not the run, when the mode is "regex" or "both".** A pattern that does not compile is not rejected at startup. In those modes it throws inside the loop for every file, and each file is logged as "Error" (`InvalidPatternFailsEveryFile`). In mode "keywords" patterns are never compiled.
- **A failed extraction never causes "Error" by itself.** An unsupported or unreadable file is searched as "" like any other text (`ErrorOnlyFromPatternsOrUpload`). It still gets "Error" when a pattern does not compile and the mode is "regex" or "both". It gets a match when a keyword is empty and the mode is "keywords" or "both". It also gets one when a pattern matches the empty text and the mode is "regex" or "both". That match leads to "Match Found", possibly an upload, and "Error" if the upload fails.
- **A failed upload adds a second status.** It adds an "Error" line after the file's "Match Found" line.
- **PowerPoint puts "\n" between every text node.** The separator sits between every two nodes, not only between slides.
- **An empty log directory crashes the run.** `LogDirectory` defaults to "", and the `Logger` constructor throws for it. The exception is not caught, so a configuration without a log directory ends the run before any file is scanned. A folder that `Directory.GetFiles` cannot list ends it in the same way.

## Model

| member | source | states |
|---|---|---|
| Strings.AnyEndsWithIgnoreCase | DocCentrik/DocCentrik/Services/FileProcessor.cs:37 | true exactly when some listed suffix ends the string, ignoring case |
| Strings.EndsWith | DocCentrik/DocCentrik/Services/FileProcessor.cs:93-118 | definition: ordinal `EndsWith`: the suffix is no longer than the string and equals its tail |
| Strings.EndsWithIgnoreCase | DocCentrik/DocCentrik/Services/FileProcessor.cs:37 | definition: `EndsWith` after case folding both strings, as `OrdinalIgnoreCase` at lines 37 and 263 |
| Strings.EqualsIgnoreCase | DocCentrik/DocCentrik/Services/FileProcessor.cs:56 | definition: the two strings are equal after case folding, as `StringComparison.OrdinalIgnoreCase` compares them |
| Strings.ContainsIgnoreCase | DocCentrik/DocCentrik/Services/FileProcessor.cs:60 | definition: the folded needle occurs at some index of the folded text; the empty needle occurs in every text (`EmptyKeywordAlwaysMatches`) |
| Strings.TrimEnd | DocCentrik/DocCentrik/Services/FileProcessor.cs:207 | the result is a prefix of the input and does not end in white space |
| Strings.TrimEndRemovesWhiteSpace | DocCentrik/DocCentrik/Services/FileProcessor.cs:207 | everything a trailing trim removes is white space |
| Strings.TrimStart | DocCentrik/DocCentrik/Services/FileProcessor.cs:227 | the result is a suffix of the input and does not start with white space |
| Strings.TrimStartRemovesWhiteSpace | DocCentrik/DocCentrik/Services/FileProcessor.cs:227 | everything a leading trim removes is white space |
| Strings.Trim | DocCentrik/DocCentrik/Services/FileProcessor.cs:207 | neither end of the result is white space; for an input that starts with a non-white character it is the trailing trim |
| Strings.TrimEmptyIff | DocCentrik/DocCentrik/Services/FileProcessor.cs:227 | the trimmed text is empty exactly when the input is all white space |
| Strings.TrimIdempotent | DocCentrik/DocCentrik/Services/FileProcessor.cs:227 | trimming twice is trimming once |
| Strings.TrimEndKeeps | DocCentrik/DocCentrik/Services/FileProcessor.cs:207 | a non-white character survives a trailing trim at its index |
| Strings.FlattenAppend | DocCentrik/DocCentrik/Services/FileProcessor.cs:246 | concatenating pieces distributes over appending piece lists |
| Strings.Join | DocCentrik/DocCentrik/Services/FileProcessor.cs:246 | definition of `string.Join`: the pieces in order, with the separator between every two; its properties are `JoinAppend` and `SplitJoin` |
| Strings.ConcatMapAppend | DocCentrik/DocCentrik/Program.cs:44-89 | mapping each element to a sequence and concatenating distributes over appending the element lists |
| Strings.JoinAppend | DocCentrik/DocCentrik/Services/FileProcessor.cs:246 | for non-empty a and b, joining a ++ b is join(a), the separator, then join(b) |
| Strings.SplitWithout | DocCentrik/DocCentrik/Services/FileProcessor.cs:246 | a string without the separator splits into itself |
| Strings.SplitAfter | DocCentrik/DocCentrik/Services/FileProcessor.cs:246 | splitting x + sep + t gives x, then the pieces of t |
| Strings.SplitJoin | DocCentrik/DocCentrik/Services/FileProcessor.cs:246 | for a non-empty list of pieces none of which holds the separator, splitting their join gives back the pieces |
| Strings.GetExtension | DocCentrik/DocCentrik/Program.cs:66 | `Path.GetExtension`: "" or a suffix of the path of length at least 2 that starts with '.', holds no other '.' and no directory separator |
| Strings.GetExtensionExactly | DocCentrik/DocCentrik/Program.cs:66 | when a '.' that is not the last character is followed by no other '.' and no directory separator, the extension is exactly the suffix from that '.' |
| Strings.NoExtensionAfterSeparator | DocCentrik/DocCentrik/Program.cs:66 | when the last directory separator is followed by no '.', the extension is "" |
| Strings.GetExtensionExamples | DocCentrik/DocCentrik/Program.cs:66 | "docs/report.final.pdf" gives ".pdf"; "archive.d/README" and "notes." give "" |
| Strings.StringBuilder.Append | DocCentrik/DocCentrik/Services/PDFProcessor.cs:62 | the text grows by exactly the argument |
| Strings.StringBuilder.AppendLine | DocCentrik/DocCentrik/Services/FileProcessor.cs:193-204 | the text grows by the argument, then the newline |
| Outcomes.CollectAll | DocCentrik/DocCentrik/Services/PDFProcessor.cs:24-35 | a value for every element exactly when none threw, the values in order |
| Outcomes.AllDecodedCollects | DocCentrik/DocCentrik/Services/PDFProcessor.cs:24-35 | outcomes that all succeeded collect to exactly their values, in order |
| MatchEngine.Labelled | DocCentrik/DocCentrik/Services/FileProcessor.cs:74-77 | one record per found value, in order, each with the given source |
| MatchEngine.RunsKeywords | DocCentrik/DocCentrik/Services/FileProcessor.cs:56 | definition: the mode is "keywords" or "both", ignoring case (`ModeNames`) |
| MatchEngine.RunsRegex | DocCentrik/DocCentrik/Services/FileProcessor.cs:67 | definition: the mode is "regex" or "both", ignoring case (`ModeNames`) |
| MatchEngine.KeywordMatches | DocCentrik/DocCentrik/Services/FileProcessor.cs:58-64 | definition: for each listed keyword in list order, one "Keyword" record when the content contains it ignoring case; characterised by `KeywordMatchesExactly` and `KeywordCount` |
| MatchEngine.RegexMatches | DocCentrik/DocCentrik/Services/FileProcessor.cs:69-78 | definition: for each rule in order, one record per match, labelled "Regex (" + description + ")"; characterised by `RegexMatchesLabelled` and `RegexCount` |
| MatchEngine.RegexSource | DocCentrik/DocCentrik/Services/FileProcessor.cs:76 | definition: the label "Regex (" + description + ")"; never "Keyword" (`RegexSourceIsNotKeyword`) |
| MatchEngine.RuleMatches | DocCentrik/DocCentrik/Services/FileProcessor.cs:71-77 | definition: one record per match of the rule's pattern, in occurrence order, labelled with the rule's description; see `SingleRuleMatches` |
| MatchEngine.FirstInvalid | DocCentrik/DocCentrik/Services/FileProcessor.cs:69-71 | every rule before the index compiles, and the rule at the index does not |
| MatchEngine.Search | DocCentrik/DocCentrik/Services/FileProcessor.cs:54-81 | fails exactly when the regex group runs and some pattern does not compile; otherwise the length is the number of contained keywords plus the number of matches, each counted only when its group runs |
| MatchEngine.SearchContent | DocCentrik/DocCentrik/Services/FileProcessor.cs:54-81 | the nested loops return exactly `Search`; the first pattern that does not compile ends the search |
| MatchEngine.AddKeywordMatches | DocCentrik/DocCentrik/Services/FileProcessor.cs:58-64 | the keyword loop adds exactly the keyword group: each listed keyword the content contains, in list order |
| MatchEngine.AddRegexMatches | DocCentrik/DocCentrik/Services/FileProcessor.cs:69-78 | the pattern loop fails at the first pattern that does not compile; otherwise it appends exactly the regex group |
| MatchEngine.AddMatches | DocCentrik/DocCentrik/Services/FileProcessor.cs:74-77 | the match loop appends one record per match, in order, with the rule's label |
| MatchEngine.KeywordCount | DocCentrik/DocCentrik/Services/FileProcessor.cs:58-64 | the keyword group has one record per contained list entry |
| MatchEngine.RegexCount | DocCentrik/DocCentrik/Services/FileProcessor.cs:69-78 | the regex group has one record per match of every rule |
| MatchEngine.KeywordMatchesExactly | DocCentrik/DocCentrik/Services/FileProcessor.cs:58-64 | a record is in the keyword group exactly when it is labelled "Keyword", its value is listed, and the content contains it ignoring case |
| MatchEngine.RegexMatchesLabelled | DocCentrik/DocCentrik/Services/FileProcessor.cs:76 | every regex record is labelled "Regex (" + the description of one of the rules + ")" |
| MatchEngine.KeywordReportedOncePerEntry | DocCentrik/DocCentrik/Services/FileProcessor.cs:58-64 | a keyword is reported once per list entry when contained and never otherwise, however often it occurs |
| MatchEngine.KeywordPresenceOnly | DocCentrik/DocCentrik/Services/FileProcessor.cs:60 | two texts containing the same keywords give the same keyword group |
| MatchEngine.KeywordMatchesAppend | DocCentrik/DocCentrik/Services/FileProcessor.cs:58-64 | keyword records follow keyword-list order |
| MatchEngine.RegexMatchesAppend | DocCentrik/DocCentrik/Services/FileProcessor.cs:69-78 | regex records follow rule order, each rule's matches kept together |
| MatchEngine.SingleRuleMatches | DocCentrik/DocCentrik/Services/FileProcessor.cs:71-77 | one rule yields one record per match, in occurrence order, not deduplicated |
| MatchEngine.RegexSourceIsNotKeyword | DocCentrik/DocCentrik/Services/FileProcessor.cs:62-76 | no regex label equals "Keyword" |
| MatchEngine.SearchGroups | DocCentrik/DocCentrik/Services/FileProcessor.cs:56-79 | mode "keywords" yields only keyword records and mode "regex" none; every keyword record precedes every regex record |
| MatchEngine.SearchFindsNothing | DocCentrik/DocCentrik/Services/FileProcessor.cs:54-81 | an unknown mode, or two empty rule lists, give an empty list, not a failure |
| MatchEngine.ModeNames | DocCentrik/DocCentrik/Services/FileProcessor.cs:56-67 | "BOTH" runs both groups, "Keywords" only keywords, "REGEX" only patterns, "kw" neither |
| MatchEngine.KeywordExample | DocCentrik/DocCentrik/Services/FileProcessor.cs:58-64 | "Secret SECRET secret" searched for "secret" gives exactly one keyword record |
| MatchEngine.RegexExample | DocCentrik/DocCentrik/Services/FileProcessor.cs:69-78 | three matches of a rule described "digit" give three records labelled "Regex (digit)" |
| MatchEngine.EmptyKeywordAlwaysMatches | DocCentrik/DocCentrik/Services/FileProcessor.cs:60 | the empty keyword is reported for every text, the empty text included |
| Extraction.ScanFiles | DocCentrik/DocCentrik/Services/FileProcessor.cs:36-37 | no more paths than listed. Its meaning is in `ScanFilesExactly` (which paths it keeps) and `ScanFilesAppend` (in enumeration order) |
| Extraction.ScanFilesExactly | DocCentrik/DocCentrik/Services/FileProcessor.cs:36-37 | a path is kept exactly when it is listed and ends with a supported extension, ignoring case |
| Extraction.ScanFilesAppend | DocCentrik/DocCentrik/Services/FileProcessor.cs:36-37 | the filter keeps enumeration order |
| Extraction.ScanFilesBounds | DocCentrik/DocCentrik/Services/FileProcessor.cs:36-37 | no extensions admit nothing; the empty extension admits every path |
| Extraction.ScanAdmitsUpperCase | DocCentrik/DocCentrik/Services/FileProcessor.cs:37 | the extension ".pdf" admits "A.PDF" |
| Extraction.IsImage | DocCentrik/DocCentrik/Services/FileProcessor.cs:260-264 | definition: the path ends with ".jpg", ".jpeg", ".png", ".bmp", ".tiff" or ".tif", ignoring case; see `IsImageIgnoresCase`, `UpperPngIsImage` and `UpperPdfIsNotImage` |
| Extraction.Classify | DocCentrik/DocCentrik/Services/FileProcessor.cs:93-123 | definition: the dispatch chain, document suffixes checked case-sensitively in the order of the code and image suffixes last ignoring case; see `OnlyImagesEndInCapitals` |
| Extraction.ExtractedText | DocCentrik/DocCentrik/Services/FileProcessor.cs:89-130 | definition: the text of the strategy `Classify` selects, "" for an unsupported path or a failure; the PDF branch is the corrected loop (see "## Left out") |
| Extraction.WordText | DocCentrik/DocCentrik/Services/FileProcessor.cs:165-179 | definition of `ExtractFromWord`: the body's inner text; "" when there is no body or OpenXml throws |
| Extraction.PowerPointText | DocCentrik/DocCentrik/Services/FileProcessor.cs:240-254 | definition of `ExtractFromPowerPoint`: every text node of every slide, "\n" between every two nodes; "" when OpenXml throws; see `SlidesJoined` and `SlideNodesRecoverable` |
| Extraction.ImageText | DocCentrik/DocCentrik/Services/FileProcessor.cs:219-234 | definition of `ExtractFromImage`: Tesseract's text, trimmed; "" when Tesseract throws |
| Extraction.ExcelText | DocCentrik/DocCentrik/Services/FileProcessor.cs:184-214 | definition: the trimmed text of the sheets; "" when ClosedXML throws; see `ExcelHeaders` |
| Extraction.CellsText | DocCentrik/DocCentrik/Services/FileProcessor.cs:197-200 | definition: every used cell's value followed by one space, in cell order |
| Extraction.RowsText | DocCentrik/DocCentrik/Services/FileProcessor.cs:195-202 | definition: the cells' text of each used row followed by a newline, in row order |
| Extraction.SheetText | DocCentrik/DocCentrik/Services/FileProcessor.cs:193-204 | definition: "Worksheet: " + name and a newline, the rows' lines, then a blank line |
| Extraction.SheetsText | DocCentrik/DocCentrik/Services/FileProcessor.cs:191-205 | definition: the sheets' text in workbook order, before trimming; see `SheetsTextAppend` and `SheetsTextAt` |
| Extraction.PdfText | DocCentrik/DocCentrik/Services/FileProcessor.cs:136-160 | definition, corrected: every page's text once, in page order; "" when the document or any page cannot be read; see `PdfPagesInOrder` |
| Extraction.PdfTextAsWritten | DocCentrik/DocCentrik/Services/FileProcessor.cs:143-151 | definition, as written: page k contributes the text of pages 1..k; see `PdfPageRepeated` |
| Extraction.CumulativeText | DocCentrik/DocCentrik/Services/FileProcessor.cs:144-150 | definition: after page k, the shared strategy's buffer holds pages 1..k, and that whole buffer is appended each time |
| Extraction.IsImageIgnoresCase | DocCentrik/DocCentrik/Services/FileProcessor.cs:260-264 | paths equal up to case are both images or both not |
| Extraction.UpperPdfIsNotImage | DocCentrik/DocCentrik/Services/FileProcessor.cs:262-263 | "A.PDF" ends with no image extension |
| Extraction.UpperPngIsImage | DocCentrik/DocCentrik/Services/FileProcessor.cs:262-263 | "A.PNG" is an image |
| Extraction.OnlyImagesEndInCapitals | DocCentrik/DocCentrik/Services/FileProcessor.cs:93-123 | a path ending in a capital letter dispatches to OCR when it is an image and is unsupported otherwise |
| Extraction.UpperCasePdfUnsupported | DocCentrik/DocCentrik/Services/FileProcessor.cs:98-128 | "A.PDF" is unsupported and its extracted text is "" |
| Extraction.UpperCasePngIsImage | DocCentrik/DocCentrik/Services/FileProcessor.cs:118-121 | "A.PNG" goes to OCR |
| Extraction.ExtractContent | DocCentrik/DocCentrik/Services/FileProcessor.cs:89-130 | the dispatch chain returns the text of the strategy its suffix selects, and "" for a failure or an unsupported format |
| Extraction.PlainTextVerbatim | DocCentrik/DocCentrik/Services/FileProcessor.cs:93-96 | a .txt, .log, .csv or .err file comes through unchanged |
| Extraction.ExtractFromExcel | DocCentrik/DocCentrik/Services/FileProcessor.cs:184-214 | the loops build the trimmed sheets' text; "" when the workbook cannot be read |
| Extraction.AppendSheet | DocCentrik/DocCentrik/Services/FileProcessor.cs:193-204 | appends "Worksheet: " + name + a newline, a line per used row, then a blank line |
| Extraction.AppendRows | DocCentrik/DocCentrik/Services/FileProcessor.cs:195-202 | appends a line per used row, in row order |
| Extraction.AppendRow | DocCentrik/DocCentrik/Services/FileProcessor.cs:197-201 | appends every used cell's value followed by a space, then a newline |
| Extraction.SheetsTextAppend | DocCentrik/DocCentrik/Services/FileProcessor.cs:191-205 | sheets appear in workbook order |
| Extraction.SheetsTextAt | DocCentrik/DocCentrik/Services/FileProcessor.cs:191-205 | the untrimmed text is the earlier sheets, sheet i, then the later sheets |
| Extraction.HeaderAt | DocCentrik/DocCentrik/Services/FileProcessor.cs:193 | before trimming, sheet i's header starts where the earlier sheets end |
| Extraction.ExcelHeaders | DocCentrik/DocCentrik/Services/FileProcessor.cs:193-207 | every sheet's "Worksheet:" header survives the trim at its offset |
| Extraction.ExtractFromPdf | DocCentrik/DocCentrik/Services/FileProcessor.cs:136-160 | corrected: every page's text once, in page order; "" when the document or any page cannot be read |
| Extraction.ExtractFromPdfAsWritten | DocCentrik/DocCentrik/Services/FileProcessor.cs:143-151 | with one strategy shared by all pages, page k appends the text of pages 1..k |
| Extraction.PdfPagesInOrder | DocCentrik/DocCentrik/Services/FileProcessor.cs:146-151 | corrected: the text of pages a ++ b is the text of a, then the text of b |
| Extraction.PdfPageRepeated | DocCentrik/DocCentrik/Services/FileProcessor.cs:144-150 | as written, pages "A" and "B" give "AAB"; corrected, they give "AB" |
| Extraction.SlidesJoined | DocCentrik/DocCentrik/Services/FileProcessor.cs:245-247 | when both a and b hold at least one text node, the text of slides a ++ b is the text of a, "\n", then the text of b |
| Extraction.SlideNodesRecoverable | DocCentrik/DocCentrik/Services/FileProcessor.cs:246 | when the slides hold at least one text node and no node holds a line break, splitting the text at "\n" gives back every text node |
| PdfContent.ExtractTextFromContent | DocCentrik/DocCentrik/Services/PDFProcessor.cs:44-64 | the builder's earlier text stays a prefix; exactly the object's text is appended |
| PdfContent.ExtractText | DocCentrik/DocCentrik/Services/PDFProcessor.cs:17-37 | the page texts concatenated in page order; "" when opening or reading any page throws |
| PdfContent.ContentText | DocCentrik/DocCentrik/Services/PDFProcessor.cs:44-64 | definition: an operator contributes its operands, nothing when they are null; a sequence contributes its elements in order; a string contributes its value; anything else contributes nothing; equal to the string leaves by `TextIsLeaves` |
| PdfContent.OperandsText | DocCentrik/DocCentrik/Services/PDFProcessor.cs:46-52 | definition: nothing for null operands, otherwise the operands' text in order |
| PdfContent.ContentsText | DocCentrik/DocCentrik/Services/PDFProcessor.cs:48-59 | definition: each object's text, in order; see `ContentsTextAppend` and `TextsAreLeaves` |
| PdfContent.DocumentText | DocCentrik/DocCentrik/Services/PDFProcessor.cs:17-37 | definition: the pages' texts concatenated; "" when opening or reading any page throws; see `PagesConcatenated` and `UnreadablePageDiscardsAll` |
| PdfContent.ContentsTextAppend | DocCentrik/DocCentrik/Services/PDFProcessor.cs:48-58 | walking a ++ b yields the walk of a, then the walk of b |
| PdfContent.TextIsLeaves | DocCentrik/DocCentrik/Services/PDFProcessor.cs:44-64 | the text is exactly the values of the string leaves, left to right |
| PdfContent.OperandTextIsLeaves | DocCentrik/DocCentrik/Services/PDFProcessor.cs:46-52 | an operator contributes its operands' leaves; with null operands, nothing |
| PdfContent.TextsAreLeaves | DocCentrik/DocCentrik/Services/PDFProcessor.cs:53-59 | a sequence contributes its elements' leaves in order |
| PdfContent.SilentObjectIgnored | DocCentrik/DocCentrik/Services/PDFProcessor.cs:46-63 | an object of another kind, or an operator with null operands, contributes nothing wherever it sits |
| PdfContent.NestingIrrelevant | DocCentrik/DocCentrik/Services/PDFProcessor.cs:46-59 | nesting into sequences and operators does not change the text |
| PdfContent.PagesConcatenated | DocCentrik/DocCentrik/Services/PDFProcessor.cs:24-30 | the document text of pages a ++ b is that of a, then that of b, with no separator |
| PdfContent.UnreadablePageDiscardsAll | DocCentrik/DocCentrik/Services/PDFProcessor.cs:26-35 | one unreadable page discards every page's text |
| PdfContent.HelloWorld | DocCentrik/DocCentrik/Services/PDFProcessor.cs:17-64 | an operator on "Hello" and a sequence holding "World" give "HelloWorld" |
| Orchestration.Logger.Log | DocCentrik/DocCentrik/Utils/Logger.cs:47-51 | appends exactly one status line |
| Orchestration.Logger.LogMatch | DocCentrik/DocCentrik/Utils/Logger.cs:61-65 | appends exactly one match-report line |
| Orchestration.SftpUploader.UploadFile | DocCentrik/DocCentrik/Services/SftpUploader.cs:28-49 | records the request; fails exactly for an empty path or a failed transfer |
| Orchestration.Run | DocCentrik/DocCentrik/Program.cs:13-92 | exactly `RunSpec`: nothing without a configuration; a crash with no entries for an empty log directory or an unreadable folder; otherwise each scanned file's entries and uploads in scan order |
| Orchestration.ProcessFiles | DocCentrik/DocCentrik/Program.cs:44-89 | the loop appends, file after file in scan order, exactly each file's entries and upload requests |
| Orchestration.ProcessFile | DocCentrik/DocCentrik/Program.cs:46-88 | one loop iteration appends exactly that file's entries and its upload request |
| Orchestration.LogOutcome | DocCentrik/DocCentrik/Program.cs:62-88 | match reports, then "Match Found", then an upload and "Error" if it failed; "No Match" when nothing matched; "Error" when the search threw |
| Orchestration.Found | DocCentrik/DocCentrik/Program.cs:51-59 | definition: the search result for the text extracted from the file |
| Orchestration.OutcomeEvents | DocCentrik/DocCentrik/Program.cs:62-88 | definition: the entries of one iteration given the search result; characterised by `OutcomeEventsShape` |
| Orchestration.RunSpec | DocCentrik/DocCentrik/Program.cs:13-92 | definition: how the run ends, with the loop's entries and uploads when it completes; characterised by `RunReachesLoop` and `LoopAppend` |
| Orchestration.Reports | DocCentrik/DocCentrik/Program.cs:64-67 | one match-report entry per match, in match order, with the file's extension as file type and "N/A" as OCR status |
| Orchestration.Scanned | DocCentrik/DocCentrik/Program.cs:42 | definition: the scan filter applied to the folder's listing; `Threw` when the folder cannot be listed |
| Orchestration.OutcomeUploads | DocCentrik/DocCentrik/Program.cs:72-77 | definition: one upload request for the file when the search found something and SFTP is enabled, none otherwise |
| Orchestration.FileEvents | DocCentrik/DocCentrik/Program.cs:44-89 | definition: the entries one iteration logs for the file's actual search result; see `FileEventsShape` |
| Orchestration.FileUploads | DocCentrik/DocCentrik/Program.cs:44-89 | definition: the upload requests one iteration makes for the file's actual search result; see `UploadedIff` |
| Orchestration.LoopEvents | DocCentrik/DocCentrik/Program.cs:44-89 | definition: each scanned file's entries, in scan order; see `LoopAppend` and `EveryFileGetsStatus` |
| Orchestration.LoopUploads | DocCentrik/DocCentrik/Program.cs:44-89 | definition: each scanned file's upload requests, in scan order; see `UploadedIff` and `NothingUploadedWithoutSftp` |
| Orchestration.LoopAppend | DocCentrik/DocCentrik/Program.cs:44-89 | files are processed independently in scan order; an error in one file leaves the others untouched |
| Orchestration.OutcomeEventsShape | DocCentrik/DocCentrik/Program.cs:62-88 | whatever the search yields, a file's entries are about that file only. "Match Found" is logged exactly when the search found something, and comes right after one report per match. "No Match" is logged exactly when it found nothing. "Error" is logged exactly when the search threw or the upload failed. |
| Orchestration.FileEventsShape | DocCentrik/DocCentrik/Program.cs:50-88 | the same, for the search of the file's extracted text: "Match Found", "No Match" and "Error" each exactly in their case |
| Orchestration.NothingUploadedWithoutSftp | DocCentrik/DocCentrik/Program.cs:72-77 | with SFTP disabled no upload is requested |
| Orchestration.UploadedIff | DocCentrik/DocCentrik/Program.cs:72-77 | a file is uploaded exactly when it was scanned, SFTP is enabled and the search found something |
| Orchestration.EveryFileGetsStatus | DocCentrik/DocCentrik/Program.cs:44-89 | every scanned file gets "Match Found", "No Match" or "Error" |
| Orchestration.FailedUploadLogsBoth | DocCentrik/DocCentrik/Program.cs:69-88 | a failed upload leaves "Match Found", then "Error", for the same file |
| Orchestration.InvalidPatternFailsEveryFile | DocCentrik/DocCentrik/Program.cs:54-88 | in mode "regex" or "both", a pattern that does not compile logs "Error" for every file and uploads nothing |
| Orchestration.RunReachesLoop | DocCentrik/DocCentrik/Program.cs:16-42 | the loop runs exactly with a configuration, a log directory and a readable folder; otherwise nothing is logged or uploaded |
| Orchestration.DefaultConfig | DocCentrik/DocCentrik/Config/Config.cs:11-23 | definition: the property initialisers: empty folder, keyword, pattern and extension lists, mode "both", empty log directory, SFTP disabled |
| Orchestration.UploadFails | DocCentrik/DocCentrik/Services/SftpUploader.cs:30-31 | definition: `UploadFile` throws for an empty path, or when connecting or transferring fails (rethrown at lines 44-48) |
| Orchestration.DefaultConfigurationCrashes | DocCentrik/DocCentrik/Config/Config.cs:11-23 | a configuration that sets no log directory crashes before any file |
| Orchestration.UploadsAreLoggedMatches | DocCentrik/DocCentrik/Program.cs:64-77 | every uploaded file was scanned and has a "Match Found" line |
| Orchestration.ErrorOnlyFromPatternsOrUpload | DocCentrik/DocCentrik/Program.cs:84-88 | "Error" comes only from a pattern that does not compile or a failed upload, never from extraction |

## Findings

| source | as written | input that shows it | evidently intended | confidence | as-written member | corrected member |
|---|---|---|---|---|---|---|
| DocCentrik/DocCentrik/Services/FileProcessor.cs:144-150 | one `SimpleTextExtractionStrategy` serves every page; it keeps its text across pages, and its whole text is appended after each page | a two-page PDF whose pages read "A" and "B" gives "AAB" | each page's text once, in page order: "AB" | medium (depends on the iText strategy keeping its text across pages), not executed | Extraction.PdfPageRepeated | Extraction.PdfPagesInOrder |

`Extraction.ExtractFromPdfAsWritten` is the as-written loop. `Extraction.ExtractFromPdf` is the corrected loop, and `ExtractContent` uses the corrected one.

## Left out

- Extraction.ExtractContent: dispatches a ".pdf" path to the corrected `ExtractFromPdf`, each page's text once. The code as written extracts `PdfTextAsWritten`, where page k repeats pages 1..k. So for a PDF of two or more pages, the program as written searches a longer text: it finds more regex records, because the earlier pages repeat, and it can find keyword hits across the seam between page k and the repeated page 1. `ExtractedText` says the same.
- Extraction.ExtractedText: holds the same corrected PDF branch as `Extraction.ExtractContent`, above.
- Orchestration.Run: inherits the corrected PDF branch through `Found`, `FileEvents` and `RunSpec`. The log entries and uploads proved for a multi-page PDF are those of the corrected program.
- Timestamps, console output, log file headers, directory creation and the CSV layout. The log is the sequence of `Log` and `LogMatch` calls, in order.
- The parsing inside iText, PdfSharpCore `ContentReader`, OpenXml, ClosedXML and Tesseract. The model starts from what each library yields: page texts, content objects, a body text, worksheet cells, slide text nodes, OCR text.
- .NET regular expressions. Matching and compiling are the inputs `RegexEngine.matches` and `RegexEngine.compiles`.
- `Directory.GetFiles` and `File.ReadAllText`. The listing and the file text are inputs. So is the enumeration order.
- The SSH connection. Whether a transfer succeeds is an input.
- `Config.LoadConfiguration` and JSON parsing. The run starts from `Option<Config>`, whose strings and lists are never null. JSON can set `SearchMode`, `Keywords` or `RegexPatterns` to null, or put a null keyword or a null pattern entry in a list. In the code these throw inside the loop's `try`, and each file they throw for is logged as "Error". A null `SearchMode` (`Equals` on null), a null `Keywords` (`new List<string>(null)`) and a null `RegexPatterns` or pattern entry (`Select`) throw for every file in every mode. A null keyword throws only when `Contains` runs it, that is in mode "keywords" or "both". The model does not capture this.
- The `SftpUploader` constructor's check for a null server configuration. The default configuration always has one.
- The `FileProcessor` constructor's check for a null OCR data path. Its default is "".
- Strings.GetExtension: treats both '/' and '\\' as directory separators, as `Path.GetExtension` does on Windows. On Linux and macOS only '/' is one, so "a.b\\c" has the extension ".b\\c" there but "" in the model.
- Strings.Fold: folds only ASCII letters. .NET's ordinal ignore-case comparison folds all of Unicode.
- Strings.IsWhiteSpace: covers only the Latin-1 white-space characters of `char.IsWhiteSpace`.
- Strings.EndsWith: compares ordinally. The dispatch chain's `EndsWith(string)` is culture-sensitive, which differs only outside ASCII.
- Strings.StringBuilder: holds `Environment.NewLine` as a parameter, because `AppendLine` depends on the platform.
- Orchestration.Logger.constructor: requires a non-empty directory. `Run` stops with `Crashed` before calling it, as the uncaught `ArgumentNullException` does.
- Exceptions from the log-file writes themselves.
