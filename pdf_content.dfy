/**
 * `PDFProcessor`: text extraction with PdfSharpCore by walking each page's
 * content objects and appending every string operand found, in order.
 */
module PdfContent {
  import opened Strings
  import opened Outcomes

  /**
   * The content objects `ContentReader.ReadContent` yields: an operator whose
   * operand list may be null, a sequence of objects (an array such as the
   * operand of TJ is one too, since `CArray` derives from `CSequence`), a
   * string, or any other kind (names, numbers, ...), which the walk ignores.
   */
  datatype CObject =
    | COperator(operands: Operands)
    | CSequence(items: seq<CObject>)
    | CString(value: string)
    | COther

  /** An operator's `Operands` property: null, or a sequence of objects. */
  datatype Operands = NullOperands | OperandSequence(elements: seq<CObject>)

  // ---------------------------------------------------------------------
  // Specification
  // ---------------------------------------------------------------------

  /** The text the walk contributes for one content object. */
  function ContentText(content: CObject): string
    decreases content, 2
  {
    match content
    case COperator(operands) => OperandsText(operands)
    case CSequence(items) => ContentsText(items)
    case CString(value) => value
    case COther => ""
  }

  /** An operator's contribution: that of its operands, nothing when the operand list is null. */
  function OperandsText(operands: Operands): string
    decreases operands, 1
  {
    match operands
    case NullOperands => ""
    case OperandSequence(contents) => ContentsText(contents)
  }

  /** The contributions of the objects, one after another in order. */
  function ContentsText(contents: seq<CObject>): string
    decreases contents, 0
  {
    if contents == [] then ""
    else ContentsText(contents[..|contents| - 1]) + ContentText(contents[|contents| - 1])
  }

  /** `ExtractText`: the pages' texts concatenated without separator; "" when opening or reading any page throws. */
  function DocumentText(document: Outcome<seq<Outcome<CObject>>>): string {
    match document
    case Threw => ""
    case Decoded(pages) =>
      match CollectAll(pages)
      case Threw => ""
      case Decoded(contents) => ContentsText(contents)
  }

  /** Reference definition: the string values of the tree's `CString` leaves, left to right. */
  function Leaves(content: CObject): seq<string>
    decreases content, 2
  {
    match content
    case COperator(operands) => OperandLeaves(operands)
    case CSequence(items) => LeavesOf(items)
    case CString(value) => [value]
    case COther => []
  }

  function OperandLeaves(operands: Operands): seq<string>
    decreases operands, 1
  {
    match operands
    case NullOperands => []
    case OperandSequence(contents) => LeavesOf(contents)
  }

  function LeavesOf(contents: seq<CObject>): seq<string>
    decreases contents, 0
  {
    if contents == [] then []
    else LeavesOf(contents[..|contents| - 1]) + Leaves(contents[|contents| - 1])
  }

  // ---------------------------------------------------------------------
  // The walk
  // ---------------------------------------------------------------------

  /**
   * `ExtractTextFromContent`: appends to `textBuilder` the text of
   * `content`, recursing into operator operands and sequence elements.
   */
  method ExtractTextFromContent(content: CObject, textBuilder: StringBuilder)
    modifies textBuilder
    ensures textBuilder.text == old(textBuilder.text) + ContentText(content)
    decreases content
  {
    if content.COperator? && content.operands.OperandSequence? {
      var operands := content.operands.elements;
      var i := 0;
      while i < |operands|
        invariant 0 <= i <= |operands|
        invariant textBuilder.text == old(textBuilder.text) + ContentsText(operands[..i])
      {
        ExtractTextFromContent(operands[i], textBuilder);
        assert operands[..i + 1][..i] == operands[..i];
        i := i + 1;
      }
      assert operands[..i] == operands;
    } else if content.CSequence? {
      var items := content.items;
      var i := 0;
      while i < |items|
        invariant 0 <= i <= |items|
        invariant textBuilder.text == old(textBuilder.text) + ContentsText(items[..i])
      {
        ExtractTextFromContent(items[i], textBuilder);
        assert items[..i + 1][..i] == items[..i];
        i := i + 1;
      }
      assert items[..i] == items;
    } else if content.CString? {
      textBuilder.Append(content.value);
    }
  }

  /**
   * `ExtractText`: opens the document, walks each page's content into one
   * builder; any exception discards everything and yields "".
   */
  method ExtractText(document: Outcome<seq<Outcome<CObject>>>) returns (text: string)
    ensures text == DocumentText(document)
  {
    if document.Threw? {
      return "";
    }
    var pages := document.value;
    var builder := new StringBuilder("");
    var page := 0;
    while page < |pages|
      invariant 0 <= page <= |pages|
      invariant CollectAll(pages[..page]).Decoded?
      invariant builder.text == ContentsText(CollectAll(pages[..page]).value)
    {
      assert pages[..page + 1][..page] == pages[..page];
      if pages[page].Threw? {
        return "";
      }
      ExtractTextFromContent(pages[page].value, builder);
      page := page + 1;
    }
    assert pages[..page] == pages;
    text := builder.text;
  }

  // ---------------------------------------------------------------------
  // Properties
  // ---------------------------------------------------------------------

  /** Walking `a + b` yields the walk of `a` followed by the walk of `b`. */
  lemma {:induction false} ContentsTextAppend(a: seq<CObject>, b: seq<CObject>)
    ensures ContentsText(a + b) == ContentsText(a) + ContentsText(b)
    decreases |b|
  {
    if b == [] {
      assert a + b == a;
    } else {
      var n := |b| - 1;
      assert (a + b)[..|a + b| - 1] == a + b[..n];
      ContentsTextAppend(a, b[..n]);
    }
  }

  /** The extracted text is exactly the string leaves, concatenated left to right. */
  lemma {:induction false} TextIsLeaves(content: CObject)
    ensures ContentText(content) == Flatten(Leaves(content))
    decreases content, 2
  {
    match content
    case COperator(operands) => OperandTextIsLeaves(operands);
    case CSequence(items) => TextsAreLeaves(items);
    case CString(value) => assert Flatten([value]) == Flatten([value][..0]) + value;
    case COther =>
  }

  lemma {:induction false} OperandTextIsLeaves(operands: Operands)
    ensures OperandsText(operands) == Flatten(OperandLeaves(operands))
    decreases operands, 1
  {
    if operands.OperandSequence? {
      TextsAreLeaves(operands.elements);
    }
  }

  lemma {:induction false} TextsAreLeaves(contents: seq<CObject>)
    ensures ContentsText(contents) == Flatten(LeavesOf(contents))
    decreases contents, 0
  {
    if contents != [] {
      var n := |contents| - 1;
      TextsAreLeaves(contents[..n]);
      TextIsLeaves(contents[n]);
      FlattenAppend(LeavesOf(contents[..n]), Leaves(contents[n]));
    }
  }

  /** Objects without string leaves contribute nothing, wherever they sit in a sequence. */
  lemma SilentObjectIgnored(a: seq<CObject>, silent: CObject, b: seq<CObject>)
    requires silent.COther? || silent == COperator(NullOperands)
    ensures ContentsText(a + [silent] + b) == ContentsText(a + b)
  {
    ContentsTextAppend(a + [silent], b);
    ContentsTextAppend(a, [silent]);
    assert [silent][..0] == [];
    ContentsTextAppend(a, b);
  }

  /** Every operand and every element contributes, in order, whatever its nesting. */
  lemma NestingIrrelevant(a: seq<CObject>, b: seq<CObject>)
    ensures ContentText(CSequence(a + b)) == ContentText(COperator(OperandSequence([CSequence(a)] + b)))
  {
    ContentsTextAppend(a, b);
    ContentsTextAppend([CSequence(a)], b);
    assert [CSequence(a)][..0] == [];
  }

  /** The document text is the first pages' text followed by the remaining pages' text, without separator. */
  lemma PagesConcatenated(a: seq<CObject>, b: seq<CObject>)
    ensures DocumentText(Decoded(AllDecoded(a + b))) == DocumentText(Decoded(AllDecoded(a))) + DocumentText(Decoded(AllDecoded(b)))
  {
    AllDecodedCollects(a);
    AllDecodedCollects(b);
    AllDecodedCollects(a + b);
    ContentsTextAppend(a, b);
  }

  /** One page that cannot be read discards the text of every other page. */
  lemma UnreadablePageDiscardsAll(pages: seq<Outcome<CObject>>, k: nat)
    requires k < |pages| && pages[k].Threw?
    ensures DocumentText(Decoded(pages)) == ""
  {
  }

  /** Two pages holding a "Tj"-style operator on "Hello" and a sequence with "World" give "HelloWorld". */
  lemma HelloWorld()
    ensures DocumentText(Decoded(AllDecoded([COperator(OperandSequence([CString("Hello")])), CSequence([COther, CString("World")])])))
            == "HelloWorld"
  {
    var pages := [COperator(OperandSequence([CString("Hello")])), CSequence([COther, CString("World")])];
    AllDecodedCollects(pages);
    assert [CString("Hello")][..0] == [];
    assert ContentText(pages[0]) == "Hello";
    var items := [COther, CString("World")];
    assert items[..1] == [COther] && items[..1][..0] == [];
    assert ContentText(pages[1]) == "World";
    assert pages[..1] == [pages[0]] && pages[..1][..0] == [];
  }
}
