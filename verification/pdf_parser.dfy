/** The HTML-to-element converter of `app/pdf_utils.py`: an event-driven
  * state machine that turns the start tags, end tags and text of an HTML
  * document into headings, paragraphs of text, tables and rules.
  *
  * The events themselves come from the standard HTML tokenizer, which is
  * not part of this model: a document is given as its sequence of events. */
module HtmlElements {
  import opened Wrappers
  import Text

  /** One element of the converted document. */
  datatype Element =
    | TextElement(text: string)
    | Heading(level: nat, text: string)
    | TableElement(rows: seq<seq<string>>)
    | Rule

  /** An attribute of a start tag, as the tokenizer reports it. */
  datatype Attr = Attr(name: string, value: string)

  /** What the tokenizer reports. */
  datatype Event =
    | StartTag(tag: string, attrs: seq<Attr>)
    | EndTag(tag: string)
    | Data(data: string)

  /** The parser's fields. */
  datatype ParserState = ParserState(
    elements: seq<Element>,
    currentText: string,
    inTable: bool,
    tableData: seq<seq<string>>,
    currentRow: seq<string>,
    inRow: bool,
    inCell: bool,
    cellText: string,
    formattingStack: seq<char>,
    headingLevel: Option<nat>)

  /** The fields of a new parser. */
  const Fresh := ParserState([], "", false, [], [], false, false, "", [], None)

  /** The level of a heading tag `h1` to `h6`. */
  function HeadingLevel(tag: string): (r: Option<nat>)
    ensures r.Some? <==> |tag| == 2 && tag[0] == 'h' && '1' <= tag[1] <= '6'
    ensures r.Some? ==> 1 <= r.value <= 6 && tag[1] as int == '0' as int + r.value
  {
    if |tag| == 2 && tag[0] == 'h' && '1' <= tag[1] <= '6' then Some(tag[1] as int - '0' as int) else None
  }

  /** `dict(attrs).get(name, '')`: a repeated attribute keeps its last value. */
  function AttrValue(attrs: seq<Attr>, name: string): (v: string)
    ensures (exists k :: 0 <= k < |attrs| && attrs[k].name == name) || v == ""
  {
    if attrs == [] then ""
    else if attrs[|attrs| - 1].name == name then attrs[|attrs| - 1].value
    else AttrValue(attrs[..|attrs| - 1], name)
  }

  /** `list.remove(x)` when `x` is present: the first occurrence goes. */
  function RemoveFirst(s: seq<char>, x: char): (r: seq<char>)
    requires x in s
    ensures multiset(r) == multiset(s) - multiset{x}
    ensures |r| == |s| - 1
  {
    if s[0] == x then
      assert s == [s[0]] + s[1..];
      s[1..]
    else
      assert s == [s[0]] + s[1..];
      [s[0]] + RemoveFirst(s[1..], x)
  }

  /** `flush_text`: pending text that is not blank becomes a stripped text
    * element; blank pending text is left where it is. */
  function Flushed(st: ParserState): (r: ParserState)
    ensures !Text.IsBlank(st.currentText) ==>
              r == st.(elements := st.elements + [TextElement(Text.Strip(st.currentText))], currentText := "")
    ensures Text.IsBlank(st.currentText) ==> r == st
  {
    if !Text.IsBlank(st.currentText) then
      st.(elements := st.elements + [TextElement(Text.Strip(st.currentText))], currentText := "")
    else st
  }

  /** The marker an image in a served file leaves in the text. */
  function ImageMarker(attrs: seq<Attr>): string {
    var src := AttrValue(attrs, "src");
    if Text.Contains(src, "attachment:") || Text.Contains(src, "/chat/files/") then
      "[IMAGE: " + AttrValue(attrs, "alt") + "]"
    else ""
  }

  /** The tags the parser reacts to, as its chain of tests tells them
    * apart: `strong` and `b` alike, `em` and `i` alike, `td` and `th` alike. */
  datatype TagKind =
    | HeadingTag(level: nat)
    | ParagraphTag
    | BreakTag
    | BoldTag
    | ItalicTag
    | ImageTag
    | TableTag
    | RowTag
    | CellTag
    | RuleTag
    | OtherTag

  function KindOf(tag: string): (k: TagKind)
    ensures k.HeadingTag? <==> HeadingLevel(tag).Some?
    ensures k.HeadingTag? ==> k.level == HeadingLevel(tag).value
    ensures k == BoldTag <==> tag == "strong" || tag == "b"
    ensures k == ItalicTag <==> tag == "em" || tag == "i"
    ensures k == CellTag <==> tag == "td" || tag == "th"
  {
    if HeadingLevel(tag).Some? then HeadingTag(HeadingLevel(tag).value)
    else if tag == "p" then ParagraphTag
    else if tag == "br" then BreakTag
    else if tag == "strong" || tag == "b" then BoldTag
    else if tag == "em" || tag == "i" then ItalicTag
    else if tag == "img" then ImageTag
    else if tag == "table" then TableTag
    else if tag == "tr" then RowTag
    else if tag == "td" || tag == "th" then CellTag
    else if tag == "hr" then RuleTag
    else OtherTag
  }

  /** `handle_starttag(tag, attrs)`. */
  function Opened(st: ParserState, tag: string, attrs: seq<Attr>): ParserState {
    match KindOf(tag)
    case HeadingTag(level) => Flushed(st).(headingLevel := Some(level))
    case ParagraphTag => Flushed(st)
    case BreakTag => st.(currentText := st.currentText + "<br/>")
    case BoldTag => st.(formattingStack := st.formattingStack + ['b'])
    case ItalicTag => st.(formattingStack := st.formattingStack + ['i'])
    case ImageTag => st.(currentText := st.currentText + ImageMarker(attrs))
    case TableTag => Flushed(st).(inTable := true, tableData := [])
    case RowTag => if st.inTable then st.(inRow := true, currentRow := []) else st
    case CellTag => if st.inRow then st.(inCell := true, cellText := "") else st
    case RuleTag =>
      var f := Flushed(st);
      f.(elements := f.elements + [Rule])
    case OtherTag => st
  }

  /** The stack after an end tag of a formatting kind. */
  function Unformatted(stack: seq<char>, x: char): seq<char> {
    if x in stack then RemoveFirst(stack, x) else stack
  }

  /** `handle_endtag(tag)`. */
  function Closed(st: ParserState, tag: string): ParserState {
    match KindOf(tag)
    case HeadingTag(_) =>
      if st.headingLevel.Some? && st.headingLevel.value != 0 then
        st.(elements := st.elements + [Heading(st.headingLevel.value, Text.Strip(st.currentText))],
            currentText := "", headingLevel := None)
      else st
    case ParagraphTag => Flushed(st)
    case BoldTag => st.(formattingStack := Unformatted(st.formattingStack, 'b'))
    case ItalicTag => st.(formattingStack := Unformatted(st.formattingStack, 'i'))
    case TableTag =>
      if st.inTable then st.(elements := st.elements + [TableElement(st.tableData)], inTable := false, tableData := [])
      else st
    case RowTag =>
      if st.inRow then st.(tableData := st.tableData + [st.currentRow], currentRow := [], inRow := false) else st
    case CellTag =>
      if st.inCell then st.(currentRow := st.currentRow + [Text.Strip(st.cellText)], cellText := "", inCell := false)
      else st
    case _ => st
  }

  /** Text wrapped in bold, then italic, markup by the open formatting. */
  function Formatted(data: string, stack: seq<char>): string {
    var bold := if 'b' in stack then "<b>" + data + "</b>" else data;
    if 'i' in stack then "<i>" + bold + "</i>" else bold
  }

  /** Whether text outside a cell is kept: it is not blank, or it is a
    * single space after text that does not already end in one. */
  predicate KeepsData(st: ParserState, data: string) {
    !Text.IsBlank(data) || (data == " " && st.currentText != "" && !Text.EndsWith(st.currentText, " "))
  }

  /** `handle_data(data)`. */
  function DataAdded(st: ParserState, data: string): ParserState {
    if st.inCell then st.(cellText := st.cellText + data)
    else if KeepsData(st, data) then st.(currentText := st.currentText + Formatted(data, st.formattingStack))
    else st
  }

  function Step(st: ParserState, e: Event): ParserState {
    match e
    case StartTag(tag, attrs) => Opened(st, tag, attrs)
    case EndTag(tag) => Closed(st, tag)
    case Data(data) => DataAdded(st, data)
  }

  /** The parser after the events, in order. */
  function Feed(st: ParserState, events: seq<Event>): ParserState
    decreases |events|
  {
    if events == [] then st
    else Step(Feed(st, events[..|events| - 1]), events[|events| - 1])
  }

  /** `get_elements()` on a parser fed the document's events. */
  function DocumentElements(events: seq<Event>): seq<Element> {
    Flushed(Feed(Fresh, events)).elements
  }

  /** What every element the parser emits satisfies: text is stripped and
    * never blank, heading text is stripped and its level one of 1 to 6. */
  predicate GoodElement(e: Element) {
    match e
    case TextElement(t) => Text.IsStripped(t) && !Text.IsBlank(t)
    case Heading(level, t) => 1 <= level <= 6 && Text.IsStripped(t)
    case _ => true
  }

  /** The parser's invariant: good elements, a formatting stack of `b` and
    * `i` only, and a pending heading level between 1 and 6. */
  predicate Good(st: ParserState) {
    && (forall k :: 0 <= k < |st.elements| ==> GoodElement(st.elements[k]))
    && (forall k :: 0 <= k < |st.formattingStack| ==> st.formattingStack[k] in "bi")
    && (st.headingLevel.Some? ==> 1 <= st.headingLevel.value <= 6)
  }

  lemma {:induction false} StripNotBlank(s: string)
    requires !Text.IsBlank(s)
    ensures Text.IsStripped(Text.Strip(s)) && !Text.IsBlank(Text.Strip(s))
  {
    Text.StripSpec(s);
    var t := Text.Strip(s);
    assert t != [];
    assert !Text.IsSpace(t[0]);
  }

  lemma {:induction false} FlushedGood(st: ParserState)
    requires Good(st)
    ensures Good(Flushed(st))
    ensures Flushed(st).formattingStack == st.formattingStack && Flushed(st).headingLevel == st.headingLevel
  {
    if !Text.IsBlank(st.currentText) {
      StripNotBlank(st.currentText);
    }
  }

  lemma {:induction false} RemoveFirstKeeps(s: seq<char>, x: char)
    requires x in s
    ensures forall k :: 0 <= k < |RemoveFirst(s, x)| ==> RemoveFirst(s, x)[k] in multiset(s)
  {
    var r := RemoveFirst(s, x);
    forall k | 0 <= k < |r|
      ensures r[k] in multiset(s)
    {
      assert r[k] in multiset(r);
    }
  }

  lemma {:induction false} OpenedGood(st: ParserState, tag: string, attrs: seq<Attr>)
    requires Good(st)
    ensures Good(Opened(st, tag, attrs))
  {
    FlushedGood(st);
    match KindOf(tag)
    case BoldTag =>
      assert 'b' in "bi";
    case ItalicTag =>
      assert 'i' in "bi";
    case _ =>
  }

  lemma {:induction false} ClosedGood(st: ParserState, tag: string)
    requires Good(st)
    ensures Good(Closed(st, tag))
  {
    match KindOf(tag)
    case HeadingTag(_) =>
      Text.StripSpec(st.currentText);
    case ParagraphTag =>
      FlushedGood(st);
    case BoldTag =>
      UnformattedGood(st.formattingStack, 'b');
    case ItalicTag =>
      UnformattedGood(st.formattingStack, 'i');
    case _ =>
  }

  lemma {:induction false} UnformattedGood(stack: seq<char>, x: char)
    requires forall k :: 0 <= k < |stack| ==> stack[k] in "bi"
    ensures forall k :: 0 <= k < |Unformatted(stack, x)| ==> Unformatted(stack, x)[k] in "bi"
  {
    if x in stack {
      RemoveFirstKeeps(stack, x);
      var r := RemoveFirst(stack, x);
      forall k | 0 <= k < |r|
        ensures r[k] in "bi"
      {
        assert r[k] in multiset(stack);
        var j :| 0 <= j < |stack| && stack[j] == r[k];
      }
    }
  }

  lemma {:induction false} StepGood(st: ParserState, e: Event)
    requires Good(st)
    ensures Good(Step(st, e))
  {
    match e
    case StartTag(tag, attrs) => OpenedGood(st, tag, attrs);
    case EndTag(tag) => ClosedGood(st, tag);
    case Data(data) =>
  }

  /** Every event keeps the invariant. */
  lemma {:induction false} FeedGood(st: ParserState, events: seq<Event>)
    requires Good(st)
    ensures Good(Feed(st, events))
    decreases |events|
  {
    if events != [] {
      FeedGood(st, events[..|events| - 1]);
      StepGood(Feed(st, events[..|events| - 1]), events[|events| - 1]);
    }
  }

  /** No document yields a blank text element, a heading outside levels 1
    * to 6 or an unstripped text. */
  lemma {:induction false} DocumentElementsGood(events: seq<Event>)
    ensures forall k :: 0 <= k < |DocumentElements(events)| ==> GoodElement(DocumentElements(events)[k])
  {
    FeedGood(Fresh, events);
    FlushedGood(Feed(Fresh, events));
  }

  predicate IsPrefix(a: seq<Element>, b: seq<Element>) {
    |a| <= |b| && b[..|a|] == a
  }

  lemma {:induction false} AppendedIsLonger(a: seq<Element>, x: seq<Element>)
    ensures IsPrefix(a, a + x)
  {
    assert (a + x)[..|a|] == a;
  }

  lemma {:induction false} FlushedKeeps(st: ParserState)
    ensures IsPrefix(st.elements, Flushed(st).elements)
  {
    if !Text.IsBlank(st.currentText) {
      AppendedIsLonger(st.elements, [TextElement(Text.Strip(st.currentText))]);
    } else {
      assert st.elements[..|st.elements|] == st.elements;
    }
  }

  lemma {:induction false} OpenedKeeps(st: ParserState, tag: string, attrs: seq<Attr>)
    ensures IsPrefix(st.elements, Opened(st, tag, attrs).elements)
  {
    FlushedKeeps(st);
    if KindOf(tag) == RuleTag {
      AppendedIsLonger(Flushed(st).elements, [Rule]);
    }
  }

  lemma {:induction false} ClosedKeeps(st: ParserState, tag: string)
    ensures IsPrefix(st.elements, Closed(st, tag).elements)
  {
    match KindOf(tag)
    case HeadingTag(_) =>
      AppendedIsLonger(st.elements, [Heading(st.headingLevel.GetOr(0), Text.Strip(st.currentText))]);
    case ParagraphTag =>
      FlushedKeeps(st);
    case TableTag =>
      AppendedIsLonger(st.elements, [TableElement(st.tableData)]);
    case _ =>
  }

  /** An event never removes or rewrites an emitted element. */
  lemma {:induction false} StepKeepsElements(st: ParserState, e: Event)
    ensures IsPrefix(st.elements, Step(st, e).elements)
  {
    match e
    case StartTag(tag, attrs) => OpenedKeeps(st, tag, attrs);
    case EndTag(tag) => ClosedKeeps(st, tag);
    case Data(_) =>
  }

  lemma {:induction false} FeedKeepsElements(st: ParserState, events: seq<Event>)
    ensures IsPrefix(st.elements, Feed(st, events).elements)
    decreases |events|
  {
    if events != [] {
      var before := Feed(st, events[..|events| - 1]);
      FeedKeepsElements(st, events[..|events| - 1]);
      StepKeepsElements(before, events[|events| - 1]);
    }
  }

  /** The events of one document after another: feeding them is feeding
    * the first, then the second. */
  lemma {:induction false} FeedAppend(st: ParserState, a: seq<Event>, b: seq<Event>)
    ensures Feed(st, a + b) == Feed(Feed(st, a), b)
    decreases |b|
  {
    if b == [] {
      assert a + b == a;
    } else {
      assert (a + b)[..|a + b| - 1] == a + b[..|b| - 1];
      FeedAppend(st, a, b[..|b| - 1]);
    }
  }

  /** Inside a cell, data goes to the cell and nowhere else. */
  lemma {:induction false} CellDataRouted(st: ParserState, data: string)
    requires st.inCell
    ensures DataAdded(st, data) == st.(cellText := st.cellText + data)
    ensures DataAdded(st, data).elements == st.elements && DataAdded(st, data).currentText == st.currentText
  {
  }

  /** An end tag of a formatting kind removes one open occurrence of it,
    * when there is one, and no other. */
  lemma {:induction false} FormattingClosed(st: ParserState, tag: string, x: char)
    requires ((tag == "strong" || tag == "b") && x == 'b') || ((tag == "em" || tag == "i") && x == 'i')
    ensures x in st.formattingStack ==>
              multiset(Closed(st, tag).formattingStack) == multiset(st.formattingStack) - multiset{x}
    ensures x !in st.formattingStack ==> Closed(st, tag) == st
  {
  }

  /** Bold and italic text outside a cell is appended wrapped in both
    * kinds of markup, bold innermost. */
  lemma {:induction false} BoldItalicData(st: ParserState, data: string)
    requires !st.inCell && !Text.IsBlank(data)
    requires 'b' in st.formattingStack && 'i' in st.formattingStack
    ensures DataAdded(st, data).currentText == st.currentText + "<i><b>" + data + "</b></i>"
  {
  }

  /** A single space is kept only after pending text that does not end in
    * a space. */
  lemma {:induction false} SingleSpace(st: ParserState)
    requires !st.inCell
    ensures DataAdded(st, " ").currentText ==
              if st.currentText != "" && !Text.EndsWith(st.currentText, " ") then
                st.currentText + Formatted(" ", st.formattingStack)
              else st.currentText
  {
    assert Text.IsBlank(" ") by {
      assert Text.IsSpace(" "[0]);
    }
  }

  /** A heading's end tag emits the pending text as a heading only when a
    * heading was opened; an `hr` flushes and emits a rule. */
  lemma {:induction false} HeadingAndRule(st: ParserState, tag: string)
    requires HeadingLevel(tag).Some? && st.headingLevel.Some? && st.headingLevel.value != 0
    ensures Closed(st, tag).elements == st.elements + [Heading(st.headingLevel.value, Text.Strip(st.currentText))]
    ensures Closed(st, tag).headingLevel.None? && Closed(st, tag).currentText == ""
    ensures Opened(st, "hr", []).elements == Flushed(st).elements + [Rule]
  {
  }

  /** A table's end tag emits the rows collected since it opened. */
  lemma {:induction false} TableEmitted(st: ParserState)
    requires st.inTable
    ensures Closed(st, "table").elements == st.elements + [TableElement(st.tableData)]
    ensures !Closed(st, "table").inTable && Closed(st, "table").tableData == []
  {
  }

  /** `MarkdownHTMLParser`. */
  class MarkdownHtmlParser {
    var elements: seq<Element>
    var currentText: string
    var inTable: bool
    var tableData: seq<seq<string>>
    var currentRow: seq<string>
    var inRow: bool
    var inCell: bool
    var cellText: string
    var formattingStack: seq<char>
    var headingLevel: Option<nat>

    function State(): ParserState
      reads this
    {
      ParserState(elements, currentText, inTable, tableData, currentRow, inRow, inCell, cellText,
                  formattingStack, headingLevel)
    }

    constructor()
      ensures State() == Fresh
    {
      elements := [];
      currentText := "";
      inTable := false;
      tableData := [];
      currentRow := [];
      inRow := false;
      inCell := false;
      cellText := "";
      formattingStack := [];
      headingLevel := None;
    }

    method FlushText()
      modifies this
      ensures State() == Flushed(old(State()))
    {
      if !Text.IsBlank(currentText) {
        elements := elements + [TextElement(Text.Strip(currentText))];
        currentText := "";
      }
    }

    method HandleStartTag(tag: string, attrs: seq<Attr>)
      modifies this
      ensures State() == Opened(old(State()), tag, attrs)
    {
      match KindOf(tag) {
        case HeadingTag(level) =>
          FlushText();
          headingLevel := Some(level);
        case ParagraphTag =>
          FlushText();
        case BreakTag =>
          currentText := currentText + "<br/>";
        case BoldTag =>
          formattingStack := formattingStack + ['b'];
        case ItalicTag =>
          formattingStack := formattingStack + ['i'];
        case ImageTag =>
          currentText := currentText + ImageMarker(attrs);
        case TableTag =>
          FlushText();
          inTable := true;
          tableData := [];
        case RowTag =>
          OpenRow();
        case CellTag =>
          OpenCell();
        case RuleTag =>
          FlushText();
          elements := elements + [Rule];
        case OtherTag =>
      }
    }

    method OpenRow()
      modifies this
      ensures State() == if old(inTable) then old(State()).(inRow := true, currentRow := []) else old(State())
    {
      if inTable {
        inRow := true;
        currentRow := [];
      }
    }

    method OpenCell()
      modifies this
      ensures State() == if old(inRow) then old(State()).(inCell := true, cellText := "") else old(State())
    {
      if inRow {
        inCell := true;
        cellText := "";
      }
    }

    method HandleEndTag(tag: string)
      modifies this
      ensures State() == Closed(old(State()), tag)
    {
      match KindOf(tag) {
        case HeadingTag(_) =>
          CloseHeading();
        case ParagraphTag =>
          FlushText();
        case BoldTag =>
          formattingStack := Unformatted(formattingStack, 'b');
        case ItalicTag =>
          formattingStack := Unformatted(formattingStack, 'i');
        case TableTag =>
          CloseTable();
        case RowTag =>
          CloseRow();
        case CellTag =>
          CloseCell();
        case _ =>
      }
    }

    method CloseHeading()
      modifies this
      ensures var st := old(State());
              State() == if st.headingLevel.Some? && st.headingLevel.value != 0 then
                           st.(elements := st.elements + [Heading(st.headingLevel.value, Text.Strip(st.currentText))],
                               currentText := "", headingLevel := None)
                         else st
    {
      if headingLevel.Some? && headingLevel.value != 0 {
        elements := elements + [Heading(headingLevel.value, Text.Strip(currentText))];
        currentText := "";
        headingLevel := None;
      }
    }

    method CloseTable()
      modifies this
      ensures var st := old(State());
              State() == if st.inTable then st.(elements := st.elements + [TableElement(st.tableData)],
                                                inTable := false, tableData := [])
                         else st
    {
      if inTable {
        elements := elements + [TableElement(tableData)];
        inTable := false;
        tableData := [];
      }
    }

    method CloseRow()
      modifies this
      ensures var st := old(State());
              State() == if st.inRow then st.(tableData := st.tableData + [st.currentRow], currentRow := [], inRow := false)
                         else st
    {
      if inRow {
        tableData := tableData + [currentRow];
        currentRow := [];
        inRow := false;
      }
    }

    method CloseCell()
      modifies this
      ensures var st := old(State());
              State() == if st.inCell then st.(currentRow := st.currentRow + [Text.Strip(st.cellText)], cellText := "",
                                               inCell := false)
                         else st
    {
      if inCell {
        currentRow := currentRow + [Text.Strip(cellText)];
        cellText := "";
        inCell := false;
      }
    }

    method HandleData(data: string)
      modifies this
      ensures State() == DataAdded(old(State()), data)
    {
      if inCell {
        cellText := cellText + data;
      } else if !Text.IsBlank(data) || (data == " " && currentText != "" && !Text.EndsWith(currentText, " ")) {
        var formatted := data;
        if 'b' in formattingStack {
          formatted := "<b>" + formatted + "</b>";
        }
        if 'i' in formattingStack {
          formatted := "<i>" + formatted + "</i>";
        }
        currentText := currentText + formatted;
      }
    }

    /** `feed(html)`: each event handed to its handler, in order. */
    method FeedEvents(events: seq<Event>)
      modifies this
      ensures State() == Feed(old(State()), events)
    {
      var i := 0;
      while i < |events|
        invariant 0 <= i <= |events|
        invariant State() == Feed(old(State()), events[..i])
      {
        assert events[..i + 1][..i] == events[..i];
        var e := events[i];
        if e.StartTag? {
          HandleStartTag(e.tag, e.attrs);
        } else if e.EndTag? {
          HandleEndTag(e.tag);
        } else {
          HandleData(e.data);
        }
        i := i + 1;
      }
      assert events[..i] == events;
    }

    /** `get_elements()`: pending text flushed, then the elements; on a
      * parser that keeps its invariant every element is good. */
    method GetElements() returns (els: seq<Element>)
      modifies this
      ensures State() == Flushed(old(State()))
      ensures els == elements
      ensures Good(old(State())) ==> forall k :: 0 <= k < |els| ==> GoodElement(els[k])
    {
      ghost var st := State();
      FlushText();
      els := elements;
      if Good(st) {
        FlushedGood(st);
      }
    }
  }

  /** Converting a document: a new parser, its events, its elements. */
  method ConvertDocument(events: seq<Event>) returns (els: seq<Element>)
    ensures els == DocumentElements(events)
    ensures forall k :: 0 <= k < |els| ==> GoodElement(els[k])
  {
    var parser := new MarkdownHtmlParser();
    parser.FeedEvents(events);
    els := parser.GetElements();
    DocumentElementsGood(events);
  }
}
