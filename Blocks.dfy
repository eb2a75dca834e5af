/** The content block builder of mcp_controller.py: generated text becomes an ordered
    list of Notion paragraph, to_do and bulleted_list_item blocks. The source has the
    builder twice, in `_create_page_in_workspace` and in `_create_page`. */
module Blocks {
  import opened Common
  import opened Text
  import opened Json

  datatype Block =
    | Paragraph(text: string)
    | ToDo(text: string, checked: bool)
    | Bulleted(text: string)

  const TodoMarker: string := "- [ ]"
  const BulletMarker: string := "-"

  // ---------------------------------------------------------------- wire shape

  /** `[{"type": "text", "text": {"content": t}}]` */
  function RichText(t: string): Json {
    JArr([JObj([("type", JStr("text")), ("text", JObj([("content", JStr(t))]))])])
  }

  /** The block object the source appends to `children`. */
  function BlockJson(b: Block): Json {
    match b
    case Paragraph(t) =>
      JObj([("object", JStr("block")), ("type", JStr("paragraph")),
            ("paragraph", JObj([("rich_text", RichText(t))]))])
    case ToDo(t, c) =>
      JObj([("object", JStr("block")), ("type", JStr("to_do")),
            ("to_do", JObj([("rich_text", RichText(t)), ("checked", JBool(c))]))])
    case Bulleted(t) =>
      JObj([("object", JStr("block")), ("type", JStr("bulleted_list_item")),
            ("bulleted_list_item", JObj([("rich_text", RichText(t))]))])
  }

  function BlocksJson(bs: seq<Block>): (j: Json)
    ensures j.JArr? && |j.items| == |bs|
    ensures forall k :: 0 <= k < |bs| ==> j.items[k] == BlockJson(bs[k])
  {
    JArr(seq(|bs|, k requires 0 <= k < |bs| => BlockJson(bs[k])))
  }

  /** Reads a block object back: the inverse of BlockJson. */
  function ParseBlock(j: Json): Option<Block> {
    if !j.JObj? then None
    else
      var kind := Lookup(j.fields, "type");
      if kind.None? || !kind.value.JStr? then None
      else
        var body := Lookup(j.fields, kind.value.s);
        if body.None? || !body.value.JObj? then None
        else
          var t := BodyText(body.value.fields);
          var checked := Lookup(body.value.fields, "checked");
          if t.None? then None
          else if kind.value.s == "paragraph" then Some(Paragraph(t.value))
          else if kind.value.s == "bulleted_list_item" then Some(Bulleted(t.value))
          else if kind.value.s == "to_do" && checked.Some? && checked.value.JBool? then
            Some(ToDo(t.value, checked.value.b))
          else None
  }

  /** The content of the single text span under "rich_text". */
  function BodyText(body: Fields): Option<string> {
    var rt := Lookup(body, "rich_text");
    if rt.None? || !rt.value.JArr? || |rt.value.items| != 1 || !rt.value.items[0].JObj? then None
    else
      var text := Lookup(rt.value.items[0].fields, "text");
      if text.None? || !text.value.JObj? then None
      else
        var content := Lookup(text.value.fields, "content");
        if content.None? || !content.value.JStr? then None
        else Some(content.value.s)
  }

  /** Every block object the builder emits can be read back as the block it came from. */
  lemma ParseBlockJson(b: Block)
    ensures ParseBlock(BlockJson(b)) == Some(b)
  {
    match b
    case Paragraph(t) => ParseParagraph(t);
    case ToDo(t, c) => ParseToDo(t, c);
    case Bulleted(t) => ParseBulleted(t);
  }

  /** The single span of RichText(t), with or without a `checked` entry after it, reads as t. */
  lemma RichTextRoundTrip(t: string, c: bool)
    ensures BodyText([("rich_text", RichText(t))]) == Some(t)
    ensures BodyText([("rich_text", RichText(t)), ("checked", JBool(c))]) == Some(t)
  {
    var span := [("type", JStr("text")), ("text", JObj([("content", JStr(t))]))];
    LookupFirst(span, 1);
    LookupFirst([("content", JStr(t))], 0);
    LookupFirst([("rich_text", RichText(t))], 0);
    LookupFirst([("rich_text", RichText(t)), ("checked", JBool(c))], 0);
  }

  /** How ParseBlock reads an object once its type, its body and the body's text are known. */
  lemma ParseBlockFrom(j: Json, kind: string, body: Fields, t: string)
    requires j.JObj? && Lookup(j.fields, "type") == Some(JStr(kind))
    requires Lookup(j.fields, kind) == Some(JObj(body)) && BodyText(body) == Some(t)
    ensures kind == "paragraph" ==> ParseBlock(j) == Some(Paragraph(t))
    ensures kind == "bulleted_list_item" ==> ParseBlock(j) == Some(Bulleted(t))
    ensures kind == "to_do" ==>
              ParseBlock(j) == (var checked := Lookup(body, "checked");
                                if checked.Some? && checked.value.JBool? then Some(ToDo(t, checked.value.b)) else None)
  {
  }

  lemma ParseParagraph(t: string)
    ensures ParseBlock(BlockJson(Paragraph(t))) == Some(Paragraph(t))
  {
    var body := [("rich_text", RichText(t))];
    var fields := [("object", JStr("block")), ("type", JStr("paragraph")), ("paragraph", JObj(body))];
    assert BlockJson(Paragraph(t)) == JObj(fields);
    LookupFirst(fields, 1);
    LookupFirst(fields, 2);
    RichTextRoundTrip(t, false);
    ParseBlockFrom(JObj(fields), "paragraph", body, t);
  }

  lemma ParseToDo(t: string, c: bool)
    ensures ParseBlock(BlockJson(ToDo(t, c))) == Some(ToDo(t, c))
  {
    var body := [("rich_text", RichText(t)), ("checked", JBool(c))];
    var fields := [("object", JStr("block")), ("type", JStr("to_do")), ("to_do", JObj(body))];
    assert BlockJson(ToDo(t, c)) == JObj(fields);
    LookupFirst(fields, 1);
    LookupFirst(fields, 2);
    LookupFirst(body, 1);
    RichTextRoundTrip(t, c);
    ParseBlockFrom(JObj(fields), "to_do", body, t);
  }

  lemma ParseBulleted(t: string)
    ensures ParseBlock(BlockJson(Bulleted(t))) == Some(Bulleted(t))
  {
    var body := [("rich_text", RichText(t))];
    var fields := [("object", JStr("block")), ("type", JStr("bulleted_list_item")), ("bulleted_list_item", JObj(body))];
    assert BlockJson(Bulleted(t)) == JObj(fields);
    LookupFirst(fields, 1);
    LookupFirst(fields, 2);
    RichTextRoundTrip(t, false);
    ParseBlockFrom(JObj(fields), "bulleted_list_item", body, t);
  }

  // ---------------------------------------------------------------- content_type "text"

  /** One paragraph per segment whose `strip()` is non-empty, carrying the unstripped
      segment, in order (the loop at mcp_controller.py:128-136). */
  function ParagraphBlocks(segments: seq<string>): seq<Block> {
    if segments == [] then []
    else
      var last := segments[|segments| - 1];
      ParagraphBlocks(segments[..|segments| - 1])
        + (if Strip(last) != "" then [Paragraph(last)] else [])
  }

  function TextBlocks(content: string): seq<Block> {
    ParagraphBlocks(Split(content, "\n\n"))
  }

  method BuildTextBlocks(content: string) returns (children: seq<Block>)
    ensures children == TextBlocks(content)
  {
    var segments := Split(content, "\n\n");
    children := [];
    var i := 0;
    while i < |segments|
      invariant 0 <= i <= |segments|
      invariant children == ParagraphBlocks(segments[..i])
    {
      var paragraph := segments[i];
      assert segments[..i + 1][..i] == segments[..i];
      if Strip(paragraph) != "" {
        children := children + [Paragraph(paragraph)];
      }
      i := i + 1;
    }
    assert segments[..i] == segments;
  }

  function Texts(bs: seq<Block>): (ts: seq<string>)
    ensures |ts| == |bs| && forall k :: 0 <= k < |bs| ==> ts[k] == bs[k].text
  {
    seq(|bs|, k requires 0 <= k < |bs| => bs[k].text)
  }

  /** Every text block is a paragraph holding one of the segments, with a non-blank
      strip, and there are at most as many blocks as segments. */
  lemma {:induction false} ParagraphBlocksShape(segments: seq<string>)
    ensures |ParagraphBlocks(segments)| <= |segments|
    ensures forall b :: b in ParagraphBlocks(segments) ==>
              b.Paragraph? && b.text in segments && Strip(b.text) != ""
  {
    if segments != [] {
      var init := segments[..|segments| - 1];
      ParagraphBlocksShape(init);
      assert forall x :: x in init ==> x in segments;
    }
  }

  /** When no segment is blank, the paragraphs are exactly the segments. */
  lemma {:induction false} ParagraphBlocksAllKept(segments: seq<string>)
    requires forall k :: 0 <= k < |segments| ==> Strip(segments[k]) != ""
    ensures Texts(ParagraphBlocks(segments)) == segments
    ensures forall b :: b in ParagraphBlocks(segments) ==> b.Paragraph?
  {
    if segments != [] {
      var init := segments[..|segments| - 1];
      var last := segments[|segments| - 1];
      ParagraphBlocksAllKept(init);
      assert Strip(last) != "";
      var bs := ParagraphBlocks(init);
      assert ParagraphBlocks(segments) == bs + [Paragraph(last)];
      assert Texts(bs + [Paragraph(last)]) == Texts(bs) + [last];
      assert segments == init + [last];
    }
  }

  /** Round trip: when the generated text has no blank paragraph, joining the block
      texts with a blank line gives the text back. */
  lemma TextBlocksRoundTrip(content: string)
    requires forall k :: 0 <= k < |Split(content, "\n\n")| ==> Strip(Split(content, "\n\n")[k]) != ""
    ensures Join("\n\n", Texts(TextBlocks(content))) == content
  {
    ParagraphBlocksAllKept(Split(content, "\n\n"));
    JoinSplit(content, "\n\n");
  }

  // ---------------------------------------------------------------- content_type "todo" / "bullet"

  /** One stripped, non-blank line as a block: a "- [ ]" prefix wins over "-", and any
      other line is a paragraph (mcp_controller.py:139-166). */
  function LineBlock(raw: string): Option<Block> {
    var line := Strip(raw);
    if line == "" then None
    else if StartsWith(line, TodoMarker) then Some(ToDo(Strip(line[5..]), false))
    else if StartsWith(line, BulletMarker) then Some(Bulleted(Strip(line[1..])))
    else Some(Paragraph(line))
  }

  function LinesBlocks(lines: seq<string>): seq<Block> {
    if lines == [] then []
    else
      var b := LineBlock(lines[|lines| - 1]);
      LinesBlocks(lines[..|lines| - 1]) + (if b.Some? then [b.value] else [])
  }

  function ListBlocks(content: string): seq<Block> {
    LinesBlocks(Split(content, "\n"))
  }

  method BuildListBlocks(content: string) returns (children: seq<Block>)
    ensures children == ListBlocks(content)
  {
    var lines := Split(content, "\n");
    children := [];
    var i := 0;
    while i < |lines|
      invariant 0 <= i <= |lines|
      invariant children == LinesBlocks(lines[..i])
    {
      assert lines[..i + 1][..i] == lines[..i];
      var line := Strip(lines[i]);
      if line == "" {
        i := i + 1;
        continue;
      }
      if StartsWith(line, TodoMarker) {
        children := children + [ToDo(Strip(line[5..]), false)];
      } else if StartsWith(line, BulletMarker) {
        children := children + [Bulleted(Strip(line[1..]))];
      } else {
        children := children + [Paragraph(line)];
      }
      i := i + 1;
    }
    assert lines[..i] == lines;
  }

  function NonBlankCount(lines: seq<string>): nat {
    if lines == [] then 0
    else NonBlankCount(lines[..|lines| - 1]) + (if Strip(lines[|lines| - 1]) != "" then 1 else 0)
  }

  /** Exactly one block per non-blank line; no to-do is ever checked. */
  lemma {:induction false} LinesBlocksCount(lines: seq<string>)
    ensures |LinesBlocks(lines)| == NonBlankCount(lines)
    ensures forall b :: b in LinesBlocks(lines) && b.ToDo? ==> !b.checked
  {
    if lines != [] {
      LinesBlocksCount(lines[..|lines| - 1]);
    }
  }

  /** The line a block is written as in the format the to-do and bullet instructions ask
      the model for. */
  function RenderLine(b: Block): string {
    match b
    case ToDo(t, _) => "- [ ] " + t
    case Bulleted(t) => "- " + t
    case Paragraph(t) => t
  }

  function RenderLines(bs: seq<Block>): (ls: seq<string>)
    ensures |ls| == |bs| && forall k :: 0 <= k < |bs| ==> ls[k] == RenderLine(bs[k])
  {
    seq(|bs|, k requires 0 <= k < |bs| => RenderLine(bs[k]))
  }

  /** No whitespace at either end, which is what being stripped means (StrippedIffNoEdges). */
  predicate NoEdgeSpace(t: string) {
    t == [] || (!IsSpace(t[0]) && !IsSpace(t[|t| - 1]))
  }

  /** A block the list builder can produce from its rendered line: a one-line stripped
      text, an unchecked to-do, a bullet whose text does not itself look like a checkbox,
      and a non-empty paragraph that does not start with a dash. */
  predicate WellFormed(b: Block) {
    && '\n' !in b.text
    && NoEdgeSpace(b.text)
    && match b
       case ToDo(_, c) => !c
       case Bulleted(t) => !StartsWith(t, "[ ]")
       case Paragraph(t) => t != "" && !StartsWith(t, BulletMarker)
  }

  /** Each well-formed block is what the list builder reads from its rendered line. */
  lemma LineBlockRender(b: Block)
    requires WellFormed(b)
    ensures LineBlock(RenderLine(b)) == Some(b)
  {
    match b
    case ToDo(t, _) => LineBlockToDo(t);
    case Bulleted(t) => LineBlockBulleted(t);
    case Paragraph(t) => LineBlockParagraph(t);
  }

  lemma LineBlockToDo(t: string)
    requires NoEdgeSpace(t)
    ensures LineBlock("- [ ] " + t) == Some(ToDo(t, false))
  {
    var line := "- [ ] " + t;
    assert line[..5] == TodoMarker;
    assert line[5..] == " " + t;
    if t == [] {
      StripPad([], "- [ ]", " ");
      assert [] + "- [ ]" + " " == line;
      assert "- [ ]"[5..] == [];
      StripPad([], [], []);
      ToDoFrom("- [ ]", t);
    } else {
      StripPad([], line, []);
      assert [] + line + [] == line;
      StripPad(" ", t, []);
      assert " " + t + [] == " " + t;
      ToDoFrom(line, t);
    }
  }

  lemma ToDoFrom(line: string, t: string)
    requires line != "" && Strip(line) == line && StartsWith(line, TodoMarker)
    requires Strip(line[5..]) == t
    ensures LineBlock(line) == Some(ToDo(t, false))
  {
  }

  lemma LineBlockBulleted(t: string)
    requires NoEdgeSpace(t) && !StartsWith(t, "[ ]")
    ensures LineBlock("- " + t) == Some(Bulleted(t))
  {
    var line := "- " + t;
    assert line[..1] == BulletMarker;
    assert line[1..] == " " + t;
    if t == [] {
      StripPad([], "-", " ");
      assert [] + "-" + " " == line;
      StripPad([], [], []);
      assert Strip(line) == "-";
      BulletFrom("-", t);
    } else {
      StripPad([], line, []);
      assert [] + line + [] == line;
      StripPad(" ", t, []);
      assert " " + t + [] == " " + t;
      NotTodoMarker(t);
      BulletFrom(line, t);
    }
  }

  /** A bullet line that is already stripped and is not a checkbox line. */
  lemma BulletFrom(line: string, t: string)
    requires line != "" && Strip(line) == line && StartsWith(line, BulletMarker)
    requires !StartsWith(line, TodoMarker) && Strip(line[1..]) == t
    ensures LineBlock(line) == Some(Bulleted(t))
  {
  }

  lemma NotTodoMarker(t: string)
    requires !StartsWith(t, "[ ]")
    ensures !StartsWith("- " + t, TodoMarker)
  {
    var line := "- " + t;
    if |t| >= 3 {
      assert line[..5][2..] == t[..3];
    }
  }

  lemma LineBlockParagraph(t: string)
    requires NoEdgeSpace(t) && t != "" && !StartsWith(t, BulletMarker)
    ensures LineBlock(t) == Some(Paragraph(t))
  {
    StripPad([], t, []);
    assert [] + t + [] == t;
    assert |t| >= 5 ==> t[..1] == t[..5][..1];
  }

  /** Round trip: writing well-formed blocks one per line and running the list builder
      over the text gives the same blocks back, in order. */
  lemma {:induction false} ListBlocksRoundTrip(bs: seq<Block>)
    requires forall k :: 0 <= k < |bs| ==> WellFormed(bs[k])
    ensures LinesBlocks(RenderLines(bs)) == bs
  {
    if bs != [] {
      var init := bs[..|bs| - 1];
      var last := bs[|bs| - 1];
      assert bs == init + [last];
      var ls := RenderLines(bs);
      ListBlocksRoundTrip(init);
      assert ls[..|ls| - 1] == RenderLines(init);
      LineBlockRender(last);
      LinesBlocksStep(ls, init, last);
    }
  }

  lemma LinesBlocksStep(ls: seq<string>, init: seq<Block>, b: Block)
    requires ls != [] && LinesBlocks(ls[..|ls| - 1]) == init
    requires LineBlock(ls[|ls| - 1]) == Some(b)
    ensures LinesBlocks(ls) == init + [b]
  {
  }

  lemma ListBlocksOfRendered(bs: seq<Block>)
    requires |bs| >= 1
    requires forall k :: 0 <= k < |bs| ==> WellFormed(bs[k])
    ensures ListBlocks(Join("\n", RenderLines(bs))) == bs
  {
    var ls := RenderLines(bs);
    forall k | 0 <= k < |ls| ensures '\n' !in ls[k] {
      var b := bs[k];
      match b
      case ToDo(t, _) => assert ls[k] == "- [ ] " + t;
      case Bulleted(t) => assert ls[k] == "- " + t;
      case Paragraph(t) =>
    }
    SplitJoin('\n', ls);
    ListBlocksRoundTrip(bs);
  }

  /** The example the design gives: a checkbox line, a dash line and a plain line make
      an unchecked to-do, a bullet and a paragraph. */
  lemma TodoExample()
    ensures ListBlocks("- [ ] buy milk\n- eggs\nplain line")
         == [ToDo("buy milk", false), Bulleted("eggs"), Paragraph("plain line")]
  {
    var bs := [ToDo("buy milk", false), Bulleted("eggs"), Paragraph("plain line")];
    ExampleWellFormed(bs);
    ExampleRendered(RenderLines(bs));
    ListBlocksOfRendered(bs);
  }

  lemma ExampleWellFormed(bs: seq<Block>)
    requires bs == [ToDo("buy milk", false), Bulleted("eggs"), Paragraph("plain line")]
    ensures forall k :: 0 <= k < |bs| ==> WellFormed(bs[k])
    ensures RenderLines(bs) == ["- [ ] buy milk", "- eggs", "plain line"]
  {
    assert WellFormed(bs[0]) && WellFormed(bs[1]) && WellFormed(bs[2]);
    var ls := RenderLines(bs);
    assert ls[0] == "- [ ] buy milk" && ls[1] == "- eggs" && ls[2] == "plain line";
  }

  lemma ExampleRendered(ls: seq<string>)
    requires ls == ["- [ ] buy milk", "- eggs", "plain line"]
    ensures Join("\n", ls) == "- [ ] buy milk\n- eggs\nplain line"
  {
    assert ls[2..] == ["plain line"];
    assert ls[1..] == [ls[1]] + ls[2..];
    JoinCons("\n", ls[1], ls[2..]);
    JoinCons("\n", ls[0], ls[1..]);
    assert ls == [ls[0]] + ls[1..];
  }

  // ---------------------------------------------------------------- choosing by content_type

  /** The blocks `_create_page_in_workspace` builds (mcp_controller.py:127-166): text
      splits on blank lines, "todo" and "bullet" on lines, any other type builds none. */
  function ContentBlocks(content: string, contentType: Json): seq<Block> {
    if contentType == JStr("text") then TextBlocks(content)
    else if contentType == JStr("todo") || contentType == JStr("bullet") then ListBlocks(content)
    else []
  }

  method BuildContentBlocks(content: string, contentType: Json) returns (children: seq<Block>)
    ensures children == ContentBlocks(content, contentType)
  {
    children := [];
    if contentType == JStr("text") {
      children := BuildTextBlocks(content);
    } else if contentType == JStr("todo") || contentType == JStr("bullet") {
      children := BuildListBlocks(content);
    }
  }

  /** The same choice as `_create_page` writes it (mcp_controller.py:333-382): its chain
      assigns `children` only for text, todo and bullet, so any other type reaches the
      page write with `children` unbound. */
  function CreatePageChildrenAsWritten(content: string, contentType: Json): Result<seq<Block>> {
    if contentType == JStr("text") then Ok(TextBlocks(content))
    else if contentType == JStr("todo") || contentType == JStr("bullet") then Ok(ListBlocks(content))
    else Err(UnboundLocalError)
  }

  /** A "table" request, one of the four types content generation supports, makes the
      database-page path fail. */
  lemma TableChildrenUnbound(content: string)
    ensures CreatePageChildrenAsWritten(content, JStr("table")) == Err(UnboundLocalError)
  {
  }

  /** The corrected choice used by the model agrees with the code wherever the code
      assigns `children`, and never fails. */
  lemma ContentBlocksCorrectsAsWritten(content: string, contentType: Json)
    ensures CreatePageChildrenAsWritten(content, contentType).Ok? ==>
              CreatePageChildrenAsWritten(content, contentType).value == ContentBlocks(content, contentType)
    ensures CreatePageChildrenAsWritten(content, contentType).Err? ==> ContentBlocks(content, contentType) == []
  {
  }
}
