/**
 * Anthropic messages to upstream messages (convert.go:169-273).  The text of a tool
 * result is given with its block.
 */
module MessagesInput {
  import opened Basics
  import opened UpstreamMessages
  import opened Positions

  datatype Source = Source(kind: string, mediaType: string, data: string, url: string)

  datatype Block = Block(
    kind: string, text: string, marked: bool,
    id: string, name: string, input: string,
    toolUseId: string, result: string,
    source: Option<Source>)

  /** A message whose content did not parse has no blocks. */
  datatype Message = Message(role: string, blocks: Option<seq<Block>>)

  // ---------- what a turn becomes ----------

  function Results(blocks: seq<Block>): seq<Block> {
    if blocks == [] then []
    else
      var n := |blocks| - 1;
      Results(blocks[..n]) + (if blocks[n].kind == "tool_result" then [blocks[n]] else [])
  }

  function Others(blocks: seq<Block>): seq<Block> {
    if blocks == [] then []
    else
      var n := |blocks| - 1;
      Others(blocks[..n]) + (if blocks[n].kind != "tool_result" then [blocks[n]] else [])
  }

  function ToolMessage(b: Block): UpMessage { UpMessage("tool", Words(b.result), [], [], b.toolUseId) }

  function ToolMessages(results: seq<Block>): seq<UpMessage> {
    seq(|results|, i requires 0 <= i < |results| => ToolMessage(results[i]))
  }

  predicate IsImage(b: Block) { b.kind == "image" && b.source.Some? }

  function ImageUrl(s: Source): string {
    if s.kind == "base64" then "data:" + s.mediaType + ";base64," + s.data else s.url
  }

  function PartsOf(b: Block): seq<Part> {
    if b.kind == "text" then [Part("text", b.text, "", b.marked)]
    else if IsImage(b) then [Part("image_url", "", ImageUrl(b.source.value), b.marked)]
    else []
  }

  function UserParts(blocks: seq<Block>): seq<Part> {
    if blocks == [] then [] else UserParts(blocks[..|blocks| - 1]) + PartsOf(blocks[|blocks| - 1])
  }

  function Texts(blocks: seq<Block>): seq<string> {
    if blocks == [] then []
    else
      var n := |blocks| - 1;
      Texts(blocks[..n]) + (if blocks[n].kind == "text" then [blocks[n].text] else [])
  }

  function UserMessage(blocks: seq<Block>): UpMessage {
    var parts := UserParts(blocks);
    UpMessage("user",
      if exists i :: 0 <= i < |blocks| && IsImage(blocks[i]) then Structured(parts)
      else Words(Join(Texts(blocks), "\n")),
      parts, [], "")
  }

  function UseCall(b: Block): ToolCall { ToolCall(b.id, b.name, if b.input != "" then b.input else "{}") }

  function Uses(blocks: seq<Block>): seq<ToolCall> {
    if blocks == [] then []
    else
      var n := |blocks| - 1;
      Uses(blocks[..n]) + (if blocks[n].kind == "tool_use" then [UseCall(blocks[n])] else [])
  }

  function TextParts(blocks: seq<Block>): seq<Part> {
    if blocks == [] then []
    else
      var n := |blocks| - 1;
      TextParts(blocks[..n])
      + (if blocks[n].kind == "text" then [Part("text", blocks[n].text, "", blocks[n].marked)] else [])
  }

  function AssistantMessage(blocks: seq<Block>): UpMessage {
    var joined := Join(Texts(blocks), "");
    UpMessage("assistant",
      if joined != "" then Words(joined) else if Uses(blocks) != [] then Words("") else Absent,
      TextParts(blocks), Uses(blocks), "")
  }

  /** The user's own words, if there are any or if there is nothing else. */
  function OwnWords(blocks: seq<Block>): seq<UpMessage> {
    if Others(blocks) != [] || Results(blocks) == [] then [UserMessage(Others(blocks))] else []
  }

  function TurnOf(role: string, blocks: seq<Block>): seq<UpMessage> {
    if role == "user" then ToolMessages(Results(blocks)) + OwnWords(blocks) else [AssistantMessage(blocks)]
  }

  predicate Parsed(msgs: seq<Message>) { forall m :: m in msgs ==> m.blocks.Some? }

  function Converted(msgs: seq<Message>): seq<UpMessage>
    requires Parsed(msgs)
  {
    if msgs == [] then []
    else
      var n := |msgs| - 1;
      Converted(msgs[..n]) + TurnOf(msgs[n].role, msgs[n].blocks.value)
  }

  // ---------- the loops ----------

  method SplitResults(blocks: seq<Block>) returns (toolResults: seq<Block>, normal: seq<Block>)
    ensures toolResults == Results(blocks) && normal == Others(blocks)
  {
    toolResults, normal := [], [];
    var i := 0;
    while i < |blocks|
      invariant 0 <= i <= |blocks|
      invariant toolResults == Results(blocks[..i]) && normal == Others(blocks[..i])
    {
      assert blocks[..i + 1][..i] == blocks[..i];
      if blocks[i].kind == "tool_result" {
        toolResults := toolResults + [blocks[i]];
      } else {
        normal := normal + [blocks[i]];
      }
      i := i + 1;
    }
    assert blocks[..i] == blocks;
  }

  method UserContentFromBlocks(blocks: seq<Block>) returns (content: Content, parts: seq<Part>)
    ensures content == UserMessage(blocks).content && parts == UserMessage(blocks).parts
  {
    parts := [];
    var texts: seq<string>, hasImage := [], false;
    var i := 0;
    while i < |blocks|
      invariant 0 <= i <= |blocks|
      invariant parts == UserParts(blocks[..i]) && texts == Texts(blocks[..i])
      invariant hasImage <==> exists k :: 0 <= k < i && IsImage(blocks[k])
    {
      assert blocks[..i + 1][..i] == blocks[..i];
      var b := blocks[i];
      if b.kind == "text" {
        parts := parts + [Part("text", b.text, "", b.marked)];
        texts := texts + [b.text];
      } else if b.kind == "image" {
        if b.source.Some? {
          parts := parts + [Part("image_url", "", ImageUrl(b.source.value), b.marked)];
          hasImage := true;
        }
      }
      i := i + 1;
    }
    assert blocks[..i] == blocks;
    if hasImage {
      return Structured(parts), parts;
    }
    content := Words(Join(texts, "\n"));
  }

  method AssistantFromBlocks(blocks: seq<Block>) returns (m: UpMessage)
    ensures m == AssistantMessage(blocks)
  {
    var texts: seq<string>, parts: seq<Part>, calls: seq<ToolCall> := [], [], [];
    var i := 0;
    while i < |blocks|
      invariant 0 <= i <= |blocks|
      invariant texts == Texts(blocks[..i]) && parts == TextParts(blocks[..i]) && calls == Uses(blocks[..i])
    {
      assert blocks[..i + 1][..i] == blocks[..i];
      var b := blocks[i];
      if b.kind == "text" {
        texts := texts + [b.text];
        parts := parts + [Part("text", b.text, "", b.marked)];
      } else if b.kind == "tool_use" {
        calls := calls + [ToolCall(b.id, b.name, if |b.input| > 0 then b.input else "{}")];
      }
      i := i + 1;
    }
    assert blocks[..i] == blocks;
    m := UpMessage("assistant", Absent, parts, calls, "");
    var joined := Join(texts, "");
    if joined != "" {
      m := m.(content := Words(joined));
    } else if |calls| > 0 {
      m := m.(content := Words(""));
    }
  }

  /** A user turn: the tool messages first, then the user's own words. */
  method ConvertUser(before: seq<UpMessage>, blocks: seq<Block>) returns (out: seq<UpMessage>)
    ensures out == before + TurnOf("user", blocks)
  {
    hide Results, Others, UserMessage;
    var toolResults, normal := SplitResults(blocks);
    out := before;
    var j := 0;
    while j < |toolResults|
      invariant 0 <= j <= |toolResults|
      invariant out == before + ToolMessages(toolResults[..j])
    {
      out := out + [ToolMessage(toolResults[j])];
      assert ToolMessages(toolResults[..j + 1]) == ToolMessages(toolResults[..j]) + [ToolMessage(toolResults[j])];
      j := j + 1;
    }
    assert toolResults[..j] == toolResults;
    if |normal| > 0 || |toolResults| == 0 {
      var content, parts := UserContentFromBlocks(normal);
      UserShape(normal);
      out := out + [UpMessage("user", content, parts, [], "")];
    }
  }

  /** The first message that does not parse is an error; otherwise every turn is converted in order. */
  method MessagesToUpstream(msgs: seq<Message>) returns (r: Result<seq<UpMessage>, string>)
    ensures r.Ok? <==> Parsed(msgs)
    ensures r.Ok? ==> r.value == Converted(msgs) && Right(msgs, r.value)
    ensures r.Err? ==>
      exists k :: 0 <= k < |msgs| && msgs[k].blocks.None? && Parsed(msgs[..k]) && r.error == msgs[k].role
  {
    hide ToolMessages, OwnWords, AssistantMessage, Right;
    var out: seq<UpMessage> := [];
    var i := 0;
    while i < |msgs|
      invariant 0 <= i <= |msgs|
      invariant Parsed(msgs[..i]) && out == Converted(msgs[..i])
    {
      assert msgs[..i + 1][..i] == msgs[..i];
      var m := msgs[i];
      if m.blocks.None? {
        assert m in msgs;
        return Err(m.role);
      }
      if m.role == "user" {
        out := ConvertUser(out, m.blocks.value);
      } else {
        var um := AssistantFromBlocks(m.blocks.value);
        out := out + [um];
      }
      i := i + 1;
    }
    assert msgs[..i] == msgs;
    ConvertedRight(msgs);
    r := Ok(out);
  }

  lemma UserShape(blocks: seq<Block>)
    ensures var m := UserMessage(blocks); m == UpMessage("user", m.content, m.parts, [], "")
  {}

  // ---------- field by field ----------

  predicate PickResult(b: Block) { b.kind == "tool_result" }

  predicate PickUse(b: Block) { b.kind == "tool_use" }

  predicate PickText(b: Block) { b.kind == "text" }

  predicate PickShown(b: Block) { b.kind == "text" || (b.kind == "image" && b.source.Some?) }

  /** A tool message answers the call the result names, with the text of the result. */
  predicate ResultFields(m: UpMessage, b: Block) {
    m.role == "tool" && m.toolCallId == b.toolUseId && m.content == Words(b.result) && m.parts == [] && m.calls == []
  }

  /** A call carries id, name and input of its block; an input left out is the empty object. */
  predicate UseFields(c: ToolCall, b: Block) {
    && c.id == b.id && c.name == b.name
    && (b.input != "" ==> c.arguments == b.input) && (b.input == "" ==> c.arguments == "{}")
  }

  predicate PartFields(p: Part, b: Block) {
    && p.marked == b.marked
    && (b.kind == "text" ==> p.kind == "text" && p.text == b.text && p.url == "")
    && (b.kind != "text" && b.source.Some? ==>
          && p.kind == "image_url" && p.text == ""
          && p.url == if b.source.value.kind == "base64"
                      then "data:" + b.source.value.mediaType + ";base64," + b.source.value.data
                      else b.source.value.url)
  }

  predicate TextField(text: string, b: Block) { text == b.text }

  /** The texts of the text blocks, joined. */
  ghost predicate Joins(text: string, blocks: seq<Block>, separator: string) {
    exists texts :: Matches(texts, blocks, PickText, TextField) && text == Join(texts, separator)
  }

  /** The user's own words: structured if there is an image, else the text lines. */
  ghost predicate OwnRight(m: UpMessage, blocks: seq<Block>) {
    && m.role == "user" && m.calls == [] && m.toolCallId == "" && Matches(m.parts, blocks, PickShown, PartFields)
    && (if exists i :: 0 <= i < |blocks| && blocks[i].kind == "image" && blocks[i].source.Some?
        then m.content == Structured(m.parts)
        else m.content.Words? && Joins(m.content.text, blocks, "\n"))
  }

  ghost predicate AssistantRight(m: UpMessage, blocks: seq<Block>) {
    && m.role == "assistant" && m.toolCallId == ""
    && Matches(m.parts, blocks, PickText, PartFields) && Matches(m.calls, blocks, PickUse, UseFields)
    && (if m.content.Words? then Joins(m.content.text, blocks, "") && (m.content.text != "" || m.calls != [])
        else m.content == Absent && m.calls == [] && Joins("", blocks, ""))
  }

  /** A user turn: a message per tool result, then one of the user's own if anything else was said or nothing at all. */
  ghost predicate UserTurnRight(blocks: seq<Block>, out: seq<UpMessage>) {
    var n := |Where(blocks, PickResult)|;
    if n == |blocks| > 0 then Matches(out, blocks, PickResult, ResultFields)
    else |out| == n + 1 && Matches(out[..n], blocks, PickResult, ResultFields) && OwnRight(out[n], blocks)
  }

  ghost predicate TurnRight(role: string, blocks: seq<Block>, out: seq<UpMessage>) {
    if role == "user" then UserTurnRight(blocks, out) else |out| == 1 && AssistantRight(out[0], blocks)
  }

  /** The output is what came of the turns, one after the other. */
  ghost predicate Right(msgs: seq<Message>, out: seq<UpMessage>) {
    exists pieces: seq<seq<UpMessage>> ::
      && |pieces| == |msgs| && out == Flatten(pieces)
      && forall k :: 0 <= k < |msgs| ==> (
           msgs[k].blocks.Some? && TurnRight(msgs[k].role, msgs[k].blocks.value, pieces[k]))
  }

  lemma {:induction false} ResultsAt(blocks: seq<Block>)
    ensures Matches(ToolMessages(Results(blocks)), blocks, PickResult, ResultFields)
    ensures |Results(blocks)| + |Others(blocks)| == |blocks|
  {
    hide Matches;
    if blocks == [] {
      MatchesNone(PickResult, ResultFields);
      NoneTools();
    } else {
      var n := |blocks| - 1;
      ResultsAt(blocks[..n]);
      assert blocks == blocks[..n] + [blocks[n]];
      MatchesPush(ToolMessages(Results(blocks[..n])), ToolMessage(blocks[n]), blocks[..n], blocks[n], PickResult,
                  ResultFields);
      var last: seq<Block> := if PickResult(blocks[n]) then [blocks[n]] else [];
      ToolMessagesAppend(Results(blocks[..n]), last);
      assert ToolMessages(last) == if PickResult(blocks[n]) then [ToolMessage(blocks[n])] else [];
    }
  }

  lemma {:induction false} UsesAt(blocks: seq<Block>)
    ensures Matches(Uses(blocks), blocks, PickUse, UseFields)
  {
    hide Matches;
    if blocks == [] {
      MatchesNone(PickUse, UseFields);
    } else {
      var n := |blocks| - 1;
      UsesAt(blocks[..n]);
      assert blocks == blocks[..n] + [blocks[n]];
      MatchesPush(Uses(blocks[..n]), UseCall(blocks[n]), blocks[..n], blocks[n], PickUse, UseFields);
    }
  }

  function PartOf(b: Block): Part { if PartsOf(b) != [] then PartsOf(b)[0] else Part("", "", "", false) }

  lemma {:induction false} PartsAt(blocks: seq<Block>)
    ensures Matches(UserParts(blocks), blocks, PickShown, PartFields)
  {
    hide Matches;
    if blocks == [] {
      MatchesNone(PickShown, PartFields);
    } else {
      var n := |blocks| - 1;
      PartsAt(blocks[..n]);
      assert blocks == blocks[..n] + [blocks[n]];
      assert PartsOf(blocks[n]) == if PickShown(blocks[n]) then [PartOf(blocks[n])] else [];
      MatchesPush(UserParts(blocks[..n]), PartOf(blocks[n]), blocks[..n], blocks[n], PickShown, PartFields);
    }
  }

  lemma {:induction false} TextPartsAt(blocks: seq<Block>)
    ensures Matches(TextParts(blocks), blocks, PickText, PartFields)
  {
    hide Matches;
    if blocks == [] {
      MatchesNone(PickText, PartFields);
    } else {
      var n := |blocks| - 1;
      TextPartsAt(blocks[..n]);
      assert blocks == blocks[..n] + [blocks[n]];
      MatchesPush(TextParts(blocks[..n]), PartOf(blocks[n]), blocks[..n], blocks[n], PickText, PartFields);
    }
  }

  lemma {:induction false} TextsAt(blocks: seq<Block>)
    ensures Matches(Texts(blocks), blocks, PickText, TextField)
  {
    hide Matches;
    if blocks == [] {
      MatchesNone(PickText, TextField);
    } else {
      var n := |blocks| - 1;
      TextsAt(blocks[..n]);
      assert blocks == blocks[..n] + [blocks[n]];
      MatchesPush(Texts(blocks[..n]), blocks[n].text, blocks[..n], blocks[n], PickText, TextField);
    }
  }

  lemma OthersPush(blocks: seq<Block>, b: Block)
    ensures Others(blocks + [b]) == Others(blocks) + (if b.kind != "tool_result" then [b] else [])
    ensures UserParts(blocks + [b]) == UserParts(blocks) + PartsOf(b)
    ensures Texts(blocks + [b]) == Texts(blocks) + (if b.kind == "text" then [b.text] else [])
  {
    assert (blocks + [b])[..|blocks|] == blocks;
  }

  /** The tool results play no part in the user's own words. */
  lemma {:induction false} OthersSay(blocks: seq<Block>)
    ensures UserParts(Others(blocks)) == UserParts(blocks) && Texts(Others(blocks)) == Texts(blocks)
  {
    hide Others, UserParts, Texts;
    if blocks == [] {
      NoOthers();
    } else {
      var n := |blocks| - 1;
      var before, b := blocks[..n], blocks[n];
      OthersSay(before);
      assert blocks == before + [b];
      OthersPush(before, b);
      OthersPush(Others(before), b);
      if b.kind == "tool_result" {
        assert Others(before) + [] == Others(before) && PartsOf(b) == [];
        assert UserParts(before) + [] == UserParts(before) && Texts(before) + [] == Texts(before);
      }
    }
  }

  lemma NoOthers()
    ensures Others([]) == []
  {}

  lemma {:induction false} OthersIn(blocks: seq<Block>, x: Block)
    ensures x in Others(blocks) <==> x in blocks && x.kind != "tool_result"
  {
    hide Others;
    if blocks == [] {
      NoOthers();
    } else {
      var n := |blocks| - 1;
      OthersIn(blocks[..n], x);
      assert blocks == blocks[..n] + [blocks[n]];
      OthersPush(blocks[..n], blocks[n]);
    }
  }

  lemma ImageAmong(blocks: seq<Block>)
    ensures var others := Others(blocks);
      (exists i :: 0 <= i < |others| && IsImage(others[i]))
      <==> exists i :: 0 <= i < |blocks| && blocks[i].kind == "image" && blocks[i].source.Some?
  {
    hide Others;
    var others := Others(blocks);
    if i :| 0 <= i < |blocks| && blocks[i].kind == "image" && blocks[i].source.Some? {
      OthersIn(blocks, blocks[i]);
      var k :| 0 <= k < |others| && others[k] == blocks[i];
      assert IsImage(others[k]);
    }
    if k :| 0 <= k < |others| && IsImage(others[k]) {
      OthersIn(blocks, others[k]);
      var i :| 0 <= i < |blocks| && blocks[i] == others[k];
      assert blocks[i].kind == "image";
    }
  }

  lemma OwnAt(blocks: seq<Block>)
    ensures OwnRight(UserMessage(Others(blocks)), blocks)
  {
    hide Matches, Others, UserParts, Texts;
    OthersSay(blocks);
    PartsAt(blocks);
    TextsAt(blocks);
    ImageAmong(blocks);
  }

  lemma AssistantAt(blocks: seq<Block>)
    ensures AssistantRight(AssistantMessage(blocks), blocks)
  {
    hide Matches, Texts, TextParts, Uses;
    TextPartsAt(blocks);
    TextsAt(blocks);
    UsesAt(blocks);
  }

  lemma UserTurnAt(blocks: seq<Block>)
    ensures UserTurnRight(blocks, ToolMessages(Results(blocks)) + OwnWords(blocks))
  {
    hide UserMessage, OwnRight, ResultFields, Results, Others, ToolMessages;
    ResultsAt(blocks);
    OwnAt(blocks);
    NoneTools();
    var tools := ToolMessages(Results(blocks));
    assert |tools| == |Results(blocks)| by { ToolMessagesLength(Results(blocks)); }
    assert (tools + OwnWords(blocks))[..|tools|] == tools;
    assert tools + [] == tools;
  }

  lemma ToolMessagesLength(results: seq<Block>)
    ensures |ToolMessages(results)| == |results|
  {}

  lemma TurnAt(role: string, blocks: seq<Block>)
    ensures TurnRight(role, blocks, TurnOf(role, blocks))
  {
    hide UserTurnRight, AssistantRight, ToolMessages, OwnWords, AssistantMessage;
    UserTurnAt(blocks);
    AssistantAt(blocks);
  }

  /** Every field of every message of the output comes from the block it should come from. */
  lemma {:induction false} ConvertedRight(msgs: seq<Message>)
    requires Parsed(msgs)
    ensures Right(msgs, Converted(msgs))
  {
    hide TurnOf, TurnRight, Flatten, Right;
    if msgs == [] {
      RightNone();
    } else {
      var n := |msgs| - 1;
      ConvertedRight(msgs[..n]);
      TurnAt(msgs[n].role, msgs[n].blocks.value);
      RightPush(msgs[..n], msgs[n], Converted(msgs[..n]), TurnOf(msgs[n].role, msgs[n].blocks.value));
      assert msgs == msgs[..n] + [msgs[n]];
    }
  }

  lemma RightNone()
    ensures Right([], [])
  {
    var none: seq<seq<UpMessage>> := [];
    assert Flatten(none) == [];
  }

  lemma RightPush(msgs: seq<Message>, m: Message, out: seq<UpMessage>, piece: seq<UpMessage>)
    requires Right(msgs, out) && m.blocks.Some? && TurnRight(m.role, m.blocks.value, piece)
    ensures Right(msgs + [m], out + piece)
  {
    hide TurnRight, Flatten;
    var pieces: seq<seq<UpMessage>> :|
      && |pieces| == |msgs| && out == Flatten(pieces)
      && forall k :: 0 <= k < |msgs| ==> (
           msgs[k].blocks.Some? && TurnRight(msgs[k].role, msgs[k].blocks.value, pieces[k]));
    FlattenPush(pieces, piece);
    var longer := pieces + [piece];
    assert |longer| == |msgs + [m]| && out + piece == Flatten(longer);
  }

  // ---------- what the conversion keeps ----------

  function AllResults(msgs: seq<Message>): seq<Block>
    requires Parsed(msgs)
  {
    if msgs == [] then []
    else
      var n := |msgs| - 1;
      AllResults(msgs[..n]) + (if msgs[n].role == "user" then Results(msgs[n].blocks.value) else [])
  }

  function AllUses(msgs: seq<Message>): seq<ToolCall>
    requires Parsed(msgs)
  {
    if msgs == [] then []
    else
      var n := |msgs| - 1;
      AllUses(msgs[..n]) + (if msgs[n].role != "user" then Uses(msgs[n].blocks.value) else [])
  }

  function Tools(msgs: seq<UpMessage>): seq<UpMessage> {
    if msgs == [] then []
    else
      var n := |msgs| - 1;
      Tools(msgs[..n]) + (if msgs[n].role == "tool" then [msgs[n]] else [])
  }

  lemma {:induction false} ToolsAppend(xs: seq<UpMessage>, ys: seq<UpMessage>)
    ensures Tools(xs + ys) == Tools(xs) + Tools(ys)
    decreases |ys|
  {
    if ys == [] {
      assert xs + ys == xs;
    } else {
      assert (xs + ys)[..|xs + ys| - 1] == xs + ys[..|ys| - 1];
      ToolsAppend(xs, ys[..|ys| - 1]);
    }
  }

  lemma {:induction false} OnlyTools(results: seq<Block>)
    ensures Tools(ToolMessages(results)) == ToolMessages(results)
    ensures CallsIn(ToolMessages(results)) == []
  {
    if results != [] {
      var n := |results| - 1;
      OnlyTools(results[..n]);
      var before := ToolMessages(results[..n]);
      assert ToolMessages(results) == before + [ToolMessage(results[n])];
      assert ToolMessages(results)[..n] == before;
      CallsInAppend(before, [ToolMessage(results[n])]);
      assert CallsIn([ToolMessage(results[n])]) == [];
    }
  }

  lemma TurnTools(role: string, blocks: seq<Block>)
    ensures Tools(TurnOf(role, blocks)) == if role == "user" then ToolMessages(Results(blocks)) else []
    ensures CallsIn(TurnOf(role, blocks)) == if role == "user" then [] else Uses(blocks)
  {
    if role == "user" {
      OnlyTools(Results(blocks));
      ToolsAppend(ToolMessages(Results(blocks)), OwnWords(blocks));
      CallsInAppend(ToolMessages(Results(blocks)), OwnWords(blocks));
      NoTool(UserMessage(Others(blocks)));
    } else {
      NoTool(AssistantMessage(blocks));
    }
  }

  lemma NoTool(m: UpMessage)
    requires m.role != "tool"
    ensures Tools([m]) == [] && CallsIn([m]) == m.calls && CallsIn([]) == [] && Tools([]) == []
  {
    assert [m][..0] == [];
    assert Tools([m][..0]) == [];
    assert [m][1..] == [];
    assert m.calls + [] == m.calls;
  }

  /** Every tool result of a user turn and every tool use of another turn comes out once, in order. */
  lemma {:induction false} ToolsKept(msgs: seq<Message>)
    requires Parsed(msgs)
    ensures Tools(Converted(msgs)) == ToolMessages(AllResults(msgs))
    ensures CallsIn(Converted(msgs)) == AllUses(msgs)
  {
    hide TurnOf, Results, Uses, Tools, CallsIn, ToolMessages;
    if msgs == [] {
      NoTool(UpMessage("", Absent, [], [], ""));
      NoneTools();
    } else {
      var n := |msgs| - 1;
      var turn := TurnOf(msgs[n].role, msgs[n].blocks.value);
      ToolsKept(msgs[..n]);
      ToolMessagesAppend(AllResults(msgs[..n]), if msgs[n].role == "user" then Results(msgs[n].blocks.value) else []);
      NoneTools();
      TurnTools(msgs[n].role, msgs[n].blocks.value);
      ToolsAppend(Converted(msgs[..n]), turn);
      CallsInAppend(Converted(msgs[..n]), turn);
    }
  }

  lemma NoneTools()
    ensures ToolMessages([]) == []
  {}

  lemma ToolMessagesAppend(xs: seq<Block>, ys: seq<Block>)
    ensures ToolMessages(xs + ys) == ToolMessages(xs) + ToolMessages(ys)
  {}

  lemma {:induction false} ConvertedAppend(xs: seq<Message>, ys: seq<Message>)
    requires Parsed(xs + ys)
    ensures Parsed(xs) && Parsed(ys) && Converted(xs + ys) == Converted(xs) + Converted(ys)
    decreases |ys|
  {
    hide TurnOf, Converted;
    assert forall m :: m in xs || m in ys ==> m in xs + ys;
    if ys == [] {
      assert xs + ys == xs;
      NoneConverted();
    } else {
      var n := |ys| - 1;
      assert xs + ys == xs + ys[..n] + [ys[n]] && ys == ys[..n] + [ys[n]];
      assert Parsed(xs + ys[..n]);
      ConvertedAppend(xs, ys[..n]);
      ConvertedPush(xs + ys[..n], ys[n]);
      ConvertedPush(ys[..n], ys[n]);
    }
  }

  lemma NoneConverted()
    ensures Converted([]) == []
  {}

  lemma ConvertedPush(msgs: seq<Message>, m: Message)
    requires Parsed(msgs) && m.blocks.Some?
    ensures Parsed(msgs + [m]) && Converted(msgs + [m]) == Converted(msgs) + TurnOf(m.role, m.blocks.value)
  {
    hide TurnOf;
    assert (msgs + [m])[..|msgs|] == msgs;
  }

  lemma ConvertedOne(m: Message)
    requires m.blocks.Some?
    ensures Converted([m]) == TurnOf(m.role, m.blocks.value)
  {
    hide TurnOf;
    assert [m][..0] == [];
    assert Converted([m][..0]) == [];
    assert [] + TurnOf(m.role, m.blocks.value) == TurnOf(m.role, m.blocks.value);
  }

  lemma SplitAt(msgs: seq<Message>, k: nat)
    requires k < |msgs|
    ensures msgs[..k] + msgs[k..] == msgs && [msgs[k]] + msgs[k + 1..] == msgs[k..]
  {}

  lemma PartsParsed(msgs: seq<Message>, k: nat)
    requires Parsed(msgs) && k < |msgs|
    ensures msgs[k].blocks.Some? && Parsed(msgs[..k]) && Parsed(msgs[k..]) && Parsed(msgs[k + 1..])
  {
    assert msgs[k] in msgs;
  }

  /** The tool messages of a turn stand together, right after everything that came of the turns before it. */
  lemma ToolsFollow(msgs: seq<Message>, k: nat)
    requires Parsed(msgs) && k < |msgs| && msgs[k].role == "user"
    ensures msgs[k].blocks.Some? && Parsed(msgs[..k]) && Parsed(msgs[k + 1..])
    ensures var blocks := msgs[k].blocks.value;
      Converted(msgs)
        == Converted(msgs[..k]) + ((ToolMessages(Results(blocks)) + OwnWords(blocks)) + Converted(msgs[k + 1..]))
  {
    hide Converted, Results, OwnWords, ToolMessages, Parsed;
    SplitAt(msgs, k);
    PartsParsed(msgs, k);
    ConvertedAppend(msgs[..k], msgs[k..]);
    ConvertedAppend([msgs[k]], msgs[k + 1..]);
    ConvertedOne(msgs[k]);
  }
}
