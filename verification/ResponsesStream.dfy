/**
 * The Responses event stream (responses.go:276-515, 604-638) and the reader that
 * feeds it (openai.go:100-160).
 */
module ResponsesStream {
  import opened Basics
  import opened Chunks
  import opened Segments

  /** An output item; while in progress its text is empty. */
  datatype Item = Item(kind: Kind, itemId: string, callId: string, name: string, text: string)

  datatype Body =
    | Created
    | InProgress
    | ItemAdded(outputIndex: nat, item: Item)
    | PartAdded(itemId: string, outputIndex: nat)
    | TextDelta(kind: Kind, itemId: string, outputIndex: nat, part: string)
    | TextDone(kind: Kind, itemId: string, outputIndex: nat, text: string)
    | PartDone(itemId: string, outputIndex: nat, text: string)
    | ItemDone(outputIndex: nat, item: Item)
    | Completed(status: string, output: seq<Item>)
    | Failed(message: string)

  datatype Event = Event(sequenceNumber: nat, body: Body)

  // ---------- the stream as a picture of the segments ----------

  function Prefix(kind: Kind): string {
    match kind
    case Thinking => "rs_"
    case Text => "msg_"
    case ToolUse => "fc_"
  }

  /** The k-th item takes the k-th fresh id. */
  function ItemOf(ids: nat -> string, k: nat, seg: Segment, text: string): Item {
    Item(seg.kind, Prefix(seg.kind) + ids(k), seg.id, seg.name, text)
  }

  function DoneItems(ids: nat -> string, segs: seq<Segment>): seq<Item> {
    seq(|segs|, k requires 0 <= k < |segs| => ItemOf(ids, k, segs[k], Concat(segs[k].parts)))
  }

  function Opening(ids: nat -> string, k: nat, seg: Segment): seq<Body> {
    var item := ItemOf(ids, k, seg, "");
    if seg.kind == ToolUse then [ItemAdded(k, item)] else [ItemAdded(k, item), PartAdded(item.itemId, k)]
  }

  function Deltas(ids: nat -> string, k: nat, seg: Segment): seq<Body> {
    seq(|seg.parts|, i requires 0 <= i < |seg.parts| =>
      TextDelta(seg.kind, Prefix(seg.kind) + ids(k), k, seg.parts[i]))
  }

  function Closing(ids: nat -> string, k: nat, seg: Segment): seq<Body> {
    var item := ItemOf(ids, k, seg, Concat(seg.parts));
    if seg.kind == ToolUse then [TextDone(ToolUse, item.itemId, k, item.text), ItemDone(k, item)]
    else [TextDone(seg.kind, item.itemId, k, item.text), PartDone(item.itemId, k, item.text), ItemDone(k, item)]
  }

  function ItemBodies(ids: nat -> string, k: nat, seg: Segment, open: bool): seq<Body> {
    Opening(ids, k, seg) + Deltas(ids, k, seg) + (if open then [] else Closing(ids, k, seg))
  }

  function Rendered(ids: nat -> string, segs: seq<Segment>, open: bool): seq<Body> {
    if segs == [] then [Created, InProgress]
    else
      var n := |segs| - 1;
      Rendered(ids, segs[..n], false) + ItemBodies(ids, n, segs[n], open)
  }

  function Numbered(bodies: seq<Body>): seq<Event> {
    seq(|bodies|, i requires 0 <= i < |bodies| => Event(i + 1, bodies[i]))
  }

  lemma RenderedBegin(ids: nat -> string, s: Scan, seg: Segment)
    requires !s.open && seg.parts == []
    ensures Rendered(ids, s.segs + [seg], true) == Rendered(ids, s.segs, false) + Opening(ids, |s.segs|, seg)
  {
    assert (s.segs + [seg])[..|s.segs|] == s.segs;
    assert ItemBodies(ids, |s.segs|, seg, true) == Opening(ids, |s.segs|, seg);
  }

  lemma RenderedClose(ids: nat -> string, s: Scan)
    requires s.open
    ensures Rendered(ids, s.segs, false) == Rendered(ids, s.segs, true) + Closing(ids, |s.segs| - 1, Last(s))
    ensures DoneItems(ids, s.segs)
         == DoneItems(ids, s.segs[..|s.segs| - 1]) + [ItemOf(ids, |s.segs| - 1, Last(s), Concat(Last(s).parts))]
  {
    var n := |s.segs| - 1;
    var seg := Last(s);
    assert ItemBodies(ids, n, seg, true) == Opening(ids, n, seg) + Deltas(ids, n, seg);
    assert Rendered(ids, s.segs, false)
        == Rendered(ids, s.segs[..n], false) + (Opening(ids, n, seg) + Deltas(ids, n, seg) + Closing(ids, n, seg));
  }

  lemma ItemExtend(ids: nat -> string, k: nat, seg: Segment, part: string)
    ensures ItemBodies(ids, k, seg.(parts := seg.parts + [part]), true)
         == ItemBodies(ids, k, seg, true) + [TextDelta(seg.kind, Prefix(seg.kind) + ids(k), k, part)]
  {
    hide Prefix;
    var longer := seg.(parts := seg.parts + [part]);
    assert Deltas(ids, k, longer) == Deltas(ids, k, seg) + [TextDelta(seg.kind, Prefix(seg.kind) + ids(k), k, part)];
    assert Opening(ids, k, longer) == Opening(ids, k, seg);
  }

  lemma RenderedExtend(ids: nat -> string, s: Scan, part: string)
    requires s.open
    ensures Rendered(ids, Extend(s, part).segs, true)
         == Rendered(ids, s.segs, true)
            + [TextDelta(Last(s).kind, Prefix(Last(s).kind) + ids(|s.segs| - 1), |s.segs| - 1, part)]
    ensures Concat(Last(Extend(s, part)).parts) == Concat(Last(s).parts) + part
  {
    hide ItemBodies, Prefix;
    var n := |s.segs| - 1;
    ItemExtend(ids, n, Last(s), part);
    ConcatPush(Last(s).parts, part);
    assert Extend(s, part).segs[..n] == s.segs[..n];
  }

  // ---------- the emitter ----------

  class RespStreamState {
    const ids: nat -> string   // what newUUIDShort answers, call by call
    var draws: nat
    var number: nat
    var outIndex: nat
    var curKind: Option<Kind>
    var curItemID: string
    var fcCallID: string
    var fcName: string
    var textBuf: string
    var reasonBuf: string
    var argsBuf: string
    var items: seq<Item>
    var stopReason: string
    var sent: seq<Event>
    ghost var bodies: seq<Body>
    ghost var scan: Scan

    /** The events sent so far carry the numbers 1, 2, 3, ... */
    ghost predicate Counted()
      reads this`number, this`sent, this`bodies
    {
      number == |bodies| && sent == Numbered(bodies)
    }

    ghost function Buffer(kind: Kind): string
      reads this`reasonBuf, this`textBuf, this`argsBuf
    {
      match kind
      case Thinking => reasonBuf
      case Text => textBuf
      case ToolUse => argsBuf
    }

    /** The open item is the last segment. */
    ghost predicate ItemMirrors(seg: Segment, k: nat)
      reads this
    {
      && curItemID == Prefix(seg.kind) + ids(k)
      && Buffer(seg.kind) == Concat(seg.parts)
      && seg.id == (if seg.kind == ToolUse then fcCallID else "")
      && seg.name == (if seg.kind == ToolUse then fcName else "")
    }

    ghost predicate Valid()
      reads this
    {
      && Counted()
      && draws == |scan.segs|
      && curKind == (if scan.open then Some(Last(scan).kind) else None)
      && |scan.segs| == (if scan.open then outIndex + 1 else outIndex)
      && (scan.open ==> ItemMirrors(Last(scan), outIndex))
      && fcCallID == scan.id && fcName == scan.name && stopReason == scan.reason
      && items == DoneItems(ids, scan.segs[..outIndex])
      && bodies == Rendered(ids, scan.segs, scan.open)
    }

    /** The first two events of a stream are sent on construction. */
    constructor (ids: nat -> string)
      ensures Valid() && scan == EMPTY && this.ids == ids
    {
      this.ids := ids;
      draws, outIndex, curKind := 0, 0, None;
      curItemID, fcCallID, fcName := "", "", "";
      textBuf, reasonBuf, argsBuf, items, stopReason := "", "", "", [], "";
      number := 2;
      sent := [Event(1, Created), Event(2, InProgress)];
      bodies := [Created, InProgress];
      scan := EMPTY;
    }

    method Emit(body: Body)
      requires Counted()
      modifies this`number, this`sent, this`bodies
      ensures Counted() && bodies == old(bodies) + [body]
    {
      number := number + 1;
      sent := sent + [Event(number, body)];
      bodies := bodies + [body];
    }

    method CloseReasoning()
      requires Counted()
      modifies this`number, this`sent, this`bodies, this`items
      ensures Counted() && items == old(items) + [Item(Thinking, curItemID, "", "", reasonBuf)]
      ensures bodies == old(bodies) + [
        TextDone(Thinking, curItemID, outIndex, reasonBuf),
        PartDone(curItemID, outIndex, reasonBuf),
        ItemDone(outIndex, Item(Thinking, curItemID, "", "", reasonBuf))]
    {
      hide Numbered;
      var full := reasonBuf;
      var item := Item(Thinking, curItemID, "", "", full);
      Emit(TextDone(Thinking, curItemID, outIndex, full));
      Emit(PartDone(curItemID, outIndex, full));
      Emit(ItemDone(outIndex, item));
      items := items + [item];
    }

    method CloseMessage()
      requires Counted()
      modifies this`number, this`sent, this`bodies, this`items
      ensures Counted() && items == old(items) + [Item(Text, curItemID, "", "", textBuf)]
      ensures bodies == old(bodies) + [
        TextDone(Text, curItemID, outIndex, textBuf),
        PartDone(curItemID, outIndex, textBuf),
        ItemDone(outIndex, Item(Text, curItemID, "", "", textBuf))]
    {
      hide Numbered;
      var full := textBuf;
      var item := Item(Text, curItemID, "", "", full);
      Emit(TextDone(Text, curItemID, outIndex, full));
      Emit(PartDone(curItemID, outIndex, full));
      Emit(ItemDone(outIndex, item));
      items := items + [item];
    }

    method CloseFunctionCall()
      requires Counted()
      modifies this`number, this`sent, this`bodies, this`items
      ensures Counted() && items == old(items) + [Item(ToolUse, curItemID, fcCallID, fcName, argsBuf)]
      ensures bodies == old(bodies) + [
        TextDone(ToolUse, curItemID, outIndex, argsBuf),
        ItemDone(outIndex, Item(ToolUse, curItemID, fcCallID, fcName, argsBuf))]
    {
      hide Numbered;
      var full := argsBuf;
      var item := Item(ToolUse, curItemID, fcCallID, fcName, full);
      Emit(TextDone(ToolUse, curItemID, outIndex, full));
      Emit(ItemDone(outIndex, item));
      items := items + [item];
    }

    /** The three ways to close, by the kind of the open item. */
    method CloseKind(kind: Kind, ghost seg: Segment)
      requires Counted() && ItemMirrors(seg, outIndex) && kind == seg.kind
      modifies this`number, this`sent, this`bodies, this`items
      ensures Counted() && items == old(items) + [ItemOf(ids, outIndex, seg, Concat(seg.parts))]
      ensures bodies == old(bodies) + Closing(ids, outIndex, seg)
    {
      hide Prefix, Concat, Counted;
      match kind {
        case Thinking => CloseReasoning();
        case Text => CloseMessage();
        case ToolUse => CloseFunctionCall();
      }
    }

    method CloseItem()
      requires Valid()
      modifies this`number, this`sent, this`bodies, this`items, this`outIndex, this`curKind, this`scan
      ensures Valid() && scan == old(scan).(open := false)
    {
      hide Rendered, Concat, Prefix, Counted, DoneItems, ItemOf, Closing;
      if curKind.None? { return; }
      RenderedClose(ids, scan);
      assert scan.segs[..outIndex] == scan.segs[..|scan.segs| - 1];
      CloseKind(curKind.value, Last(scan));
      assert scan.segs[..outIndex + 1] == scan.segs;
      outIndex := outIndex + 1;
      curKind := None;
      scan := scan.(open := false);
    }

    method Announce(kind: Kind, callID: string, name: string)
      requires Counted() && curItemID == Prefix(kind) + ids(outIndex)
      modifies this`number, this`sent, this`bodies
      ensures Counted() && bodies == old(bodies) + Opening(ids, outIndex, Segment(kind, callID, name, []))
    {
      hide Prefix, Numbered;
      Emit(ItemAdded(outIndex, Item(kind, curItemID, callID, name, "")));
      if kind != ToolUse {
        Emit(PartAdded(curItemID, outIndex));
      }
    }

    method ResetBuffer(kind: Kind)
      modifies this`textBuf, this`reasonBuf, this`argsBuf
      ensures Buffer(kind) == ""
    {
      match kind {
        case Thinking => reasonBuf := "";
        case Text => textBuf := "";
        case ToolUse => argsBuf := "";
      }
    }

    /** The common part of the three openers. */
    method AddItem(kind: Kind, callID: string, name: string)
      requires Valid() && !scan.open
      requires callID == (if kind == ToolUse then fcCallID else "")
      requires name == (if kind == ToolUse then fcName else "")
      modifies this
      ensures Valid()
      ensures scan == Begin(old(scan), Segment(kind, callID, name, []))
    {
      hide Rendered, Prefix, Counted, DoneItems, Opening, Buffer;
      ghost var seg := Segment(kind, callID, name, []);
      ghost var closed := scan.segs;
      RenderedBegin(ids, scan, seg);
      curKind := Some(kind);
      curItemID := Prefix(kind) + ids(draws);
      draws := draws + 1;
      ResetBuffer(kind);
      Announce(kind, callID, name);
      scan := Begin(scan, seg);
      assert closed[..outIndex] == closed == scan.segs[..outIndex];
    }

    method OpenReasoning()
      requires Valid()
      modifies this
      ensures Valid()
      ensures scan == if InKind(old(scan), Thinking) then old(scan) else Begin(old(scan), Segment(Thinking, "", "", []))
    {
      hide Rendered, Prefix, Numbered, DoneItems;
      if curKind == Some(Thinking) { return; }
      CloseItem();
      AddItem(Thinking, "", "");
    }

    method OpenMessage()
      requires Valid()
      modifies this
      ensures Valid()
      ensures scan == if InKind(old(scan), Text) then old(scan) else Begin(old(scan), Segment(Text, "", "", []))
    {
      hide Rendered, Prefix, Numbered, DoneItems;
      if curKind == Some(Text) { return; }
      CloseItem();
      AddItem(Text, "", "");
    }

    method OpenFunctionCall(callID: string, name: string)
      requires Valid()
      modifies this
      ensures Valid()
      ensures scan == Begin(old(scan).(id := callID, name := name), Segment(ToolUse, callID, name, []))
    {
      hide Rendered, Prefix, Numbered, DoneItems;
      CloseItem();
      fcCallID, fcName := callID, name;
      scan := scan.(id := callID, name := name);
      AddItem(ToolUse, callID, name);
    }

    /** Each delta also goes to the buffer of its kind. */
    method Delta(kind: Kind, part: string)
      requires Valid() && InKind(scan, kind)
      modifies this`textBuf, this`reasonBuf, this`argsBuf, this`number, this`sent, this`bodies, this`scan
      ensures Valid() && scan == Extend(old(scan), part)
    {
      hide Rendered, Concat, Prefix, Counted, DoneItems;
      RenderedExtend(ids, scan, part);
      match kind {
        case Thinking => reasonBuf := reasonBuf + part;
        case Text => textBuf := textBuf + part;
        case ToolUse => argsBuf := argsBuf + part;
      }
      Emit(TextDelta(kind, curItemID, outIndex, part));
      scan := Extend(scan, part);
    }

    method Reasoning(part: string)
      requires Valid()
      modifies this
      ensures Valid() && scan == Continue(old(scan), Thinking, part)
    {
      hide Rendered, Concat, Prefix, Numbered, DoneItems;
      OpenReasoning();
      Delta(Thinking, part);
    }

    method Message(part: string)
      requires Valid()
      modifies this
      ensures Valid() && scan == Continue(old(scan), Text, part)
    {
      hide Rendered, Concat, Prefix, Numbered, DoneItems;
      OpenMessage();
      Delta(Text, part);
    }

    method Arguments(args: string)
      requires Valid()
      modifies this
      ensures Valid() && scan == FeedCall(old(scan), args)
    {
      hide Rendered, Concat, Prefix, Numbered, DoneItems;
      if args != "" {
        if curKind != Some(ToolUse) {
          OpenFunctionCall(fcCallID, fcName);
        }
        Delta(ToolUse, args);
      }
    }

    method ToolCall(tc: ToolDelta)
      requires Valid()
      modifies this
      ensures Valid() && scan == ResponsesTool(old(scan), tc.id, tc.name, tc.args)
    {
      hide Rendered, Concat, Prefix, Numbered, DoneItems, FeedCall;
      if tc.id != "" || tc.name != "" {
        var id, name := tc.id, tc.name;
        if id == "" {
          id := fcCallID;
        }
        if name == "" {
          name := fcName;
        }
        OpenFunctionCall(id, name);
      }
      Arguments(tc.args);
    }

    method ToolCalls(tools: seq<ToolDelta>)
      requires Valid()
      modifies this
      ensures Valid() && scan == Fold(ResponsesStep, old(scan), ToolAtoms(tools))
    {
      hide Rendered, Concat, Prefix, Numbered, DoneItems, ResponsesTool;
      var i := 0;
      while i < |tools|
        invariant 0 <= i <= |tools|
        invariant Valid()
        invariant scan == Fold(ResponsesStep, old(scan), ToolAtoms(tools[..i]))
      {
        var tc := tools[i];
        ToolCall(tc);
        FoldPush(ResponsesStep, old(scan), ToolAtoms(tools[..i]), Tool(tc.id, tc.name, tc.args));
        ToolAtomsPush(tools, i);
        i := i + 1;
      }
      assert tools[..i] == tools;
    }

    method Reasoned(reason: string)
      requires Valid()
      modifies this`stopReason, this`scan
      ensures Valid() && scan == ResponsesStep(old(scan), Finish(reason))
    {
      hide Rendered, Prefix, Counted, DoneItems, Buffer;
      stopReason := reason;
      scan := scan.(reason := reason);
    }

    /** A chunk does to the stream what its atoms, taken in order, do to the segments. */
    method HandleChunk(c: Chunk)
      requires Valid()
      modifies this
      ensures Valid()
      ensures scan == Fold(ResponsesStep, old(scan), Atoms(c))
    {
      hide Rendered, Concat, Prefix, Numbered, DoneItems, ResponsesTool, Continue, Fold, Atoms;
      FoldThrough(ResponsesStep, scan, c);
      if |c.choices| == 0 { return; }
      var ch := c.choices[0];
      if ch.reasoning != "" {
        Reasoning(ch.reasoning);
      }
      if ch.content != "" {
        Message(ch.content);
      }
      ToolCalls(ch.tools);
      if Ends(ch) {
        Reasoned(ch.finish.value);
      }
    }

    method Complete()
      requires Valid()
      modifies this
      ensures Counted() && bodies == Rendered(ids, old(scan).segs, false)
                + [Completed(Status(old(scan).reason), DoneItems(ids, old(scan).segs))]
    {
      hide Rendered, Concat, Prefix, Numbered, DoneItems;
      CloseItem();
      assert scan.segs[..outIndex] == scan.segs;
      Emit(Completed(Status(stopReason), items));
    }

    method Fail(msg: string)
      requires Valid()
      modifies this
      ensures Counted() && bodies == Rendered(ids, old(scan).segs, old(scan).open) + [Failed(msg)]
    {
      Emit(Failed(msg));
    }
  }

  function Status(reason: string): string { if reason == "length" then "incomplete" else "completed" }

  // ---------- the whole stream ----------

  function ResponsesScan(chunks: seq<Chunk>): Scan {
    Fold(ResponsesStep, EMPTY, AllAtoms(chunks))
  }

  /** What is sent for the chunks and the error left behind by the reader. */
  function Answer(ids: nat -> string, chunks: seq<Chunk>, failed: string): seq<Event> {
    var s := ResponsesScan(chunks);
    Numbered(
      if failed != "" then Rendered(ids, s.segs, s.open) + [Failed(failed)]
      else Rendered(ids, s.segs, false) + [Completed(Status(s.reason), DoneItems(ids, s.segs))])
  }

  method StreamResponses(ids: nat -> string, chunks: seq<Chunk>, failed: string) returns (sent: seq<Event>)
    ensures sent == Answer(ids, chunks, failed)
  {
    hide Rendered, Concat, Prefix, Numbered, DoneItems, ResponsesStep, Atoms, Status;
    var st := new RespStreamState(ids);
    var i := 0;
    while i < |chunks|
      invariant 0 <= i <= |chunks|
      invariant st.Valid() && st.ids == ids && fresh(st)
      invariant st.scan == ResponsesScan(chunks[..i])
    {
      FoldAppend(ResponsesStep, EMPTY, AllAtoms(chunks[..i]), Atoms(chunks[i]));
      assert chunks[..i + 1][..i] == chunks[..i];
      st.HandleChunk(chunks[i]);
      i := i + 1;
    }
    assert chunks[..i] == chunks;
    if failed != "" {
      st.Fail(failed);
      return st.sent;
    }
    st.Complete();
    sent := st.sent;
  }
}
