/**
 * The Anthropic event stream (proxy.go:517-759): the emitter, the frame loop around
 * it, and what the emitted stream must look like.
 */
module AnthropicStream {
  import opened Basics
  import opened Chunks
  import opened Segments

  datatype Event =
    | MessageStart
    | BlockStart(index: nat, kind: Kind, id: string, name: string)
    | BlockDelta(index: nat, kind: Kind, part: string)
    | BlockStop(index: nat)
    | MessageDelta(stopReason: string)
    | MessageStop
    | Error(message: string)

  function MapStopReason(reason: string): string {
    if reason == "stop" then "end_turn"
    else if reason == "tool_calls" then "tool_use"
    else if reason == "length" then "max_tokens"
    else if reason == "content_filter" then "refusal"
    else if reason == "" then "end_turn"
    else reason
  }

  // ---------- the stream as a picture of the segments ----------

  function Deltas(index: nat, kind: Kind, parts: seq<string>): seq<Event> {
    seq(|parts|, i requires 0 <= i < |parts| => BlockDelta(index, kind, parts[i]))
  }

  function BlockEvents(index: nat, seg: Segment, open: bool): seq<Event> {
    [BlockStart(index, seg.kind, seg.id, seg.name)] + Deltas(index, seg.kind, seg.parts)
    + (if open then [] else [BlockStop(index)])
  }

  /** Blocks 0, 1, 2, ... one per segment; only the last can lack its stop. */
  function Blocks(segs: seq<Segment>, open: bool): seq<Event> {
    if segs == [] then []
    else
      var n := |segs| - 1;
      Blocks(segs[..n], false) + BlockEvents(n, segs[n], open)
  }

  function Rendered(started: bool, segs: seq<Segment>, open: bool): seq<Event> {
    if started then [MessageStart] + Blocks(segs, open) else []
  }

  lemma RenderedBegin(s: Scan, seg: Segment)
    requires !s.open && seg.parts == []
    ensures Rendered(true, s.segs + [seg], true)
         == Rendered(true, s.segs, false) + [BlockStart(|s.segs|, seg.kind, seg.id, seg.name)]
  {
    assert (s.segs + [seg])[..|s.segs|] == s.segs;
    assert BlockEvents(|s.segs|, seg, true) == [BlockStart(|s.segs|, seg.kind, seg.id, seg.name)];
  }

  lemma RenderedClose(s: Scan)
    requires s.open
    ensures Rendered(true, s.segs, false) == Rendered(true, s.segs, true) + [BlockStop(|s.segs| - 1)]
  {
    var n := |s.segs| - 1;
    var body := [BlockStart(n, s.segs[n].kind, s.segs[n].id, s.segs[n].name)]
                + Deltas(n, s.segs[n].kind, s.segs[n].parts);
    assert BlockEvents(n, s.segs[n], true) == body;
  }

  lemma RenderedExtend(s: Scan, part: string)
    requires s.open
    ensures Rendered(true, Extend(s, part).segs, true)
         == Rendered(true, s.segs, true) + [BlockDelta(|s.segs| - 1, Last(s).kind, part)]
  {
    var n := |s.segs| - 1;
    var t := Extend(s, part);
    assert t.segs[..n] == s.segs[..n];
    var seg := Last(s);
    assert Deltas(n, seg.kind, seg.parts + [part]) == Deltas(n, seg.kind, seg.parts) + [BlockDelta(n, seg.kind, part)];
    assert BlockEvents(n, t.segs[n], true) == BlockEvents(n, seg, true) + [BlockDelta(n, seg.kind, part)];
  }

  // ---------- the emitter ----------

  /** The stop reason kept is the mapped one, once there is one. */
  predicate ReasonMirrors(stopReason: string, reason: string) {
    stopReason == (if reason == "" then "" else MapStopReason(reason))
  }

  class StreamState {
    var blockType: Option<Kind>
    var blockIndex: nat
    var toolID: string
    var toolName: string
    var started: bool
    var stopped: bool
    var stopReason: string
    var sent: seq<Event>
    ghost var scan: Scan   // the segments the fields stand for

    /** The fields mirror the scan, and until the stream stops so does the output. */
    ghost predicate Mirrors()
      reads this
    {
      && blockType == (if scan.open then Some(Last(scan).kind) else None)
      && |scan.segs| == (if scan.open then blockIndex + 1 else blockIndex)
      && toolID == scan.id && toolName == scan.name
      && ReasonMirrors(stopReason, scan.reason)
      && (scan.segs != [] ==> started)
      && (!stopped ==> sent == Rendered(started, scan.segs, scan.open))
    }

    ghost predicate Valid()
      reads this
    {
      Mirrors() && (started ==> scan.segs != [])
    }

    constructor ()
      ensures Valid() && !stopped && scan == EMPTY && sent == []
    {
      blockType, blockIndex, toolID, toolName := None, 0, "", "";
      started, stopped, stopReason, sent := false, false, "", [];
      scan := EMPTY;
    }

    method Emit(e: Event)
      modifies this`sent
      ensures sent == if stopped then old(sent) else old(sent) + [e]
    {
      if stopped { return; }
      sent := sent + [e];
    }

    method StartMessage()
      requires Mirrors()
      modifies this`started, this`sent
      ensures Mirrors() && started
      ensures stopped ==> sent == old(sent)
    {
      if started { return; }
      started := true;
      Emit(MessageStart);
    }

    method CloseBlock()
      requires Mirrors()
      modifies this`blockType, this`blockIndex, this`sent, this`scan
      ensures Mirrors() && scan == old(scan).(open := false)
      ensures stopped ==> sent == old(sent)
    {
      if blockType.None? { return; }
      hide Rendered, ReasonMirrors;
      RenderedClose(scan);
      Emit(BlockStop(blockIndex));
      blockType := None;
      blockIndex := blockIndex + 1;
      scan := scan.(open := false);
    }

    method StartBlock(kind: Kind, id: string, name: string)
      requires Mirrors()
      modifies this`started, this`blockType, this`blockIndex, this`sent, this`scan
      ensures Valid() && scan == Begin(old(scan), Segment(kind, id, name, []))
      ensures stopped ==> sent == old(sent)
    {
      hide Rendered, ReasonMirrors;
      StartMessage();
      CloseBlock();
      ghost var seg := Segment(kind, id, name, []);
      RenderedBegin(scan, seg);
      blockType := Some(kind);
      Emit(BlockStart(blockIndex, kind, id, name));
      scan := Begin(scan, seg);
    }

    method OpenBlock(kind: Kind)
      requires Valid()
      modifies this`started, this`blockType, this`blockIndex, this`sent, this`scan
      ensures Valid()
      ensures scan == if InKind(old(scan), kind) then old(scan) else Begin(old(scan), Segment(kind, "", "", []))
      ensures stopped ==> sent == old(sent)
    {
      StartMessage();
      if blockType == Some(kind) { return; }
      StartBlock(kind, "", "");
    }

    method Delta(kind: Kind, part: string)
      requires Valid() && InKind(scan, kind)
      modifies this`sent, this`scan
      ensures Valid() && scan == Extend(old(scan), part)
      ensures stopped ==> sent == old(sent)
    {
      hide Rendered, ReasonMirrors;
      RenderedExtend(scan, part);
      Emit(BlockDelta(blockIndex, kind, part));
      scan := Extend(scan, part);
    }

    method Prose(kind: Kind, part: string)
      requires Valid()
      modifies this`started, this`blockType, this`blockIndex, this`sent, this`scan
      ensures Valid() && scan == Continue(old(scan), kind, part)
      ensures stopped ==> sent == old(sent)
    {
      hide Rendered, ReasonMirrors;
      OpenBlock(kind);
      Delta(kind, part);
    }

    method OpenTool(id: string, name: string)
      requires Valid()
      modifies this`started, this`blockType, this`blockIndex, this`toolID, this`toolName, this`sent, this`scan
      ensures Valid() && scan == OpenCall(old(scan), id, name)
      ensures stopped ==> sent == old(sent)
    {
      hide Rendered, ReasonMirrors;
      if id != "" {
        toolID := id;
      }
      if name != "" {
        toolName := name;
      }
      scan := scan.(id := toolID, name := toolName);
      StartBlock(ToolUse, toolID, toolName);
    }

    method FeedTool(args: string)
      requires Valid()
      modifies this`started, this`blockType, this`blockIndex, this`toolID, this`toolName, this`sent, this`scan
      ensures Valid() && scan == FeedCall(old(scan), args)
      ensures stopped ==> sent == old(sent)
    {
      hide Rendered, ReasonMirrors;
      if args != "" {
        if blockType != Some(ToolUse) {
          StartBlock(ToolUse, toolID, toolName);
        }
        Delta(ToolUse, args);
      }
    }

    method ToolCall(tc: ToolDelta)
      requires Valid()
      modifies this`started, this`blockType, this`blockIndex, this`toolID, this`toolName, this`sent, this`scan
      ensures Valid() && scan == AnthropicTool(old(scan), tc.id, tc.name, tc.args)
      ensures stopped ==> sent == old(sent)
    {
      hide Rendered, ReasonMirrors, OpenCall, FeedCall;
      if tc.id != "" || (tc.name != "" && blockType != Some(ToolUse)) {
        OpenTool(tc.id, tc.name);
      }
      FeedTool(tc.args);
    }

    method ToolCalls(tools: seq<ToolDelta>)
      requires Valid()
      modifies this`started, this`blockType, this`blockIndex, this`toolID, this`toolName, this`sent, this`scan
      ensures Valid() && scan == Fold(AnthropicStep, old(scan), ToolAtoms(tools))
      ensures stopped ==> sent == old(sent)
    {
      hide Rendered, ReasonMirrors, AnthropicTool;
      var i := 0;
      while i < |tools|
        invariant 0 <= i <= |tools|
        invariant Valid()
        invariant scan == Fold(AnthropicStep, old(scan), ToolAtoms(tools[..i]))
        invariant stopped ==> sent == old(sent)
      {
        var tc := tools[i];
        ToolCall(tc);
        FoldPush(AnthropicStep, old(scan), ToolAtoms(tools[..i]), Tool(tc.id, tc.name, tc.args));
        ToolAtomsPush(tools, i);
        i := i + 1;
      }
      assert tools[..i] == tools;
    }

    method Reasoned(reason: string)
      requires Valid() && reason != ""
      modifies this`stopReason, this`blockType, this`blockIndex, this`sent, this`scan
      ensures Valid() && scan == AnthropicStep(old(scan), Finish(reason))
      ensures stopped ==> sent == old(sent)
    {
      hide Rendered, MapStopReason;
      stopReason := MapStopReason(reason);
      scan := scan.(reason := reason);
      CloseBlock();
    }

    /** A chunk does to the stream what its atoms, taken in order, do to the segments. */
    method HandleChunk(c: Chunk)
      requires Valid()
      modifies this
      ensures Valid() && stopped == old(stopped)
      ensures scan == Fold(AnthropicStep, old(scan), Atoms(c))
      ensures stopped ==> sent == old(sent)
    {
      hide Rendered, ReasonMirrors, AnthropicTool, Continue, Fold, Atoms;
      FoldThrough(AnthropicStep, scan, c);
      if |c.choices| == 0 { return; }
      var ch := c.choices[0];
      if ch.reasoning != "" {
        Prose(Thinking, ch.reasoning);
      }
      if ch.content != "" {
        Prose(Text, ch.content);
      }
      ToolCalls(ch.tools);
      if Ends(ch) {
        Reasoned(ch.finish.value);
      }
    }

    method End()
      requires Valid() && !stopped
      modifies this
      ensures stopped && sent == Rendered(started, old(scan).segs, false) + Closing(old(scan).reason)
      ensures started == old(started)
    {
      hide Rendered;
      if stopped { return; }
      CloseBlock();
      NoReason();
      ghost var reason := scan.reason;
      hide MapStopReason;
      if stopReason == "" {
        stopReason := "end_turn";
      }
      assert stopReason == MapStopReason(reason);
      Emit(MessageDelta(stopReason));
      Emit(MessageStop);
      stopped := true;
    }
  }

  lemma NoReason()
    ensures MapStopReason("") == "end_turn"
    ensures forall reason :: reason != "" ==> MapStopReason(reason) != ""
  {}

  function Closing(reason: string): seq<Event> {
    [MessageDelta(MapStopReason(reason)), MessageStop]
  }

  // ---------- the whole stream ----------

  function AnthropicScan(chunks: seq<Chunk>): Scan {
    Fold(AnthropicStep, EMPTY, AllAtoms(chunks))
  }

  function Ended(s: Scan): seq<Event> {
    Rendered(s.segs != [], s.segs, false) + Closing(s.reason)
  }

  /** The events sent for what was read. */
  function Answer(o: Outcome): seq<Event> {
    var s := AnthropicScan(o.chunks);
    match o.ending
    case Finished => Ended(s)
    case Errored(m) => Rendered(s.segs != [], s.segs, s.open) + [Error(m)]
    case Exhausted => if s.segs == [] then [] else Ended(s)
  }

  /** The frame callback, applied frame by frame until it says stop. */
  method Serve(frames: seq<Frame>) returns (sent: seq<Event>)
    ensures sent == Answer(Read(frames))
  {
    hide Read, Rendered, Fold, AllAtoms, Atoms, AnthropicStep, MapStopReason;
    var st := new StreamState();
    ghost var taken: seq<Chunk> := [];
    assert AllAtoms([]) == [] && Fold(AnthropicStep, EMPTY, []) == EMPTY by { Nothing(); }
    assert frames[0..] == frames;
    var i := 0;
    var failed := false;
    while i < |frames|
      invariant 0 <= i <= |frames|
      invariant st.Valid() && !st.stopped && fresh(st)
      invariant st.scan == AnthropicScan(taken)
      invariant Prepend(taken, Read(frames[i..])) == Read(frames)
    {
      var f := frames[i];
      if f.event == "finish" {
        ReadFinish(frames, i);
        assert taken + [] == taken;
        st.End();
        return st.sent;
      }
      ReadStep(taken, frames, i);
      match f.payload {
        case Blank =>
        case Unparsed =>
        case Hollow =>
        case Refused(m) =>
          st.Emit(Error(m));
          return st.sent;
        case Faulted(m) =>
          st.Emit(Error(m));
          return st.sent;
        case Carried(c) =>
          FoldAppend(AnthropicStep, EMPTY, AllAtoms(taken), Atoms(c));
          AllAtomsPush(taken, c);
          st.HandleChunk(c);
          taken := taken + [c];
      }
      i := i + 1;
    }
    assert frames[i..] == [] && taken + [] == taken;
    ReadNothing();
    if st.started {
      st.End();
    }
    sent := st.sent;
  }

  lemma Nothing()
    ensures AllAtoms([]) == [] && Fold(AnthropicStep, EMPTY, []) == EMPTY
  {}
}
