/**
 * The three aggregating readers: collectAnthropic (proxy.go:763-930), collectOAI with
 * its tool index counter (openai.go:162-181, 408-490) and collectResponses
 * (responses.go:640-760).  Each loop is proved against a fold over the atoms.
 */
module Collectors {
  import opened Basics
  import opened Chunks
  import opened Segments
  import opened AnthropicStream

  /** What an aggregated answer holds. */
  datatype Collected = Collected(reasoning: string, text: string, calls: seq<Call>, reason: string)

  const NOTHING := Collected("", "", [], "")

  function Grow(calls: seq<Call>, args: string): seq<Call> {
    if args == "" || calls == [] then calls
    else
      var n := |calls| - 1;
      calls[..n] + [calls[n].(args := calls[n].args + args)]
  }

  /** An id or a name begins a call, arguments go to the last call and are dropped if there is none. */
  function CollectCall(calls: seq<Call>, id: string, name: string, args: string): seq<Call> {
    Grow(if id != "" || name != "" then calls + [Call(id, name, "")] else calls, args)
  }

  function CollectStep(c: Collected, x: Atom): Collected {
    match x
    case Reason(t) => c.(reasoning := c.reasoning + t)
    case Say(t) => c.(text := c.text + t)
    case Tool(id, name, args) => c.(calls := CollectCall(c.calls, id, name, args))
    case Finish(r) => c.(reason := r)
    case Elsewhere(_) => c
  }

  function Collect(chunks: seq<Chunk>): Collected {
    Fold(CollectStep, NOTHING, AllAtoms(chunks))
  }

  function Or(reason: string, default: string): string { if reason == "" then default else reason }

  function Failure(e: Ending): string { if e.Errored? then e.message else "" }

  /** The error the reader leaves for the consumers of the channel, "" if none. */
  function Failed(o: Outcome, readError: string): string {
    if o.ending.Exhausted? then readError else Failure(o.ending)
  }

  // ---------- collectAnthropic ----------

  /** Tool input has to be JSON: anything else becomes an empty object. */
  function DeliveredArgs(valid: string -> bool, args: string): string {
    if args != "" && valid(args) then args else "{}"
  }

  function Delivered(valid: string -> bool, calls: seq<Call>): seq<Call> {
    seq(|calls|, i requires 0 <= i < |calls| => calls[i].(args := DeliveredArgs(valid, calls[i].args)))
  }

  /** The answer to a non-streaming request: what was collected, with the tool input delivered, or an error. */
  function AnthropicAnswer(valid: string -> bool, o: Outcome): Result<Collected, string> {
    if Failure(o.ending) != "" then Err(Failure(o.ending))
    else
      var c := Collect(o.chunks);
      Ok(c.(calls := Delivered(valid, c.calls), reason := MapStopReason(c.reason)))
  }

  method DeliverTools(valid: string -> bool, tools: seq<Call>) returns (content: seq<Call>)
    ensures content == Delivered(valid, tools)
  {
    content := [];
    var i := 0;
    while i < |tools|
      invariant 0 <= i <= |tools|
      invariant content == Delivered(valid, tools[..i])
    {
      var input := "{}";
      if tools[i].args != "" && valid(tools[i].args) {
        input := tools[i].args;
      }
      content := content + [Call(tools[i].id, tools[i].name, input)];
      i := i + 1;
    }
    assert tools[..i] == tools;
  }

  function Flushed(calls: seq<Call>, cur: Option<Call>): seq<Call> {
    if cur.Some? then calls + [cur.value] else calls
  }

  /** One tool delta: a finished call is moved to the list, arguments go to the current one. */
  method CollectTool(calls: seq<Call>, cur: Option<Call>, tc: ToolDelta)
    returns (calls': seq<Call>, cur': Option<Call>)
    requires cur.None? ==> calls == []
    ensures cur'.None? ==> calls' == []
    ensures Flushed(calls', cur') == CollectCall(Flushed(calls, cur), tc.id, tc.name, tc.args)
  {
    calls', cur' := calls, cur;
    if tc.id != "" || tc.name != "" {
      calls' := Flushed(calls', cur');
      cur' := Some(Call(tc.id, tc.name, ""));
    }
    ghost var all := Flushed(calls', cur');
    if cur'.Some? {
      assert all[..|all| - 1] == calls';
      if tc.args != "" {
        cur' := Some(cur'.value.(args := cur'.value.args + tc.args));
      }
    }
  }

  method CollectTools(ghost c: Collected, calls: seq<Call>, cur: Option<Call>, tools: seq<ToolDelta>)
    returns (calls': seq<Call>, cur': Option<Call>)
    requires cur.None? ==> calls == []
    requires c.calls == Flushed(calls, cur)
    ensures cur'.None? ==> calls' == []
    ensures Fold(CollectStep, c, ToolAtoms(tools)) == c.(calls := Flushed(calls', cur'))
  {
    hide CollectCall, Flushed;
    calls', cur' := calls, cur;
    var i := 0;
    while i < |tools|
      invariant 0 <= i <= |tools|
      invariant cur'.None? ==> calls' == []
      invariant Fold(CollectStep, c, ToolAtoms(tools[..i])) == c.(calls := Flushed(calls', cur'))
    {
      var tc := tools[i];
      calls', cur' := CollectTool(calls', cur', tc);
      ToolAtomsPush(tools, i);
      FoldPush(CollectStep, c, ToolAtoms(tools[..i]), Tool(tc.id, tc.name, tc.args));
      i := i + 1;
    }
    assert tools[..i] == tools;
  }

  method CollectAnthropic(valid: string -> bool, frames: seq<Frame>) returns (r: Result<Collected, string>)
    ensures r == AnthropicAnswer(valid, ReadBlankFirst(frames))
  {
    hide ReadBlankFirst, CollectCall, Fold, AllAtoms, Atoms, MapStopReason;
    var text, think := "", "";
    var tools: seq<Call>, cur: Option<Call> := [], None;
    var stopReason, lastReason, firstErr := "end_turn", "", "";
    ghost var taken: seq<Chunk> := [];
    ghost var c := NOTHING;
    CollectNothing();
    var i := 0;
    var reading := true;
    assert frames[0..] == frames;
    while reading && i < |frames|
      invariant 0 <= i <= |frames|
      invariant cur.None? ==> tools == []
      invariant c == Collected(think, text, Flushed(tools, cur), lastReason) == Collect(taken)
      invariant stopReason == MapStopReason(lastReason)
      invariant reading ==> firstErr == "" && Prepend(taken, ReadBlankFirst(frames[i..])) == ReadBlankFirst(frames)
      invariant !reading ==> ReadBlankFirst(frames).chunks == taken
      invariant !reading ==> firstErr == Failure(ReadBlankFirst(frames).ending)
      decreases |frames| - i, reading
    {
      var f := frames[i];
      ReadBlankStep(taken, frames, i);
      if f.payload.Blank? {
        i := i + 1;
        continue;
      }
      if f.event == "finish" {
        reading := false;
        continue;
      }
      match f.payload {
        case Blank =>
        case Unparsed =>
        case Hollow =>
        case Refused(m) => firstErr := m; reading := false; continue;
        case Faulted(m) => firstErr := m; reading := false; continue;
        case Carried(chunk) =>
          FoldAppend(CollectStep, NOTHING, AllAtoms(taken), Atoms(chunk));
          AllAtomsPush(taken, chunk);
          FoldThrough(CollectStep, c, chunk);
          if |chunk.choices| > 0 {
            var ch := chunk.choices[0];
            if ch.reasoning != "" {
              think := think + ch.reasoning;
            }
            if ch.content != "" {
              text := text + ch.content;
            }
            tools, cur := CollectTools(Collected(think, text, Flushed(tools, cur), lastReason), tools, cur, ch.tools);
            if Ends(ch) {
              lastReason := ch.finish.value;
              stopReason := MapStopReason(lastReason);
            }
          }
          taken := taken + [chunk];
          c := Collected(think, text, Flushed(tools, cur), lastReason);
      }
      i := i + 1;
    }
    if reading {
      assert frames[i..] == [] && taken + [] == taken;
    }
    tools := Flushed(tools, cur);
    if firstErr != "" {
      return Err(firstErr);
    }
    var content := DeliverTools(valid, tools);
    r := Ok(Collected(think, text, content, stopReason));
  }

  lemma CollectNothing()
    ensures Collect([]) == NOTHING && MapStopReason("") == "end_turn"
    ensures ReadBlankFirst([]) == Outcome([], Exhausted)
  {}

  lemma ReadBlankStep(taken: seq<Chunk>, frames: seq<Frame>, i: nat)
    requires i < |frames|
    ensures var f := frames[i]; var o := Prepend(taken, ReadBlankFirst(frames[i..]));
      if f.event == "finish" && !f.payload.Blank? then o == Outcome(taken, Finished)
      else if f.payload.Refused? || f.payload.Faulted? then o == Outcome(taken, Errored(f.payload.message))
      else if f.payload.Carried? then o == Prepend(taken + [f.payload.chunk], ReadBlankFirst(frames[i + 1..]))
      else o == Prepend(taken, ReadBlankFirst(frames[i + 1..]))
  {
    assert frames[i..][1..] == frames[i + 1..];
    assert taken + [] == taken;
    if frames[i].payload.Carried? {
      var c := frames[i].payload.chunk;
      assert taken + ([c] + ReadBlankFirst(frames[i + 1..]).chunks)
          == taken + [c] + ReadBlankFirst(frames[i + 1..]).chunks;
    }
  }

  // ---------- collectResponses ----------

  lemma LastReplaced(calls: seq<Call>, c: Call)
    requires calls != []
    ensures calls[|calls| - 1 := c] == calls[..|calls| - 1] + [c]
  {}

  method CollectFunctionCall(calls: seq<Call>, last: int, tc: ToolDelta) returns (fcs: seq<Call>, cur: int)
    requires last == |calls| - 1
    ensures cur == |fcs| - 1
    ensures fcs == CollectCall(calls, tc.id, tc.name, tc.args)
  {
    fcs, cur := calls, last;
    if tc.id != "" || tc.name != "" {
      fcs := fcs + [Call(tc.id, tc.name, "")];
      cur := |fcs| - 1;
    }
    if tc.args != "" && cur >= 0 {
      var longer := fcs[cur].(args := fcs[cur].args + tc.args);
      LastReplaced(fcs, longer);
      fcs := fcs[cur := longer];
    }
  }

  method CollectFunctionCalls(ghost c: Collected, calls: seq<Call>, last: int, tools: seq<ToolDelta>)
    returns (fcs: seq<Call>, cur: int)
    requires c.calls == calls && last == |calls| - 1
    ensures cur == |fcs| - 1
    ensures Fold(CollectStep, c, ToolAtoms(tools)) == c.(calls := fcs)
  {
    hide CollectCall;
    fcs, cur := calls, last;
    var i := 0;
    while i < |tools|
      invariant 0 <= i <= |tools|
      invariant cur == |fcs| - 1
      invariant Fold(CollectStep, c, ToolAtoms(tools[..i])) == c.(calls := fcs)
    {
      var tc := tools[i];
      fcs, cur := CollectFunctionCall(fcs, cur, tc);
      ToolAtomsPush(tools, i);
      FoldPush(CollectStep, c, ToolAtoms(tools[..i]), Tool(tc.id, tc.name, tc.args));
      i := i + 1;
    }
    assert tools[..i] == tools;
  }

  /** The answer tells of the finish reason only whether the reply is complete. */
  function ResponsesAnswer(chunks: seq<Chunk>, failed: string): Result<Collected, string> {
    if failed != "" then Err(failed)
    else Ok(Collect(chunks).(reason := if Collect(chunks).reason == "length" then "incomplete" else "completed"))
  }

  method CollectResponses(chunks: seq<Chunk>, failed: string) returns (r: Result<Collected, string>)
    ensures r == ResponsesAnswer(chunks, failed)
  {
    hide CollectCall, Fold, AllAtoms, Atoms;
    var text, reason, lastReason, stopReason := "", "", "", "stop";
    var fcs: seq<Call>, cur := [], -1;
    CollectNothing();
    var i := 0;
    while i < |chunks|
      invariant 0 <= i <= |chunks|
      invariant Collect(chunks[..i]) == Collected(reason, text, fcs, lastReason)
      invariant stopReason == Or(lastReason, "stop")
      invariant cur == |fcs| - 1
    {
      ghost var c := Collected(reason, text, fcs, lastReason);
      FoldAppend(CollectStep, NOTHING, AllAtoms(chunks[..i]), Atoms(chunks[i]));
      AllAtomsPush(chunks[..i], chunks[i]);
      assert chunks[..i] + [chunks[i]] == chunks[..i + 1];
      FoldThrough(CollectStep, c, chunks[i]);
      if |chunks[i].choices| > 0 {
        var ch := chunks[i].choices[0];
        assert reason + "" == reason && text + "" == text;
        reason := reason + ch.reasoning;
        text := text + ch.content;
        fcs, cur := CollectFunctionCalls(Collected(reason, text, fcs, lastReason), fcs, cur, ch.tools);
        if Ends(ch) {
          lastReason := ch.finish.value;
          stopReason := lastReason;
        }
      }
      i := i + 1;
    }
    assert chunks[..i] == chunks;
    if failed != "" {
      return Err(failed);
    }
    var status := "completed";
    if stopReason == "length" {
      status := "incomplete";
    }
    r := Ok(Collected(reason, text, fcs, status));
  }

  // ---------- upstreamChunks ----------

  /** The chunks put on the channel and the error left for the consumer, "" if none. */
  method UpstreamChunks(frames: seq<Frame>, readError: string) returns (chunks: seq<Chunk>, failed: string)
    ensures chunks == Read(frames).chunks
    ensures failed == Failed(Read(frames), readError)
  {
    hide Read;
    chunks, failed := [], "";
    assert frames[0..] == frames;
    var i := 0;
    while i < |frames|
      invariant 0 <= i <= |frames|
      invariant Prepend(chunks, Read(frames[i..])) == Read(frames)
      invariant failed == ""
    {
      var f := frames[i];
      if f.event == "finish" {
        ReadFinish(frames, i);
        return;
      }
      ReadStep(chunks, frames, i);
      match f.payload {
        case Blank =>
        case Unparsed =>
        case Hollow =>
        case Refused(m) => failed := m; return;
        case Faulted(m) => failed := m; return;
        case Carried(c) => chunks := chunks + [c];
      }
      i := i + 1;
    }
    assert frames[i..] == [];
    ReadNothing();
    failed := readError;
  }
}
