/**
 * What the answers hold, told from the chunks alone: the finish reason, the text and
 * reasoning, and the calls (proxy.go:634-686, 823-891; responses.go:423-509, 640-692;
 * openai.go:416-474; convert.go:551-566).
 */
module Replies {
  import opened Basics
  import opened Chunks
  import opened Segments
  import opened Collectors
  import opened OpenAICollector
  import opened FoldAgreement
  import opened CallAgreement
  import opened AnswersAgree
  import opened Positions
  import opened ChatClient
  import AnthropicStream
  import ResponsesStream

  // ---------- the finish reason ----------

  /** The chunk tells a finish reason: the first choice has one, and it is neither empty nor "null". */
  predicate Tells(c: Chunk) {
    c.choices != [] && c.choices[0].finish.Some? && c.choices[0].finish.value !in {"", "null"}
  }

  predicate LastAt(chunks: seq<Chunk>, reason: string, k: nat) {
    k < |chunks| && Tells(chunks[k]) && chunks[k].choices[0].finish.value == reason
    && forall l :: k < l < |chunks| ==> !Tells(chunks[l])
  }

  /** The reason told last, or none. */
  ghost predicate LastReason(chunks: seq<Chunk>, reason: string) {
    || (reason == "" && forall k :: 0 <= k < |chunks| ==> !Tells(chunks[k]))
    || (exists k :: LastAt(chunks, reason, k))
  }

  lemma LastReasonPush(chunks: seq<Chunk>, c: Chunk, reason: string)
    requires LastReason(chunks, reason)
    ensures LastReason(chunks + [c], if Tells(c) then c.choices[0].finish.value else reason)
  {
    var longer := chunks + [c];
    if Tells(c) {
      assert LastAt(longer, c.choices[0].finish.value, |chunks|);
    } else if k :| LastAt(chunks, reason, k) {
      assert LastAt(longer, reason, k);
    }
  }

  /** A fold that keeps the reason told last. */
  ghost predicate KeepsReason<S(!new)>(step: (S, Atom) -> S, reasonOf: S -> string) {
    forall s: S, x: Atom :: reasonOf(step(s, x)) == if x.Finish? then x.reason else reasonOf(s)
  }

  lemma {:induction false} ToolsTellNothing<S(!new)>(step: (S, Atom) -> S, reasonOf: S -> string, s: S,
                                                     tools: seq<ToolDelta>)
    requires KeepsReason(step, reasonOf)
    ensures reasonOf(Fold(step, s, ToolAtoms(tools))) == reasonOf(s)
  {
    if tools != [] {
      var n := |tools| - 1;
      ToolsTellNothing(step, reasonOf, s, tools[..n]);
      ToolAtomsPush(tools, n);
      assert tools[..n + 1] == tools;
      FoldPush(step, s, ToolAtoms(tools[..n]), Tool(tools[n].id, tools[n].name, tools[n].args));
    }
  }

  lemma ChunkTells<S(!new)>(step: (S, Atom) -> S, reasonOf: S -> string, s: S, c: Chunk)
    requires KeepsReason(step, reasonOf)
    ensures reasonOf(Fold(step, s, Atoms(c))) == if Tells(c) then c.choices[0].finish.value else reasonOf(s)
  {
    hide Fold, ToolAtoms;
    FoldThrough(step, s, c);
    if c.choices != [] {
      var ch := c.choices[0];
      var s1 := if ch.reasoning != "" then step(s, Reason(ch.reasoning)) else s;
      var s2 := if ch.content != "" then step(s1, Say(ch.content)) else s1;
      ToolsTellNothing(step, reasonOf, s2, ch.tools);
    }
  }

  lemma {:induction false} FoldTells<S(!new)>(step: (S, Atom) -> S, reasonOf: S -> string, s: S, chunks: seq<Chunk>)
    requires KeepsReason(step, reasonOf) && reasonOf(s) == ""
    ensures LastReason(chunks, reasonOf(Fold(step, s, AllAtoms(chunks))))
  {
    hide Fold, Atoms, LastReason, KeepsReason;
    if chunks == [] {
      NothingTold(step, s);
    } else {
      var n := |chunks| - 1;
      FoldTells(step, reasonOf, s, chunks[..n]);
      assert chunks == chunks[..n] + [chunks[n]];
      var before := Fold(step, s, AllAtoms(chunks[..n]));
      FoldAppend(step, s, AllAtoms(chunks[..n]), Atoms(chunks[n]));
      ChunkTells(step, reasonOf, before, chunks[n]);
      LastReasonPush(chunks[..n], chunks[n], reasonOf(before));
    }
  }

  lemma NothingTold<S>(step: (S, Atom) -> S, s: S)
    ensures Fold(step, s, AllAtoms([])) == s && LastReason([], "")
  {}

  function ScanReason(s: Scan): string { s.reason }

  function CollectedReason(c: Collected): string { c.reason }

  function GatheredReason(g: Gathered): string { g.reason }

  lemma ScansKeepReason()
    ensures forall s, kind, part :: Continue(s, kind, part).reason == s.reason
    ensures forall s, args :: FeedCall(s, args).reason == s.reason
    ensures forall s, id, name :: OpenCall(s, id, name).reason == s.reason
  {}

  lemma StepsKeepReason()
    ensures KeepsReason(AnthropicStep, ScanReason) && KeepsReason(ResponsesStep, ScanReason)
    ensures KeepsReason(CollectStep, CollectedReason) && KeepsReason(GatherStep, GatheredReason)
  {
    hide Gather, Rank, CollectCall, Continue, FeedCall, OpenCall;
    ScansKeepReason();
  }

  /** In all five folds the reason is the one told last. */
  lemma ReasonsTold(chunks: seq<Chunk>)
    ensures LastReason(chunks, AnthropicStream.AnthropicScan(chunks).reason)
    ensures LastReason(chunks, ResponsesStream.ResponsesScan(chunks).reason)
    ensures LastReason(chunks, Collect(chunks).reason)
    ensures LastReason(chunks, GatherAll(chunks).reason)
  {
    StepsKeepReason();
    FoldTells(AnthropicStep, ScanReason, EMPTY, chunks);
    FoldTells(ResponsesStep, ScanReason, EMPTY, chunks);
    FoldTells(CollectStep, CollectedReason, NOTHING, chunks);
    FoldTells(GatherStep, GatheredReason, NO_ANSWER, chunks);
    hide Fold, AllAtoms, LastReason, KeepsReason, GatherStep, CollectStep, AnthropicStep, ResponsesStep;
  }

  /** The word for a reason in an Anthropic answer. */
  predicate StopWord(reason: string, word: string) {
    && (reason in {"", "stop"} ==> word == "end_turn")
    && (reason == "tool_calls" ==> word == "tool_use")
    && (reason == "length" ==> word == "max_tokens")
    && (reason == "content_filter" ==> word == "refusal")
    && (reason !in {"", "stop", "tool_calls", "length", "content_filter"} ==> word == reason)
  }

  lemma Mapped(reason: string)
    ensures StopWord(reason, AnthropicStream.MapStopReason(reason))
  {}

  lemma TwoMore(es: seq<AnthropicStream.Event>, word: string)
    ensures var all := es + [AnthropicStream.MessageDelta(word), AnthropicStream.MessageStop];
      all[|all| - 2] == AnthropicStream.MessageDelta(word) && all[|all| - 1] == AnthropicStream.MessageStop
  {}

  /** A streamed Messages answer that was not cut off by an error closes with the word for the reason told last. */
  lemma StreamedReason(o: Outcome)
    requires o.ending.Finished? || (o.ending.Exhausted? && AnthropicStream.Answer(o) != [])
    ensures var es := AnthropicStream.Answer(o);
      && |es| >= 2 && es[|es| - 1] == AnthropicStream.MessageStop && es[|es| - 2].MessageDelta?
      && exists reason :: LastReason(o.chunks, reason) && StopWord(reason, es[|es| - 2].stopReason)
  {
    hide LastReason, StopWord;
    ReasonsTold(o.chunks);
    var s := AnthropicStream.AnthropicScan(o.chunks);
    Mapped(s.reason);
    TwoMore(AnthropicStream.Rendered(s.segs != [], s.segs, false), AnthropicStream.MapStopReason(s.reason));
    hide AnthropicStream.AnthropicScan, AnthropicStream.Rendered, AnthropicStream.MapStopReason;
  }

  /** A streamed Responses answer without an error completes, incompletely exactly when the length was the reason. */
  lemma CompletedStatus(ids: nat -> string, chunks: seq<Chunk>)
    ensures var es := ResponsesStream.Answer(ids, chunks, "");
      && es != [] && es[|es| - 1].body.Completed?
      && exists reason :: LastReason(chunks, reason)
           && es[|es| - 1].body.status == if reason == "length" then "incomplete" else "completed"
  {
    ReasonsTold(chunks);
    hide LastReason, ResponsesStream.ResponsesScan, ResponsesStream.Rendered, ResponsesStream.DoneItems;
  }

  /** The aggregated answers, where they are no errors. */
  lemma AggregatedReasons(valid: string -> bool, o: Outcome, chunks: seq<Chunk>, failed: string)
    ensures var r := AnthropicAnswer(valid, o);
      r.Ok? ==> exists reason :: LastReason(o.chunks, reason) && StopWord(reason, r.value.reason)
    ensures var r := ResponsesAnswer(chunks, failed);
      r.Ok? ==> exists reason :: LastReason(chunks, reason)
                  && r.value.reason == if reason == "length" then "incomplete" else "completed"
    ensures var r := ChatAnswer(chunks, failed);
      r.Ok? ==> exists reason :: LastReason(chunks, reason)
                  && r.value.reason == if reason == "" then "stop" else reason
  {
    ReasonsTold(o.chunks);
    ReasonsTold(chunks);
    Mapped(Collect(o.chunks).reason);
    hide LastReason, StopWord, Collect, GatherAll, AnthropicStream.MapStopReason;
  }

  lemma LastReasonOnce(chunks: seq<Chunk>, x: string, y: string)
    requires LastReason(chunks, x) && LastReason(chunks, y)
    ensures x == y
  {
    if i :| LastAt(chunks, x, i) {
      if j :| LastAt(chunks, y, j) {
        assert i == j;
      }
    }
  }

  // ---------- reasons that tell nothing ----------

  /** The chunk without a finish reason that is empty or "null". */
  function Quieted(c: Chunk): Chunk {
    if c.choices != [] && c.choices[0].finish in {Some(""), Some("null")}
    then c.(choices := c.choices[0 := c.choices[0].(finish := None)]) else c
  }

  function AllQuieted(chunks: seq<Chunk>): seq<Chunk> {
    seq(|chunks|, i requires 0 <= i < |chunks| => Quieted(chunks[i]))
  }

  lemma QuietedAtoms(c: Chunk)
    ensures Atoms(Quieted(c)) == Atoms(c)
  {
    hide ToolAtoms, IdCounts;
    if c.choices != [] {
      var quiet := Quieted(c);
      assert quiet.choices[1..] == c.choices[1..];
    }
  }

  lemma {:induction false} QuietedAll(chunks: seq<Chunk>)
    ensures AllAtoms(AllQuieted(chunks)) == AllAtoms(chunks)
  {
    hide Atoms, Quieted;
    if chunks != [] {
      var n := |chunks| - 1;
      QuietedAll(chunks[..n]);
      QuietedAtoms(chunks[n]);
      assert AllQuieted(chunks)[..n] == AllQuieted(chunks[..n]);
    }
  }

  /** A reason that is empty or "null" changes none of the five answers. */
  lemma QuietReasonsIgnored(ids: nat -> string, valid: string -> bool, chunks: seq<Chunk>, e: Ending, failed: string)
    ensures var quiet := AllQuieted(chunks);
      && AnthropicStream.Answer(Outcome(quiet, e)) == AnthropicStream.Answer(Outcome(chunks, e))
      && ResponsesStream.Answer(ids, quiet, failed) == ResponsesStream.Answer(ids, chunks, failed)
      && AnthropicAnswer(valid, Outcome(quiet, e)) == AnthropicAnswer(valid, Outcome(chunks, e))
      && ResponsesAnswer(quiet, failed) == ResponsesAnswer(chunks, failed)
      && ChatAnswer(quiet, failed) == ChatAnswer(chunks, failed)
  {
    QuietedAll(chunks);
    hide AllAtoms, AllQuieted, Fold;
  }

  // ---------- text and reasoning ----------

  /** The contents of the first choices, one after the other. */
  function Contents(chunks: seq<Chunk>): string {
    if chunks == [] then ""
    else
      var c := chunks[|chunks| - 1];
      Contents(chunks[..|chunks| - 1]) + (if c.choices != [] then c.choices[0].content else "")
  }

  function Reasonings(chunks: seq<Chunk>): string {
    if chunks == [] then ""
    else
      var c := chunks[|chunks| - 1];
      Reasonings(chunks[..|chunks| - 1]) + (if c.choices != [] then c.choices[0].reasoning else "")
  }

  lemma {:induction false} SpokenAppend(xs: seq<Atom>, ys: seq<Atom>, kind: Kind)
    ensures Spoken(xs + ys, kind) == Spoken(xs, kind) + Spoken(ys, kind)
    decreases |ys|
  {
    if ys == [] {
      assert xs + ys == xs;
    } else {
      assert (xs + ys)[..|xs + ys| - 1] == xs + ys[..|ys| - 1];
      SpokenAppend(xs, ys[..|ys| - 1], kind);
    }
  }

  lemma {:induction false} NothingSpoken(xs: seq<Atom>, kind: Kind)
    requires forall x :: x in xs ==> !x.Reason? && !x.Say?
    ensures Spoken(xs, kind) == ""
  {
    if xs != [] {
      NothingSpoken(xs[..|xs| - 1], kind);
    }
  }

  lemma OneSpoken(x: Atom, kind: Kind)
    ensures Spoken([x], kind)
         == if (x.Reason? && kind == Thinking) || (x.Say? && kind == Text) then x.text else ""
  {
    assert [x][..0] == [];
  }

  lemma ChunkSpoken(c: Chunk, kind: Kind)
    requires kind == Text || kind == Thinking
    ensures Spoken(Atoms(c), kind)
         == if c.choices == [] then "" else if kind == Text then c.choices[0].content else c.choices[0].reasoning
  {
    hide Spoken, ToolAtoms, IdCounts;
    if c.choices == [] {
      NothingSpoken([], kind);
    } else {
      var ch := c.choices[0];
      var xs := if ch.reasoning != "" then [Reason(ch.reasoning)] else [];
      var ys := if ch.content != "" then [Say(ch.content)] else [];
      var zs := ToolAtoms(ch.tools) + (if Ends(ch) then [Finish(ch.finish.value)] else [])
                + (if |c.choices| == 1 then [] else [Elsewhere(IdCounts(c.choices[1..]))]);
      assert Atoms(c) == xs + ys + zs;
      SpokenAppend(xs + ys, zs, kind);
      SpokenAppend(xs, ys, kind);
      ToolsAreTools(ch.tools);
      NothingSpoken(zs, kind);
      NothingSpoken([], kind);
      OneSpoken(Reason(ch.reasoning), kind);
      OneSpoken(Say(ch.content), kind);
    }
  }

  lemma ToolsAreTools(tools: seq<ToolDelta>)
    ensures forall x :: x in ToolAtoms(tools) ==> x.Tool?
  {}

  /** Text and reasoning are what the first choices say: with SameProse, in every answer. */
  lemma {:induction false} SpokenToldBy(chunks: seq<Chunk>)
    ensures Spoken(AllAtoms(chunks), Text) == Contents(chunks)
    ensures Spoken(AllAtoms(chunks), Thinking) == Reasonings(chunks)
  {
    hide Spoken, Atoms;
    if chunks == [] {
      NothingSpoken([], Text);
      NothingSpoken([], Thinking);
    } else {
      var n := |chunks| - 1;
      SpokenToldBy(chunks[..n]);
      SpokenAppend(AllAtoms(chunks[..n]), Atoms(chunks[n]), Text);
      SpokenAppend(AllAtoms(chunks[..n]), Atoms(chunks[n]), Thinking);
      ChunkSpoken(chunks[n], Text);
      ChunkSpoken(chunks[n], Thinking);
    }
  }

  // ---------- the calls ----------

  /** The tool deltas of the first choices, one chunk after the other. */
  function FirstDeltas(chunks: seq<Chunk>): seq<ToolDelta> {
    if chunks == [] then []
    else
      var c := chunks[|chunks| - 1];
      FirstDeltas(chunks[..|chunks| - 1]) + (if c.choices != [] then c.choices[0].tools else [])
  }

  predicate Begins(t: ToolDelta) { t.id != "" || t.name != "" }

  function ArgumentsOf(deltas: seq<ToolDelta>): string {
    if deltas == [] then "" else ArgumentsOf(deltas[..|deltas| - 1]) + deltas[|deltas| - 1].args
  }

  /** Where the k-th call ends: at the delta that begins the next one. */
  function Until(at: seq<nat>, deltas: seq<ToolDelta>, k: nat): nat { if k + 1 < |at| then at[k + 1] else |deltas| }

  /** One call per delta with an id or name, under these, with all arguments up to the next such delta. */
  ghost predicate Spelled(calls: seq<Call>, deltas: seq<ToolDelta>) {
    var at := Where(deltas, Begins);
    |calls| == |at| && forall k :: 0 <= k < |at| ==> SpelledAt(calls[k], deltas, at[k], Until(at, deltas, k))
  }

  predicate SpelledAt(c: Call, deltas: seq<ToolDelta>, from: nat, to: nat) {
    && from < to <= |deltas| && c.id == deltas[from].id && c.name == deltas[from].name
    && c.args == ArgumentsOf(deltas[from..to])
  }

  lemma ArgumentsOfPush(deltas: seq<ToolDelta>, t: ToolDelta)
    ensures ArgumentsOf(deltas + [t]) == ArgumentsOf(deltas) + t.args
  {
    assert (deltas + [t])[..|deltas|] == deltas;
  }

  lemma SpelledLonger(c: Call, deltas: seq<ToolDelta>, from: nat, to: nat, t: ToolDelta)
    requires SpelledAt(c, deltas, from, to)
    ensures SpelledAt(c, deltas + [t], from, to)
    ensures to == |deltas| ==> SpelledAt(c.(args := c.args + t.args), deltas + [t], from, |deltas| + 1)
  {
    assert (deltas + [t])[from..to] == deltas[from..to];
    if to == |deltas| {
      assert (deltas + [t])[from..|deltas| + 1] == deltas[from..] + [t];
      assert deltas[from..to] == deltas[from..];
      ArgumentsOfPush(deltas[from..], t);
    }
  }

  lemma SpelledBegin(calls: seq<Call>, deltas: seq<ToolDelta>, t: ToolDelta)
    requires Spelled(calls, deltas) && Begins(t)
    ensures Spelled(calls + [Call(t.id, t.name, t.args)], deltas + [t])
  {
    hide Where, SpelledAt, ArgumentsOf;
    var at, longer := Where(deltas, Begins), Where(deltas + [t], Begins);
    WherePush(deltas, t, Begins);
    SpelledNew(deltas, t);
    var more := calls + [Call(t.id, t.name, t.args)];
    forall k | 0 <= k < |longer|
      ensures SpelledAt(more[k], deltas + [t], longer[k], Until(longer, deltas + [t], k))
    {
      if k < |at| {
        SpelledLonger(calls[k], deltas, at[k], Until(at, deltas, k), t);
      }
    }
  }

  lemma SpelledFeed(calls: seq<Call>, deltas: seq<ToolDelta>, t: ToolDelta)
    requires Spelled(calls, deltas) && !Begins(t)
    ensures Spelled(Grow(calls, t.args), deltas + [t])
  {
    hide Where, SpelledAt, ArgumentsOf, Grow;
    var at := Where(deltas, Begins);
    WherePush(deltas, t, Begins);
    assert at + [] == at;
    if calls == [] {
      NoneGrow(t.args);
    } else {
      var m := |calls| - 1;
      assert calls == calls[..m] + [calls[m]];
      GrowPushed(calls[..m], calls[m], t.args);
      var grown := calls[..m] + [calls[m].(args := calls[m].args + t.args)];
      forall k | 0 <= k < |at|
        ensures SpelledAt(grown[k], deltas + [t], at[k], Until(at, deltas + [t], k))
      {
        SpelledLonger(calls[k], deltas, at[k], Until(at, deltas, k), t);
      }
    }
  }

  lemma SpelledPush(calls: seq<Call>, deltas: seq<ToolDelta>, t: ToolDelta)
    requires Spelled(calls, deltas)
    ensures Spelled(CollectCall(calls, t.id, t.name, t.args), deltas + [t])
  {
    hide CollectCall, Spelled, Grow;
    if Begins(t) {
      Collected1(calls, t.id, t.name, t.args);
      SpelledBegin(calls, deltas, t);
    } else {
      CollectFed(calls, t.args);
      SpelledFeed(calls, deltas, t);
    }
  }

  lemma SpelledNew(deltas: seq<ToolDelta>, t: ToolDelta)
    ensures SpelledAt(Call(t.id, t.name, t.args), deltas + [t], |deltas|, |deltas| + 1)
  {
    assert (deltas + [t])[|deltas|..|deltas| + 1] == [] + [t];
    ArgumentsOfPush([], t);
    assert "" + t.args == t.args;
  }

  lemma {:induction false} DeltasSpelled(c: Collected, before: seq<ToolDelta>, tools: seq<ToolDelta>)
    requires Spelled(c.calls, before)
    ensures Spelled(Fold(CollectStep, c, ToolAtoms(tools)).calls, before + tools)
  {
    hide Spelled, CollectCall, ToolAtoms, Fold;
    if tools == [] {
      assert before + tools == before;
      NoTools(c);
    } else {
      var n := |tools| - 1;
      var t := tools[n];
      DeltasSpelled(c, before, tools[..n]);
      ToolAtomsPush(tools, n);
      assert tools[..n + 1] == tools;
      FoldPush(CollectStep, c, ToolAtoms(tools[..n]), Tool(t.id, t.name, t.args));
      SpelledPush(Fold(CollectStep, c, ToolAtoms(tools[..n])).calls, before + tools[..n], t);
      assert before + tools == before + tools[..n] + [t];
    }
  }

  lemma NoTools(c: Collected)
    ensures Fold(CollectStep, c, ToolAtoms([])) == c
  {}

  lemma ChunkSpelled(c: Collected, before: seq<ToolDelta>, chunk: Chunk)
    requires Spelled(c.calls, before)
    ensures Spelled(Fold(CollectStep, c, Atoms(chunk)).calls,
                    before + (if chunk.choices != [] then chunk.choices[0].tools else []))
  {
    hide Spelled, CollectCall, ToolAtoms, Fold;
    FoldThrough(CollectStep, c, chunk);
    if chunk.choices == [] {
      assert before + [] == before;
    } else {
      var ch := chunk.choices[0];
      var s1 := if ch.reasoning != "" then CollectStep(c, Reason(ch.reasoning)) else c;
      var s2 := if ch.content != "" then CollectStep(s1, Say(ch.content)) else s1;
      DeltasSpelled(s2, before, ch.tools);
    }
  }

  /** The calls of the aggregated Messages and Responses answers, and of all five where these agree. */
  lemma {:induction false} CallsSpelled(chunks: seq<Chunk>)
    ensures Spelled(Collect(chunks).calls, FirstDeltas(chunks))
  {
    hide Fold, Atoms, Spelled;
    if chunks == [] {
      NoneSpelled();
    } else {
      var n := |chunks| - 1;
      CallsSpelled(chunks[..n]);
      FoldAppend(CollectStep, NOTHING, AllAtoms(chunks[..n]), Atoms(chunks[n]));
      ChunkSpelled(Collect(chunks[..n]), FirstDeltas(chunks[..n]), chunks[n]);
    }
  }

  lemma NoneSpelled()
    ensures Spelled([], []) && Collect([]) == NOTHING && FirstDeltas([]) == []
  {
    CollectNothing();
  }

  /** Where the five answers agree, their calls are those the deltas spell. */
  lemma FiveSpelled(ids: nat -> string, valid: string -> bool, frames: seq<Frame>, readError: string)
    requires FiveAgree(ids, valid, frames, readError)
    ensures var answer := AnthropicAnswer(valid, ReadBlankFirst(frames));
      answer.Ok? && Spelled(answer.value.calls, FirstDeltas(Read(frames).chunks))
  {
    hide Spelled;
    FiveAreFolds(ids, valid, frames, readError);
    CallsSpelled(Read(frames).chunks);
  }
}
