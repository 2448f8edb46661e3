/**
 * One upstream reply, five kinds of answer: what a client of each is handed, from the
 * frames to the list of calls.
 */
module AnswersAgree {
  import opened Basics
  import opened Chunks
  import opened Segments
  import opened Collectors
  import opened OpenAICollector
  import opened FoldAgreement
  import opened CallAgreement
  import AnthropicStream
  import AnthropicGrammar
  import ResponsesStream
  import ResponsesGrammar

  /** The calls among finished output items. */
  function ItemCalls(items: seq<ResponsesStream.Item>): seq<Call> {
    if items == [] then []
    else
      var item := items[|items| - 1];
      ItemCalls(items[..|items| - 1])
      + (if item.kind == ToolUse then [Call(item.callId, item.name, item.text)] else [])
  }

  function ItemProse(items: seq<ResponsesStream.Item>, kind: Kind): string {
    if items == [] then ""
    else
      var item := items[|items| - 1];
      ItemProse(items[..|items| - 1], kind) + (if item.kind == kind then item.text else "")
  }

  lemma {:induction false} ItemsTell(ids: nat -> string, segs: seq<Segment>, kind: Kind)
    ensures ItemCalls(ResponsesStream.DoneItems(ids, segs)) == Calls(segs)
    ensures ItemProse(ResponsesStream.DoneItems(ids, segs), kind) == Said(segs, kind)
  {
    if segs == [] {
    } else {
      var n := |segs| - 1;
      ItemsTell(ids, segs[..n], kind);
      assert ResponsesStream.DoneItems(ids, segs)[..n] == ResponsesStream.DoneItems(ids, segs[..n]);
    }
  }

  /** What a client of the Anthropic stream, whatever its ending, rebuilds from the events. */
  function StreamedBlocks(chunks: seq<Chunk>, ending: Ending): seq<Segment> {
    AnthropicGrammar.Client(AnthropicStream.Answer(Outcome(chunks, ending)))
  }

  /** What response.completed lists. */
  function CompletedItems(ids: nat -> string, chunks: seq<Chunk>): seq<ResponsesStream.Item> {
    ResponsesStream.DoneItems(ids, ResponsesStream.ResponsesScan(chunks).segs)
  }

  // ---------- text and reasoning ----------

  /** Text and reasoning: the same five times, whatever upstream sent. */
  lemma SameProse(ids: nat -> string, chunks: seq<Chunk>, ending: Ending)
    ensures var text := Spoken(AllAtoms(chunks), Text);
      && Said(StreamedBlocks(chunks, ending), Text) == text
      && ItemProse(CompletedItems(ids, chunks), Text) == text
      && Collect(chunks).text == text
      && Gathering(GatherAll(chunks)).text == text
    ensures var reasoning := Spoken(AllAtoms(chunks), Thinking);
      && Said(StreamedBlocks(chunks, ending), Thinking) == reasoning
      && ItemProse(CompletedItems(ids, chunks), Thinking) == reasoning
      && Collect(chunks).reasoning == reasoning
      && Gathering(GatherAll(chunks)).reasoning == reasoning
  {
    hide Spoken, Said, ItemProse, AllAtoms, Fold;
    AnthropicGrammar.StreamLegal(Outcome(chunks, ending));
    ItemsTell(ids, ResponsesStream.ResponsesScan(chunks).segs, Text);
    ItemsTell(ids, ResponsesStream.ResponsesScan(chunks).segs, Thinking);
    ProseAgrees(AllAtoms(chunks), Text);
    ProseAgrees(AllAtoms(chunks), Thinking);
  }

  // ---------- what only collectAnthropic reads ----------

  /** The chunks collectAnthropic takes after a blank finish frame, where the other readers stop. */
  function Beyond(frames: seq<Frame>): seq<Chunk> {
    var o, b := Read(frames), ReadBlankFirst(frames);
    if |o.chunks| <= |b.chunks| then b.chunks[|o.chunks|..] else []
  }

  lemma {:induction false} ReadsOn(frames: seq<Frame>)
    ensures ReadBlankFirst(frames).chunks == Read(frames).chunks + Beyond(frames)
  {
    if frames != [] && frames[0].event != "finish" {
      ReadsOn(frames[1..]);
    }
  }

  /** Where the readers agree, nothing. */
  lemma NothingBeyond(frames: seq<Frame>)
    requires BlankFinish(FromStop(frames)) ==> QuietUntilFinish(FromStop(frames)[1..])
    ensures Beyond(frames) == []
  {
    ReadersAgree(frames);
  }

  /** No delta with an id or a name. */
  predicate OpensNothing(xs: seq<Atom>) {
    forall x :: x in xs && x.Tool? ==> x.id == "" && x.name == ""
  }

  /** All argument text, in order. */
  function Arguments(xs: seq<Atom>): string {
    if xs == [] then ""
    else
      var x := xs[|xs| - 1];
      Arguments(xs[..|xs| - 1]) + (if x.Tool? then x.args else "")
  }

  lemma GrowTwice(calls: seq<Call>, a: string, b: string)
    ensures Grow(Grow(calls, a), b) == Grow(calls, a + b)
  {
    if calls == [] {
      NoneGrow(a);
      NoneGrow(b);
      NoneGrow(a + b);
    } else {
      hide Grow;
      var n := |calls| - 1;
      var before, c := calls[..n], calls[n];
      assert calls == before + [c];
      GrowPushed(before, c, a);
      GrowPushed(before, c.(args := c.args + a), b);
      GrowPushed(before, c, a + b);
      assert c.args + a + b == c.args + (a + b);
    }
  }

  lemma NoneGrow(args: string)
    ensures Grow([], args) == []
  {}

  /** Deltas that open nothing only add their arguments to the last call; any other adds a call. */
  lemma {:induction false} CollectOn(c: Collected, xs: seq<Atom>)
    ensures var d := Fold<Collected>(CollectStep, c, xs);
      && |d.calls| >= |c.calls|
      && (OpensNothing(xs) ==> d.calls == Grow(c.calls, Arguments(xs)))
      && (!OpensNothing(xs) ==> |d.calls| > |c.calls|)
  {
    hide CollectCall, Grow, OpensNothing, Arguments, Fold, Extends, AllNamed;
    if xs == [] {
      GrowNothing(c.calls);
      NothingSaid();
      FoldIf(CollectStep, c, false, Finish(""));
    } else {
      var ys, x := xs[..|xs| - 1], xs[|xs| - 1];
      CollectOn(c, ys);
      assert xs == ys + [x];
      FoldPush(CollectStep, c, ys, x);
      ArgumentsPush(ys, x);
      OpensMore(ys, x);
      var d := Fold<Collected>(CollectStep, c, ys);
      if x.Tool? {
        CollectCallExtends(d.calls, x.id, x.name, x.args);
        CollectFed(d.calls, x.args);
        GrowTwice(c.calls, Arguments(ys), x.args);
      } else {
        assert Arguments(ys) + "" == Arguments(ys);
      }
    }
  }

  lemma ArgumentsPush(xs: seq<Atom>, x: Atom)
    ensures Arguments(xs + [x]) == Arguments(xs) + (if x.Tool? then x.args else "")
  {
    assert (xs + [x])[..|xs|] == xs;
  }

  lemma OpensMore(xs: seq<Atom>, x: Atom)
    ensures OpensNothing(xs + [x]) <==> OpensNothing(xs) && (x.Tool? ==> x.id == "" && x.name == "")
  {
    assert forall y :: y in xs + [x] <==> y in xs || y == x;
  }

  lemma {:induction false} AllAtomsAppend(cs: seq<Chunk>, ds: seq<Chunk>)
    ensures AllAtoms(cs + ds) == AllAtoms(cs) + AllAtoms(ds)
    decreases |ds|
  {
    hide Atoms;
    if ds == [] {
      assert cs + ds == cs;
    } else {
      assert (cs + ds)[..|cs + ds| - 1] == cs + ds[..|ds| - 1];
      AllAtomsAppend(cs, ds[..|ds| - 1]);
    }
  }

  // ---------- five answers ----------

  /** Every request is answered, and every answer lists the same calls; `o` is what the streaming
      readers and upstreamChunks took from the body, `b` what collectAnthropic took. */
  predicate AllAgree(ids: nat -> string, valid: string -> bool, o: Outcome, b: Outcome, readError: string) {
    var failed := Failed(o, readError);
    var messages := AnthropicAnswer(valid, b);
    var responses := ResponsesAnswer(o.chunks, failed);
    var chat := ChatAnswer(o.chunks, failed);
    var events := ResponsesGrammar.Check(ResponsesStream.Answer(ids, o.chunks, failed));
    && messages.Ok? && responses.Ok? && chat.Ok? && events.Whole?
    && var calls := responses.value.calls;
    && messages.value.calls == calls && chat.value.calls == calls && ItemCalls(events.done) == calls
    && Calls(AnthropicGrammar.Client(AnthropicStream.Answer(o))) == calls
  }

  predicate FiveAgree(ids: nat -> string, valid: string -> bool, frames: seq<Frame>, readError: string) {
    AllAgree(ids, valid, Read(frames), ReadBlankFirst(frames), readError)
  }

  /** The arguments of the i-th call once what came beyond has been added to the last. */
  function ArgumentsAfter(calls: seq<Call>, i: nat, more: string): string
    requires i < |calls|
  {
    if i == |calls| - 1 then calls[i].args + more else calls[i].args
  }

  /** Arguments that reach a Messages client as they are. */
  predicate Kept(valid: string -> bool, args: string) { args == "{}" || (args != "" && valid(args)) }

  lemma DeliveredIff(valid: string -> bool, calls: seq<Call>, more: string)
    ensures Delivered(valid, Grow(calls, more)) == calls
       <==> forall i :: 0 <= i < |calls| ==> DeliveredArgs(valid, ArgumentsAfter(calls, i, more)) == calls[i].args
  {
    var grown := Grow(calls, more);
    if calls != [] {
      assert more == "" ==> calls[|calls| - 1].args + more == calls[|calls| - 1].args;
    }
    assert forall i :: 0 <= i < |calls| ==> grown[i] == calls[i].(args := ArgumentsAfter(calls, i, more));
    var delivered := Delivered(valid, grown);
    assert forall i :: 0 <= i < |calls| ==>
      delivered[i] == calls[i].(args := DeliveredArgs(valid, ArgumentsAfter(calls, i, more)));
    if delivered == calls {
      forall i | 0 <= i < |calls|
        ensures DeliveredArgs(valid, ArgumentsAfter(calls, i, more)) == calls[i].args
      {
        assert delivered[i].args == calls[i].args;
      }
    }
  }

  /** The five answers in terms of the folds. */
  lemma FiveAreFolds(ids: nat -> string, valid: string -> bool, frames: seq<Frame>, readError: string)
    ensures var o, b := Read(frames), ReadBlankFirst(frames);
      FiveAgree(ids, valid, frames, readError) <==>
        && Failed(o, readError) == "" && Failure(b.ending) == "" && Agree(AllAtoms(o.chunks))
        && Delivered(valid, Collect(b.chunks).calls) == Collect(o.chunks).calls
  {
    var o := Read(frames);
    AnthropicGrammar.StreamLegal(o);
    ResponsesGrammar.StreamLegal(ids, o.chunks, Failed(o, readError));
    ItemsTell(ids, ResponsesStream.ResponsesScan(o.chunks).segs, Text);
    hide Read, ReadBlankFirst, Delivered, AllAtoms, Fold, ItemCalls, Calls;
  }

  /** The call list of an aggregated Messages answer, by what was read beyond a blank finish frame. */
  lemma DeliveredBeyond(valid: string -> bool, frames: seq<Frame>)
    ensures var calls, beyond := Collect(Read(frames).chunks).calls, AllAtoms(Beyond(frames));
      Delivered(valid, Collect(ReadBlankFirst(frames).chunks).calls) == calls <==>
        && OpensNothing(beyond)
        && forall i :: 0 <= i < |calls| ==>
          DeliveredArgs(valid, ArgumentsAfter(calls, i, Arguments(beyond))) == calls[i].args
  {
    var o := Read(frames);
    var calls, beyond := Collect(o.chunks).calls, AllAtoms(Beyond(frames));
    ReadsOn(frames);
    AllAtomsAppend(o.chunks, Beyond(frames));
    FoldAppend(CollectStep, NOTHING, AllAtoms(o.chunks), beyond);
    CollectOn(Collect(o.chunks), beyond);
    DeliveredIff(valid, calls, Arguments(beyond));
    hide Read, ReadBlankFirst, Beyond, OpensNothing, Arguments, ArgumentsAfter, DeliveredArgs, AllAtoms, Fold, Grow;
  }

  /**
   * From the frames, whatever they are: all five answers are given and list the same calls
   * exactly when no answer is an error, the deltas pass the check of CallAgreement, nothing
   * beyond a blank finish frame opens a call, and the arguments a Messages client is handed
   * are those of the others.
   */
  lemma FiveAgreeIff(ids: nat -> string, valid: string -> bool, frames: seq<Frame>, readError: string)
    ensures var o := Read(frames);
      var calls, beyond := Collect(o.chunks).calls, AllAtoms(Beyond(frames));
      FiveAgree(ids, valid, frames, readError) <==>
        && Failed(o, readError) == "" && Failure(ReadBlankFirst(frames).ending) == ""
        && AllFit(AllAtoms(o.chunks)) && OpensNothing(beyond)
        && forall i :: 0 <= i < |calls| ==>
          DeliveredArgs(valid, ArgumentsAfter(calls, i, Arguments(beyond))) == calls[i].args
  {
    hide FiveAgree, AllFit, Agree, Read, ReadBlankFirst, Beyond, OpensNothing, Arguments, ArgumentsAfter, DeliveredArgs,
      Delivered, AllAtoms, Fold;
    CallsAgreeIff(AllAtoms(Read(frames).chunks));
    FiveAreFolds(ids, valid, frames, readError);
    DeliveredBeyond(valid, frames);
  }

  /**
   * When upstream keeps its discipline, no answer is an error and its finish frame is
   * not blank, the five answers list the same calls exactly when the arguments of
   * every call are "{}" or non-empty valid JSON.
   */
  lemma SameCalls(ids: nat -> string, valid: string -> bool, frames: seq<Frame>, readError: string)
    requires Disciplined(AllAtoms(Read(frames).chunks))
    requires Failed(Read(frames), readError) == "" && Failure(ReadBlankFirst(frames).ending) == ""
    requires BlankFinish(FromStop(frames)) ==> QuietUntilFinish(FromStop(frames)[1..])
    ensures var calls := Collect(Read(frames).chunks).calls;
      FiveAgree(ids, valid, frames, readError) <==> forall i :: 0 <= i < |calls| ==> Kept(valid, calls[i].args)
  {
    hide FiveAgree, AllFit, Read, ReadBlankFirst, FromStop, QuietUntilFinish, Disciplined, AllAtoms, Fold,
      Kept, ArgumentsAfter, DeliveredArgs, OpensNothing, Arguments, Agree;
    var xs, calls := AllAtoms(Read(frames).chunks), Collect(Read(frames).chunks).calls;
    DisciplineSuffices(xs, |xs|);
    assert xs[..|xs|] == xs;
    NothingBeyond(frames);
    NothingSaid();
    FiveAgreeIff(ids, valid, frames, readError);
    forall i | 0 <= i < |calls|
      ensures DeliveredArgs(valid, ArgumentsAfter(calls, i, "")) == calls[i].args <==> Kept(valid, calls[i].args)
    {
      KeptIff(valid, calls, i);
    }
  }

  lemma KeptIff(valid: string -> bool, calls: seq<Call>, i: nat)
    requires i < |calls|
    ensures DeliveredArgs(valid, ArgumentsAfter(calls, i, "")) == calls[i].args <==> Kept(valid, calls[i].args)
  {
    assert calls[i].args + "" == calls[i].args;
  }

  lemma NothingSaid()
    ensures AllAtoms([]) == [] && OpensNothing([]) && Arguments([]) == ""
  {}

  // ---------- where they differ ----------

  function TruncatedChunk(): Chunk { Chunk([Choice("", "", [ToolDelta("1", "f", "{", 0)], Some("length"))]) }

  function TruncatedReply(): seq<Frame> { [Frame("", Carried(TruncatedChunk())), Frame("finish", Hollow)] }

  lemma TruncatedRead()
    ensures var c := TruncatedChunk();
      Read(TruncatedReply()) == ReadBlankFirst(TruncatedReply()) == Outcome([c], Finished)
  {
    var c := TruncatedChunk();
    assert TruncatedReply()[1..] == [Frame("finish", Hollow)];
    assert [c] + [] == [c];
  }

  lemma TruncatedAtoms()
    ensures AllAtoms([TruncatedChunk()]) == [Tool("1", "f", "{"), Finish("length")]
  {
    var c := TruncatedChunk();
    assert [c][..0] == [] && AllAtoms([c][..0]) == [];
    assert ToolAtoms(c.choices[0].tools) == [Tool("1", "f", "{")];
    assert "length" != "null" by { assert |"length"| == 6; }
    assert Atoms(c) == [Tool("1", "f", "{"), Finish("length")];
  }

  lemma TruncatedCalls()
    ensures var xs := [Tool("1", "f", "{"), Finish("length")];
      Disciplined(xs) && CollectedFrom(xs).calls == [Call("1", "f", "{")] == Calls(AnthropicBlocks(xs).segs)
  {
    hide ToolStep, JointOf, Calls, Fold, InOrder;
    var x, y := Tool("1", "f", "{"), Finish("length");
    assert [] + [x] == [x] && [x] + [y] == [x, y];
    assert InOrder([x, y], 0) && InOrder([x, y], 1) by { TruncatedInOrder(); }
    JointStart();
    JointPush([], x);
    JointPush([x], y);
    FirstCall("{");
    JointTells([x, y]);
  }

  lemma TruncatedInOrder()
    ensures var xs := [Tool("1", "f", "{"), Finish("length")]; InOrder(xs, 0) && InOrder(xs, 1)
  {}

  /** A disciplined call cut off by the length limit: an aggregated Messages answer hands out an empty object. */
  lemma TruncatedArguments(valid: string -> bool)
    requires !valid("{")
    ensures var o, b := Read(TruncatedReply()), ReadBlankFirst(TruncatedReply());
      && Disciplined(AllAtoms(o.chunks))
      && Calls(AnthropicGrammar.Client(AnthropicStream.Answer(o))) == [Call("1", "f", "{")]
      && AnthropicAnswer(valid, b).Ok? && AnthropicAnswer(valid, b).value.calls == [Call("1", "f", "{}")]
  {
    hide Fold, Calls, AllAtoms, Read, ReadBlankFirst, Disciplined, TruncatedReply, TruncatedChunk;
    TruncatedRead();
    TruncatedAtoms();
    TruncatedCalls();
    AnthropicGrammar.StreamLegal(Read(TruncatedReply()));
  }

  /** A name repeated without an id: one call in the Anthropic stream and by index, two for the other three. */
  lemma RepeatedNameDiffers()
    ensures var xs := [Tool("1", "f", "a"), Tool("", "f", "b")];
      && Calls(AnthropicBlocks(xs).segs) == [Call("1", "f", "ab")] == CallsOf(GatheredFrom(xs).groups)
      && Calls(ResponsesItems(xs).segs) == [Call("1", "f", "a"), Call("1", "f", "b")]
      && CollectedFrom(xs).calls == [Call("1", "f", "a"), Call("", "f", "b")]
  {
    hide ToolStep, JointOf, Calls, Fold;
    var x, y := Tool("1", "f", "a"), Tool("", "f", "b");
    JointStart();
    JointPush([], x);
    JointPush([x], y);
    assert [] + [x] == [x] && [x] + [y] == [x, y];
    FirstCall("a");
    SecondName();
    JointTells([x, y]);
  }

  /** A call of another choice between a call and its last arguments: the index has moved on, and the
      chat completion makes a second call of them, without id and name. */
  lemma OtherChoiceSplits()
    ensures var xs := [Tool("1", "f", "a"), Elsewhere(1), Tool("", "", "b")];
      && Calls(AnthropicBlocks(xs).segs) == Calls(ResponsesItems(xs).segs) == [Call("1", "f", "ab")]
      && CollectedFrom(xs).calls == [Call("1", "f", "ab")]
      && CallsOf(GatheredFrom(xs).groups) == [Call("1", "f", "a"), Call("", "", "b")]
  {
    hide ToolStep, JointOf, Calls, Fold, Moves;
    var x, y, z := Tool("1", "f", "a"), Elsewhere(1), Tool("", "", "b");
    JointStart();
    JointPush([], x);
    JointPush([x], y);
    JointPush([x, y], z);
    assert [] + [x] == [x] && [x] + [y] == [x, y] && [x, y] + [z] == [x, y, z];
    FirstCall("a");
    assert Moves(1, 1) by { SecondMoves(); }
    SplitCall();
    JointTells([x, y, z]);
  }

  lemma SecondMoves()
    ensures Moves(1, 1)
  {}

  lemma SplitCall()
    ensures var j := ToolStep(AfterFirst("a").(ids := 2, moved := true), "", "", "b");
      && j.a.calls == j.r.calls == j.c == [Call("1", "f", "ab")]
      && j.o == [Call("1", "f", "a"), Call("", "", "b")]
  {
    var v := View([Call("1", "f", "a")], "1", "f", true);
    Fed(v, "b");
    CollectFed(v.calls, "b");
    GrowLast(v.calls, "b");
    assert v.calls[..0] == [] && "a" + "b" == "ab";
  }

  lemma JointTells(xs: seq<Atom>)
    ensures JointOf(xs).a.calls == Calls(AnthropicBlocks(xs).segs)
    ensures JointOf(xs).r.calls == Calls(ResponsesItems(xs).segs)
    ensures JointOf(xs).c == CollectedFrom(xs).calls && JointOf(xs).o == CallsOf(GatheredFrom(xs).groups)
  {}

  function AfterFirst(args: string): Joint {
    var v := View([Call("1", "f", args)], "1", "f", true);
    Joint(v, v, v.calls, v.calls, 1, false)
  }

  lemma FirstCall(args: string)
    ensures ToolStep(Joint(View([], "", "", false), View([], "", "", false), [], [], 0, false), "1", "f", args)
         == AfterFirst(args)
  {
    hide ViewTool, CollectCall;
    Opened(View([], "", "", false), "1", "f", args);
    Collected1([], "1", "f", args);
  }

  lemma SecondName()
    ensures var j := ToolStep(AfterFirst("a"), "", "f", "b");
      && j.a.calls == [Call("1", "f", "ab")] == j.o
      && j.r.calls == [Call("1", "f", "a"), Call("1", "f", "b")] && j.c == [Call("1", "f", "a"), Call("", "f", "b")]
  {
    var v := View([Call("1", "f", "a")], "1", "f", true);
    assert ViewTool(v, false, "", "f", "b") == ViewTool(v, false, "", "", "b");
    Fed(v, "b");
    GrowLast(v.calls, "b");
    assert v.calls[..0] == [] && "a" + "b" == "ab";
    assert Joined(v.calls, true, "", "f", "b") == [Call("1", "f", "ab")] == Joined(v.calls, true, "", "", "b");
    hide ViewTool, CollectCall, Joined;
    Opened(v, "", "f", "b");
    Collected1(v.calls, "", "f", "b");
  }

  lemma JointStart()
    ensures JointOf([]) == Joint(View([], "", "", false), View([], "", "", false), [], [], 0, false)
  {}
}
