/**
 * What the upstream sends: server-sent frames whose payload is an envelope around
 * a chat chunk (proxy.go, openai.go, convert.go:509-537).
 *
 * JSON is taken as parsed: a frame carries what the envelope and its body turned
 * out to be.  Usage figures are left out.
 */
module Chunks {
  import opened Basics

  datatype ToolDelta = ToolDelta(id: string, name: string, args: string, index: int)

  datatype Choice = Choice(reasoning: string, content: string, tools: seq<ToolDelta>, finish: Option<string>)

  datatype Chunk = Chunk(choices: seq<Choice>)

  /** One instruction to a consumer; a chunk is read as a list of them. */
  datatype Atom =
    | Reason(text: string)
    | Say(text: string)
    | Tool(id: string, name: string, args: string)
    | Finish(reason: string)
    | Elsewhere(ids: nat)   // call ids in choices no consumer but the index counter looks at

  predicate Ends(choice: Choice) {
    choice.finish.Some? && choice.finish.value != "" && choice.finish.value != "null"
  }

  function ToolAtoms(tools: seq<ToolDelta>): (r: seq<Atom>)
    ensures |r| == |tools|
  {
    seq(|tools|, i requires 0 <= i < |tools| => Tool(tools[i].id, tools[i].name, tools[i].args))
  }

  lemma ToolAtomsPush(tools: seq<ToolDelta>, i: nat)
    requires i < |tools|
    ensures ToolAtoms(tools[..i + 1])
         == ToolAtoms(tools[..i]) + [Tool(tools[i].id, tools[i].name, tools[i].args)]
  {}

  /** Reasoning, then text, then tool calls, then the finish reason of the first choice. */
  function ChoiceAtoms(choice: Choice): seq<Atom> {
    (if choice.reasoning != "" then [Reason(choice.reasoning)] else [])
    + (if choice.content != "" then [Say(choice.content)] else [])
    + ToolAtoms(choice.tools)
    + (if Ends(choice) then [Finish(choice.finish.value)] else [])
  }

  /** How many calls a list of tool deltas opens by id. */
  function IdCount(tools: seq<ToolDelta>): nat {
    if tools == [] then 0
    else IdCount(tools[..|tools| - 1]) + (if tools[|tools| - 1].id != "" then 1 else 0)
  }

  function IdCounts(choices: seq<Choice>): nat {
    if choices == [] then 0
    else IdCounts(choices[..|choices| - 1]) + IdCount(choices[|choices| - 1].tools)
  }

  function Atoms(c: Chunk): seq<Atom> {
    if c.choices == [] then []
    else ChoiceAtoms(c.choices[0])
         + (if |c.choices| == 1 then [] else [Elsewhere(IdCounts(c.choices[1..]))])
  }

  function AllAtoms(cs: seq<Chunk>): seq<Atom> {
    if cs == [] then [] else AllAtoms(cs[..|cs| - 1]) + Atoms(cs[|cs| - 1])
  }

  /** Left fold over a list of atoms. */
  function Fold<S>(step: (S, Atom) -> S, s: S, xs: seq<Atom>): S {
    if xs == [] then s else step(Fold(step, s, xs[..|xs| - 1]), xs[|xs| - 1])
  }

  lemma {:induction false} FoldAppend<S>(step: (S, Atom) -> S, s: S, xs: seq<Atom>, ys: seq<Atom>)
    ensures Fold(step, s, xs + ys) == Fold(step, Fold(step, s, xs), ys)
    decreases |ys|
  {
    if ys == [] {
      assert xs + ys == xs;
    } else {
      var zs := xs + ys;
      assert zs[..|zs| - 1] == xs + ys[..|ys| - 1];
      FoldAppend(step, s, xs, ys[..|ys| - 1]);
    }
  }

  lemma FoldIf<S>(step: (S, Atom) -> S, s: S, given: bool, x: Atom)
    ensures Fold(step, s, if given then [x] else []) == if given then step(s, x) else s
  {
    assert [x][..0] == [];
    assert Fold(step, s, [x][..0]) == s;
  }

  lemma FoldPush<S>(step: (S, Atom) -> S, s: S, xs: seq<Atom>, x: Atom)
    ensures Fold(step, s, xs + [x]) == step(Fold(step, s, xs), x)
  {
    assert (xs + [x])[..|xs|] == xs;
  }

  /** A fold through a chunk, one part of the chunk at a time. */
  function Through<S>(step: (S, Atom) -> S, s: S, c: Chunk): S {
    if c.choices == [] then s
    else
      var ch := c.choices[0];
      var s1 := if ch.reasoning != "" then step(s, Reason(ch.reasoning)) else s;
      var s2 := if ch.content != "" then step(s1, Say(ch.content)) else s1;
      var s3 := Fold(step, s2, ToolAtoms(ch.tools));
      var s4 := if Ends(ch) then step(s3, Finish(ch.finish.value)) else s3;
      if |c.choices| == 1 then s4 else step(s4, Elsewhere(IdCounts(c.choices[1..])))
  }

  lemma FoldThrough<S>(step: (S, Atom) -> S, s: S, c: Chunk)
    ensures Fold(step, s, Atoms(c)) == Through(step, s, c)
  {
    hide Fold;
    if c.choices == [] {
      FoldIf(step, s, false, Elsewhere(0));
    } else {
      var ch := c.choices[0];
      FoldIf(step, s, ch.reasoning != "", Reason(ch.reasoning));
      var xs := if ch.reasoning != "" then [Reason(ch.reasoning)] else [];
      FoldIf(step, Fold(step, s, xs), ch.content != "", Say(ch.content));
      var ys := if ch.content != "" then [Say(ch.content)] else [];
      FoldAppend(step, s, xs, ys);
      FoldAppend(step, s, xs + ys, ToolAtoms(ch.tools));
      var zs := xs + ys + ToolAtoms(ch.tools);
      var reason := if Ends(ch) then ch.finish.value else "";
      FoldIf(step, Fold(step, s, zs), Ends(ch), Finish(reason));
      FoldAppend(step, s, zs, if Ends(ch) then [Finish(reason)] else []);
      var n := IdCounts(c.choices[1..]);
      FoldIf(step, Fold(step, s, ChoiceAtoms(ch)), |c.choices| != 1, Elsewhere(n));
      FoldAppend(step, s, ChoiceAtoms(ch), if |c.choices| != 1 then [Elsewhere(n)] else []);
    }
  }

  // ---------- frames ----------

  /** An error is told by a text that is never empty: where upstream sends none, one is made up. */
  type ErrorText = s: string | s != "" witness "error"

  /** What a frame's data holds once trimmed and parsed. */
  datatype Payload =
    | Blank                         // nothing but white space
    | Unparsed                      // not an envelope
    | Refused(message: ErrorText)   // an envelope with a status other than 0 or 200
    | Hollow                        // an envelope without a body, or with a body that is no chunk
    | Faulted(message: ErrorText)   // a chunk that carries an error message
    | Carried(chunk: Chunk)

  datatype Frame = Frame(event: string, payload: Payload)

  datatype Ending = Finished | Errored(message: ErrorText) | Exhausted

  datatype Outcome = Outcome(chunks: seq<Chunk>, ending: Ending)

  predicate Skipped(p: Payload) { p.Blank? || p.Unparsed? || p.Hollow? }

  /** What the streaming readers take from the frames: the finish event is looked at first. */
  function Read(frames: seq<Frame>): Outcome {
    if frames == [] then Outcome([], Exhausted)
    else if frames[0].event == "finish" then Outcome([], Finished)
    else After(frames[0].payload, Read(frames[1..]))
  }

  /** What collectAnthropic takes: a blank payload is skipped before the event is looked at. */
  function ReadBlankFirst(frames: seq<Frame>): Outcome {
    if frames == [] then Outcome([], Exhausted)
    else if frames[0].event == "finish" && !frames[0].payload.Blank? then Outcome([], Finished)
    else After(frames[0].payload, ReadBlankFirst(frames[1..]))
  }

  function After(p: Payload, rest: Outcome): Outcome {
    match p
    case Blank => rest
    case Unparsed => rest
    case Hollow => rest
    case Refused(m) => Outcome([], Errored(m))
    case Faulted(m) => Outcome([], Errored(m))
    case Carried(c) => Outcome([c] + rest.chunks, rest.ending)
  }

  /** The frames from the first one that stops the streaming readers. */
  function FromStop(frames: seq<Frame>): seq<Frame> {
    if frames == [] then []
    else if frames[0].event == "finish" || frames[0].payload.Refused? || frames[0].payload.Faulted? then frames
    else FromStop(frames[1..])
  }

  /** A blank finish frame stops the streaming readers and is overlooked by collectAnthropic. */
  predicate BlankFinish(frames: seq<Frame>) {
    frames != [] && frames[0].event == "finish" && frames[0].payload.Blank?
  }

  /** No chunk and no error before the next finish frame that carries data. */
  predicate QuietUntilFinish(frames: seq<Frame>) {
    exists k :: 0 <= k < |frames| && frames[k].event == "finish" && !frames[k].payload.Blank?
      && forall i :: 0 <= i < k ==> Skipped(frames[i].payload)
  }

  lemma {:induction false} QuietReads(frames: seq<Frame>)
    ensures ReadBlankFirst(frames) == Outcome([], Finished) <==> QuietUntilFinish(frames)
  {
    if frames == [] {
    } else if frames[0].event == "finish" && !frames[0].payload.Blank? {
      assert QuietUntilFinish(frames);
    } else {
      var rest := frames[1..];
      QuietReads(rest);
      if QuietUntilFinish(rest) && Skipped(frames[0].payload) {
        var k :| 0 <= k < |rest| && rest[k].event == "finish" && !rest[k].payload.Blank?
          && forall i :: 0 <= i < k ==> Skipped(rest[i].payload);
        assert frames[k + 1] == rest[k];
        assert forall i :: 0 < i < k + 1 ==> frames[i] == rest[i - 1];
      }
      if QuietUntilFinish(frames) {
        var k :| 0 <= k < |frames| && frames[k].event == "finish" && !frames[k].payload.Blank?
          && forall i :: 0 <= i < k ==> Skipped(frames[i].payload);
        assert k > 0 && Skipped(frames[0].payload);
        assert rest[k - 1] == frames[k];
        assert forall i :: 0 <= i < k - 1 ==> rest[i] == frames[i + 1];
      }
    }
  }

  /**
   * The two reading loops take the same chunks and the same ending from a
   * stream exactly when its first stopping frame is not a blank finish frame,
   * or only skipped frames follow it up to a finish frame with data.
   */
  lemma {:induction false} ReadersAgree(frames: seq<Frame>)
    ensures Read(frames) == ReadBlankFirst(frames)
       <==> (BlankFinish(FromStop(frames)) ==> QuietUntilFinish(FromStop(frames)[1..]))
  {
    if frames == [] {
    } else if frames[0].event == "finish" {
      if frames[0].payload.Blank? {
        QuietReads(frames[1..]);
      }
    } else {
      ReadersAgree(frames[1..]);
      if frames[0].payload.Carried? {
        var c := frames[0].payload.chunk;
        var a, b := Read(frames[1..]), ReadBlankFirst(frames[1..]);
        if [c] + a.chunks == [c] + b.chunks {
          assert a.chunks == ([c] + a.chunks)[1..] == b.chunks;
        }
      }
    }
  }

  /** A finish frame without data ends a streamed answer but not an aggregated one. */
  lemma BlankFinishOverlooked(c: Chunk)
    ensures var frames := [Frame("finish", Blank), Frame("", Carried(c))];
      && Read(frames) == Outcome([], Finished)
      && ReadBlankFirst(frames) == Outcome([c], Exhausted)
  {
    var frames := [Frame("finish", Blank), Frame("", Carried(c))];
    assert frames[1..] == [Frame("", Carried(c))];
    assert frames[1..][1..] == [];
    assert ReadBlankFirst(frames[1..][1..]) == Outcome([], Exhausted);
    assert [c] + [] == [c];
  }

  // ---------- reading step by step ----------

  function Prepend(chunks: seq<Chunk>, rest: Outcome): Outcome {
    Outcome(chunks + rest.chunks, rest.ending)
  }

  lemma AllAtomsPush(chunks: seq<Chunk>, c: Chunk)
    ensures AllAtoms(chunks + [c]) == AllAtoms(chunks) + Atoms(c)
  {
    assert (chunks + [c])[..|chunks|] == chunks;
  }

  lemma ReadStep(taken: seq<Chunk>, frames: seq<Frame>, i: nat)
    requires i < |frames| && frames[i].event != "finish"
    ensures Skipped(frames[i].payload) ==>
      Prepend(taken, Read(frames[i..])) == Prepend(taken, Read(frames[i + 1..]))
    ensures frames[i].payload.Carried? ==>
      Prepend(taken, Read(frames[i..])) == Prepend(taken + [frames[i].payload.chunk], Read(frames[i + 1..]))
    ensures frames[i].payload.Refused? || frames[i].payload.Faulted? ==>
      Prepend(taken, Read(frames[i..])) == Outcome(taken, Errored(frames[i].payload.message))
  {
    assert frames[i..][1..] == frames[i + 1..];
    if frames[i].payload.Carried? {
      var c := frames[i].payload.chunk;
      assert taken + ([c] + Read(frames[i + 1..]).chunks) == taken + [c] + Read(frames[i + 1..]).chunks;
    }
  }

  lemma ReadNothing()
    ensures Read([]) == Outcome([], Exhausted)
  {}

  lemma ReadFinish(frames: seq<Frame>, i: nat)
    requires i < |frames| && frames[i].event == "finish"
    ensures Read(frames[i..]) == Outcome([], Finished)
  {}
}
