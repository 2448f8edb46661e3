/**
 * What a client of the Anthropic stream may rely on, stated without the emitter:
 * an acceptor of the legal event streams, and a client that rebuilds the
 * blocks from the events it received.
 */
module AnthropicGrammar {
  import opened Chunks
  import opened Segments
  import opened AnthropicStream

  // ---------- the acceptor ----------

  datatype Phase =
    | Idle                               // nothing sent
    | Greeted                            // message_start and nothing else
    | Between(next: nat)                 // at least one block, all closed
    | Inside(index: nat, kind: Kind)     // a block is open
    | Stopping                           // message_delta sent
    | Stopped
    | Aborted                            // one error event sent
    | Illegal

  function Advance(p: Phase, e: Event): Phase {
    match e
    case MessageStart => if p.Idle? then Greeted else Illegal
    case BlockStart(i, kind, _, _) =>
      if (p.Greeted? && i == 0) || p == Between(i) then Inside(i, kind) else Illegal
    case BlockDelta(i, kind, _) => if p == Inside(i, kind) then p else Illegal
    case BlockStop(i) => if p.Inside? && p.index == i then Between(i + 1) else Illegal
    case MessageDelta(_) => if p.Between? then Stopping else Illegal
    case MessageStop => if p.Stopping? then Stopped else Illegal
    case Error(_) => if p.Idle? || p.Between? || p.Inside? then Aborted else Illegal
  }

  function Check(es: seq<Event>): Phase {
    if es == [] then Idle else Advance(Check(es[..|es| - 1]), es[|es| - 1])
  }

  /** Nothing at all, a whole message, or a message cut short by one error. */
  predicate Legal(es: seq<Event>) {
    var p := Check(es);
    p.Idle? || p.Stopped? || p.Aborted?
  }

  /** A client: every block start begins a block, every delta goes to the last one. */
  function Client(es: seq<Event>): seq<Segment> {
    if es == [] then []
    else
      var before := Client(es[..|es| - 1]);
      match es[|es| - 1]
      case BlockStart(_, kind, id, name) => before + [Segment(kind, id, name, [])]
      case BlockDelta(_, _, part) =>
        if before == [] then before
        else
          var n := |before| - 1;
          before[..n] + [before[n].(parts := before[n].parts + [part])]
      case _ => before
  }

  lemma ClientPush(es: seq<Event>, e: Event)
    ensures e.BlockStart? ==> Client(es + [e]) == Client(es) + [Segment(e.kind, e.id, e.name, [])]
    ensures e.BlockDelta? && Client(es) != [] ==>
      var before := Client(es);
      var n := |before| - 1;
      Client(es + [e]) == before[..n] + [before[n].(parts := before[n].parts + [e.part])]
    ensures !e.BlockStart? && !e.BlockDelta? ==> Client(es + [e]) == Client(es)
  {
    assert (es + [e])[..|es|] == es;
  }

  // ---------- the picture is legal and can be read back ----------

  function PhaseOf(segs: seq<Segment>, open: bool): Phase {
    var n := |segs|;
    if n == 0 then Greeted else if open then Inside(n - 1, segs[n - 1].kind) else Between(n)
  }

  predicate Pictured(es: seq<Event>, segs: seq<Segment>, open: bool) {
    Check(es) == PhaseOf(segs, open) && Client(es) == segs
  }

  lemma CheckLast(es: seq<Event>, e: Event)
    ensures Check(es + [e]) == Advance(Check(es), e)
  {
    assert (es + [e])[..|es|] == es;
  }

  lemma StartPictured(es: seq<Event>, segs: seq<Segment>, seg: Segment)
    requires Pictured(es, segs, false)
    ensures Pictured(es + [BlockStart(|segs|, seg.kind, seg.id, seg.name)], segs + [seg.(parts := [])], true)
  {
    hide Check, Client;
    CheckLast(es, BlockStart(|segs|, seg.kind, seg.id, seg.name));
    ClientPush(es, BlockStart(|segs|, seg.kind, seg.id, seg.name));
  }

  lemma DeltaPictured(es: seq<Event>, segs: seq<Segment>, seg: Segment, part: string)
    requires Pictured(es, segs + [seg], true)
    ensures Pictured(es + [BlockDelta(|segs|, seg.kind, part)], segs + [seg.(parts := seg.parts + [part])], true)
  {
    hide Check, Client;
    CheckLast(es, BlockDelta(|segs|, seg.kind, part));
    ClientPush(es, BlockDelta(|segs|, seg.kind, part));
    assert (segs + [seg])[..|segs|] == segs;
  }

  lemma StopPictured(es: seq<Event>, segs: seq<Segment>, seg: Segment)
    requires Pictured(es, segs + [seg], true)
    ensures Pictured(es + [BlockStop(|segs|)], segs + [seg], false)
  {
    hide Check, Client;
    CheckLast(es, BlockStop(|segs|));
    ClientPush(es, BlockStop(|segs|));
  }

  lemma {:induction false} DeltasPictured(es: seq<Event>, segs: seq<Segment>, seg: Segment, parts: seq<string>)
    requires Pictured(es, segs + [seg.(parts := [])], true)
    ensures Pictured(es + Deltas(|segs|, seg.kind, parts), segs + [seg.(parts := parts)], true)
    decreases |parts|
  {
    hide Pictured;
    var i := |segs|;
    if parts == [] {
      assert es + Deltas(i, seg.kind, parts) == es;
    } else {
      var fewer := parts[..|parts| - 1];
      var last := parts[|parts| - 1];
      DeltasPictured(es, segs, seg, fewer);
      var fs := es + Deltas(i, seg.kind, fewer);
      DeltaPictured(fs, segs, seg.(parts := fewer), last);
      assert es + Deltas(i, seg.kind, parts) == fs + [BlockDelta(i, seg.kind, last)];
      assert fewer + [last] == parts;
    }
  }

  lemma BlockPictured(es: seq<Event>, segs: seq<Segment>, seg: Segment, open: bool)
    requires Pictured(es, segs, false)
    ensures Pictured(es + BlockEvents(|segs|, seg, open), segs + [seg], open)
  {
    hide Pictured, Deltas;
    var n := |segs|;
    var start := BlockStart(n, seg.kind, seg.id, seg.name);
    var deltas := Deltas(n, seg.kind, seg.parts);
    StartPictured(es, segs, seg);
    DeltasPictured(es + [start], segs, seg, seg.parts);
    if open {
      assert es + BlockEvents(n, seg, open) == es + [start] + deltas;
    } else {
      StopPictured(es + [start] + deltas, segs, seg);
      assert es + BlockEvents(n, seg, open) == es + [start] + deltas + [BlockStop(n)];
    }
  }

  lemma {:induction false} BlocksPictured(segs: seq<Segment>, open: bool)
    requires open ==> segs != []
    ensures Pictured([MessageStart] + Blocks(segs, open), segs, open)
    decreases |segs|
  {
    if segs == [] {
      assert [MessageStart] + Blocks(segs, open) == [] + [MessageStart];
      CheckLast([], MessageStart);
      ClientPush([], MessageStart);
    } else {
      hide Pictured, BlockEvents;
      var n := |segs| - 1;
      BlocksPictured(segs[..n], false);
      BlockPictured([MessageStart] + Blocks(segs[..n], false), segs[..n], segs[n], open);
      assert [MessageStart] + Blocks(segs, open)
          == [MessageStart] + Blocks(segs[..n], false) + BlockEvents(n, segs[n], open);
      assert segs[..n] + [segs[n]] == segs;
    }
  }

  // ---------- theorems ----------

  /** An atom that opens no block: a finish reason, or a tool delta with no id, name or arguments. */
  predicate Silent(x: Atom) { x.Finish? || x.Elsewhere? || x == Tool("", "", "") }

  /** A finish frame came before anything that opens a block. */
  predicate FinishedEmpty(o: Outcome) {
    o.ending.Finished? && forall x :: x in AllAtoms(o.chunks) ==> Silent(x)
  }

  lemma EndedLegal(es: seq<Event>, segs: seq<Segment>, reason: string)
    requires Pictured(es, segs, false) && segs != []
    ensures Check(es + Closing(reason)) == Stopped && Client(es + Closing(reason)) == segs
  {
    var e := MessageDelta(MapStopReason(reason));
    CheckLast(es, e);
    ClientPush(es, e);
    assert es + Closing(reason) == es + [e] + [MessageStop];
    CheckLast(es + [e], MessageStop);
    ClientPush(es + [e], MessageStop);
  }

  lemma FailedLegal(es: seq<Event>, m: string)
    requires Check(es).Idle? || Check(es).Between? || Check(es).Inside?
    ensures Check(es + [Error(m)]) == Aborted && Client(es + [Error(m)]) == Client(es)
  {
    CheckLast(es, Error(m));
    ClientPush(es, Error(m));
  }

  /** Blocks are opened by reasoning, by text and by every tool delta that is not empty. */
  lemma {:induction false} OpensUnlessSilent(xs: seq<Atom>)
    ensures Fold<Scan>(AnthropicStep, EMPTY, xs).segs == [] <==> forall x :: x in xs ==> Silent(x)
  {
    if xs == [] {
    } else {
      var ys, x := xs[..|xs| - 1], xs[|xs| - 1];
      OpensUnlessSilent(ys);
      assert xs == ys + [x];
      StepOpens(Fold<Scan>(AnthropicStep, EMPTY, ys), x);
    }
  }

  lemma StepOpens(s: Scan, x: Atom)
    ensures AnthropicStep(s, x).segs == [] <==> s.segs == [] && Silent(x)
  {}

  /**
   * The emitted stream is legal exactly when no finish frame came before the
   * first block, and in every case a client rebuilds the segments from it.
   */
  lemma StreamLegal(o: Outcome)
    ensures Legal(Answer(o)) <==> !FinishedEmpty(o)
    ensures Client(Answer(o)) == AnthropicScan(o.chunks).segs
  {
    hide AnthropicScan, Check, Client;
    var s := AnthropicScan(o.chunks);
    AnythingOpens(o.chunks);
    Start();
    if s.segs != [] {
      BlocksPictured(s.segs, s.open);
      BlocksPictured(s.segs, false);
      EndedLegal([MessageStart] + Blocks(s.segs, false), s.segs, s.reason);
      if o.ending.Errored? {
        FailedLegal([MessageStart] + Blocks(s.segs, s.open), o.ending.message);
      }
    } else if o.ending.Errored? {
      FailedLegal([], o.ending.message);
    } else if o.ending.Finished? {
      EmptyFinish(s.reason);
    }
  }

  lemma AnythingOpens(chunks: seq<Chunk>)
    ensures AnthropicScan(chunks).segs == [] <==> forall x :: x in AllAtoms(chunks) ==> Silent(x)
  {
    OpensUnlessSilent(AllAtoms(chunks));
  }

  lemma Start()
    ensures Check([]) == Idle && Client([]) == []
  {}

  /** Such a stream is a message_delta and a message_stop without a message_start. */
  lemma EmptyFinish(reason: string)
    ensures var es := Rendered(false, [], false) + Closing(reason);
      es == [MessageDelta(MapStopReason(reason)), MessageStop] && !Legal(es) && Client(es) == []
  {
    var e := MessageDelta(MapStopReason(reason));
    var es := Rendered(false, [], false) + Closing(reason);
    assert es == [] + [e] + [MessageStop];
    CheckLast([], e);
    ClientPush([], e);
    CheckLast([] + [e], MessageStop);
    ClientPush([] + [e], MessageStop);
  }
}
