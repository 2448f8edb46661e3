/**
 * What a client of the Responses stream may rely on, stated without the emitter:
 * an acceptor of the legal event streams that remembers the finished items.
 */
module ResponsesGrammar {
  import opened Chunks
  import opened Segments
  import opened ResponsesStream

  /** How far an item has come; its text is what its deltas have said so far. */
  datatype Stage = Added | Filling | TextEnded | PartEnded

  datatype Phase =
    | Fresh
    | Announced
    | Listing(done: seq<Item>)                           // no item is open
    | Open(done: seq<Item>, item: Item, stage: Stage)    // the item after the done ones is open
    | Whole(done: seq<Item>)                             // completed
    | Aborted
    | Illegal

  predicate At(p: Phase, stage: Stage, itemId: string, index: nat) {
    p.Open? && p.stage == stage && p.item.itemId == itemId && index == |p.done|
  }

  /**
   * Items open one at a time under the number of items done before; a part is
   * announced for reasoning and text; deltas add up; each done event repeats what
   * the deltas added up to; completion lists exactly the done items.
   */
  function Advance(p: Phase, b: Body): Phase {
    match b
    case Created => if p.Fresh? then Announced else Illegal
    case InProgress => if p.Announced? then Listing([]) else Illegal
    case ItemAdded(i, item) =>
      if p.Listing? && i == |p.done| && item.text == ""
      then Open(p.done, item, if item.kind == ToolUse then Filling else Added) else Illegal
    case PartAdded(id, i) => if At(p, Added, id, i) then p.(stage := Filling) else Illegal
    case TextDelta(kind, id, i, part) =>
      if At(p, Filling, id, i) && p.item.kind == kind
      then p.(item := p.item.(text := p.item.text + part)) else Illegal
    case TextDone(kind, id, i, text) =>
      if At(p, Filling, id, i) && p.item.kind == kind && text == p.item.text
      then p.(stage := if kind == ToolUse then PartEnded else TextEnded) else Illegal
    case PartDone(id, i, text) =>
      if At(p, TextEnded, id, i) && text == p.item.text then p.(stage := PartEnded) else Illegal
    case ItemDone(i, item) =>
      if At(p, PartEnded, item.itemId, i) && item == p.item then Listing(p.done + [item]) else Illegal
    case Completed(_, output) => if p.Listing? && output == p.done then Whole(output) else Illegal
    case Failed(_) => if p.Listing? || p.Open? then Aborted else Illegal
  }

  function Run(p: Phase, bs: seq<Body>): Phase {
    if bs == [] then p else Advance(Run(p, bs[..|bs| - 1]), bs[|bs| - 1])
  }

  function Bodies(es: seq<Event>): seq<Body> {
    seq(|es|, i requires 0 <= i < |es| => es[i].body)
  }

  function Check(es: seq<Event>): Phase { Run(Fresh, Bodies(es)) }

  predicate NumberedFromOne(es: seq<Event>) {
    forall i :: 0 <= i < |es| ==> es[i].sequenceNumber == i + 1
  }

  lemma {:induction false} RunAppend(p: Phase, bs: seq<Body>, cs: seq<Body>)
    ensures Run(p, bs + cs) == Run(Run(p, bs), cs)
    decreases |cs|
  {
    if cs == [] {
      assert bs + cs == bs;
    } else {
      assert (bs + cs)[..|bs + cs| - 1] == bs + cs[..|cs| - 1];
      RunAppend(p, bs, cs[..|cs| - 1]);
    }
  }

  lemma RunOne(p: Phase, b: Body)
    ensures Run(p, [b]) == Advance(p, b)
  {
    assert [b][..0] == [];
    assert Run(p, [b][..0]) == p;
  }

  lemma RunTwo(p: Phase, b: Body, c: Body)
    ensures Run(p, [b, c]) == Advance(Advance(p, b), c)
  {
    RunOne(p, b);
    RunOne(Advance(p, b), c);
    RunAppend(p, [b], [c]);
    assert [b] + [c] == [b, c];
  }

  lemma RunThree(p: Phase, b: Body, c: Body, d: Body)
    ensures Run(p, [b, c, d]) == Advance(Advance(Advance(p, b), c), d)
  {
    RunTwo(p, b, c);
    RunOne(Advance(Advance(p, b), c), d);
    RunAppend(p, [b, c], [d]);
    assert [b, c] + [d] == [b, c, d];
  }

  // ---------- one item ----------

  lemma {:induction false} DeltasAddUp(ids: nat -> string, done: seq<Item>, seg: Segment)
    ensures var k := |done|;
      Run(Open(done, ItemOf(ids, k, seg, ""), Filling), Deltas(ids, k, seg))
        == Open(done, ItemOf(ids, k, seg, Concat(seg.parts)), Filling)
    decreases |seg.parts|
  {
    var k := |done|;
    var p := Open(done, ItemOf(ids, k, seg, ""), Filling);
    if seg.parts == [] {
      assert Deltas(ids, k, seg) == [];
    } else {
      var n := |seg.parts| - 1;
      var fewer := seg.(parts := seg.parts[..n]);
      DeltasAddUp(ids, done, fewer);
      var e := TextDelta(seg.kind, Prefix(seg.kind) + ids(k), k, seg.parts[n]);
      assert Deltas(ids, k, seg) == Deltas(ids, k, fewer) + [e];
      RunAppend(p, Deltas(ids, k, fewer), [e]);
      RunOne(Run(p, Deltas(ids, k, fewer)), e);
    }
  }

  lemma ItemOpens(ids: nat -> string, done: seq<Item>, seg: Segment)
    ensures Run(Listing(done), Opening(ids, |done|, seg)) == Open(done, ItemOf(ids, |done|, seg, ""), Filling)
  {
    hide Run;
    var item := ItemOf(ids, |done|, seg, "");
    if seg.kind == ToolUse {
      RunOne(Listing(done), ItemAdded(|done|, item));
    } else {
      RunTwo(Listing(done), ItemAdded(|done|, item), PartAdded(item.itemId, |done|));
    }
  }

  lemma ItemCloses(ids: nat -> string, done: seq<Item>, seg: Segment)
    ensures var item := ItemOf(ids, |done|, seg, Concat(seg.parts));
      Run(Open(done, item, Filling), Closing(ids, |done|, seg)) == Listing(done + [item])
  {
    hide Run, Concat;
    var item := ItemOf(ids, |done|, seg, Concat(seg.parts));
    var p := Open(done, item, Filling);
    if seg.kind == ToolUse {
      RunTwo(p, TextDone(ToolUse, item.itemId, |done|, item.text), ItemDone(|done|, item));
    } else {
      RunThree(p, TextDone(seg.kind, item.itemId, |done|, item.text),
               PartDone(item.itemId, |done|, item.text), ItemDone(|done|, item));
    }
  }

  lemma ItemRuns(ids: nat -> string, done: seq<Item>, seg: Segment, open: bool)
    ensures var item := ItemOf(ids, |done|, seg, Concat(seg.parts));
      Run(Listing(done), ItemBodies(ids, |done|, seg, open))
        == if open then Open(done, item, Filling) else Listing(done + [item])
  {
    hide Run, Concat;
    var k := |done|;
    var opening, deltas, closing := Opening(ids, k, seg), Deltas(ids, k, seg), Closing(ids, k, seg);
    ItemOpens(ids, done, seg);
    DeltasAddUp(ids, done, seg);
    RunAppend(Listing(done), opening, deltas);
    if open {
      assert ItemBodies(ids, k, seg, open) == opening + deltas;
    } else {
      ItemCloses(ids, done, seg);
      RunAppend(Listing(done), opening + deltas, closing);
    }
  }

  // ---------- the whole stream ----------

  function PhaseOf(ids: nat -> string, segs: seq<Segment>, open: bool): Phase
    requires open ==> segs != []
  {
    if open then
      var n := |segs| - 1;
      Open(DoneItems(ids, segs[..n]), ItemOf(ids, n, segs[n], Concat(segs[n].parts)), Filling)
    else Listing(DoneItems(ids, segs))
  }

  lemma {:induction false} RenderedRuns(ids: nat -> string, segs: seq<Segment>, open: bool)
    requires open ==> segs != []
    ensures Run(Fresh, Rendered(ids, segs, open)) == PhaseOf(ids, segs, open)
    decreases |segs|
  {
    hide Run, Concat;
    if segs == [] {
      RunTwo(Fresh, Created, InProgress);
      assert DoneItems(ids, segs) == [];
    } else {
      var n := |segs| - 1;
      RenderedRuns(ids, segs[..n], false);
      var done := DoneItems(ids, segs[..n]);
      ItemRuns(ids, done, segs[n], open);
      RunAppend(Fresh, Rendered(ids, segs[..n], false), ItemBodies(ids, n, segs[n], open));
      assert DoneItems(ids, segs) == done + [ItemOf(ids, n, segs[n], Concat(segs[n].parts))];
    }
  }

  /**
   * Whatever the chunks and however the stream ends: the events are numbered
   * 1, 2, 3, ..., the acceptor accepts them, a failure is the last event, and a
   * completed stream lists one finished item per segment, in order.
   */
  lemma StreamLegal(ids: nat -> string, chunks: seq<Chunk>, failed: string)
    ensures var es := Answer(ids, chunks, failed);
      && NumberedFromOne(es)
      && Check(es) == if failed != "" then Aborted else Whole(DoneItems(ids, ResponsesScan(chunks).segs))
  {
    hide Run, Concat, ResponsesScan, Rendered, Status;
    var s := ResponsesScan(chunks);
    var es := Answer(ids, chunks, failed);
    if failed != "" {
      var bs := Rendered(ids, s.segs, s.open);
      RenderedRuns(ids, s.segs, s.open);
      RunAppend(Fresh, bs, [Failed(failed)]);
      RunOne(Run(Fresh, bs), Failed(failed));
      assert Bodies(es) == bs + [Failed(failed)];
    } else {
      var bs := Rendered(ids, s.segs, false);
      var last := Completed(Status(s.reason), DoneItems(ids, s.segs));
      RenderedRuns(ids, s.segs, false);
      RunAppend(Fresh, bs, [last]);
      RunOne(Run(Fresh, bs), last);
      assert Bodies(es) == bs + [last];
    }
  }

  /** The ids of the finished items tell their kinds, and are otherwise the fresh ids in order. */
  lemma ItemIds(ids: nat -> string, chunks: seq<Chunk>, k: nat)
    requires k < |ResponsesScan(chunks).segs|
    ensures var item := DoneItems(ids, ResponsesScan(chunks).segs)[k];
      item.itemId == (match item.kind case Thinking => "rs_" case Text => "msg_" case ToolUse => "fc_") + ids(k)
  {
    hide ResponsesScan;
  }
}
