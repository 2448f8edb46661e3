/**
 * From the bytes of an upstream body to what is read from it: the event reader and the
 * callbacks of streamAnthropic (proxy.go:700-747), collectAnthropic (proxy.go:790-822)
 * and upstreamChunks (openai.go:108-148) put together.
 */
module StreamBody {
  import opened Basics
  import opened SseParser
  import opened Chunks
  import opened Collectors
  import opened CallAgreement
  import opened AnswersAgree

  /** What the JSON parser finds in data that is not blank. */
  type Parsed = p: Payload | !p.Blank? witness Unparsed

  function PayloadOf(parse: string -> Parsed, data: string): Payload {
    if TrimSpace(data) == "" then Blank else parse(TrimSpace(data))
  }

  function FrameOf(parse: string -> Parsed, f: SseFrame): Frame { Frame(f.event, PayloadOf(parse, f.data)) }

  function FramesOf(parse: string -> Parsed, fs: seq<SseFrame>): seq<Frame> {
    if fs == [] then [] else [FrameOf(parse, fs[0])] + FramesOf(parse, fs[1..])
  }

  predicate Fails(p: Payload) { p.Refused? || p.Faulted? }

  /** The callback of streamAnthropic and upstreamChunks: the event is looked at first. */
  function Streaming(parse: string -> Parsed): Callback {
    (before: seq<SseFrame>, f: SseFrame) => f.event != "finish" && !Fails(PayloadOf(parse, f.data))
  }

  /** The callback of collectAnthropic: blank data is looked at first. */
  function Aggregating(parse: string -> Parsed): Callback {
    (before: seq<SseFrame>, f: SseFrame) =>
      PayloadOf(parse, f.data).Blank? || (f.event != "finish" && !Fails(PayloadOf(parse, f.data)))
  }

  function Always(): Callback { (before: seq<SseFrame>, f: SseFrame) => true }

  // ---------- a callback that stops ----------

  lemma {:induction false} FeedMore(p: Parser, lines: seq<string>)
    requires !p.stopped
    ensures var q := Feed(p, lines, Always()); !q.stopped && p.delivered <= q.delivered
    decreases |lines|
  {
    hide Step;
    if lines != [] {
      StepDelivers(p, lines[0], Always());
      FeedMore(Step(p, lines[0], Always()), lines[1..]);
    }
  }

  lemma {:induction false} RefusedOnce(before: seq<SseFrame>, f: SseFrame, more: seq<SseFrame>, accept: Callback)
    ensures UpToRefused(before, [f] + more, accept)
         == if accept(before, f) then UpToRefused(before + [f], more, accept) else before + [f]
    ensures Refuses(before, [f] + more, accept)
       <==> !accept(before, f) || Refuses(before + [f], more, accept)
  {
    assert ([f] + more)[1..] == more;
  }

  /** A line delivers one frame, after which the callback may stop, or none. */
  lemma StepDelivers(p: Parser, line: string, accept: Callback)
    requires !p.stopped
    ensures var q, r, f := Step(p, line, accept), Step(p, line, Always()), SseFrame(p.event, p.data);
      && !r.stopped
      && if r.delivered == p.delivered then q == r
         else r.delivered == p.delivered + [f] && q == r.(stopped := !accept(p.delivered, f))
  {}

  lemma AfterFirst(all: seq<SseFrame>, before: seq<SseFrame>, f: SseFrame)
    requires before + [f] <= all
    ensures all[|before|..] == [f] + all[|before| + 1..]
  {
    assert all[|before|] == (before + [f])[|before|];
  }

  /** With a callback that stops, the frames of the whole text up to the first one it refuses. */
  lemma {:induction false} FeedStops(p: Parser, lines: seq<string>, accept: Callback)
    requires !p.stopped
    ensures var q, all := Feed(p, lines, accept), Feed(p, lines, Always());
      && p.delivered <= all.delivered
      && var more := all.delivered[|p.delivered|..];
      && q.delivered == UpToRefused(p.delivered, more, accept) && q.stopped == Refuses(p.delivered, more, accept)
      && (!q.stopped ==> q == all)
    decreases |lines|
  {
    hide Step, UpToRefused, Refuses;
    if lines == [] {
      NoneRefused(p.delivered, accept);
      assert p.delivered[|p.delivered|..] == [];
    } else {
      var q, r := Step(p, lines[0], accept), Step(p, lines[0], Always());
      StepDelivers(p, lines[0], accept);
      FeedMore(r, lines[1..]);
      if r.delivered == p.delivered {
        FeedStops(q, lines[1..], accept);
      } else {
        var f, all := SseFrame(p.event, p.data), Feed(r, lines[1..], Always()).delivered;
        AfterFirst(all, p.delivered, f);
        RefusedOnce(p.delivered, f, all[|p.delivered| + 1..], accept);
        if q.stopped {
          FeedStopped(q, lines[1..], accept);
        } else {
          FeedStops(q, lines[1..], accept);
        }
      }
    }
  }

  lemma NoneRefused(before: seq<SseFrame>, accept: Callback)
    ensures UpToRefused(before, [], accept) == before && !Refuses(before, [], accept)
  {}

  /** One more frame at the end is taken unless one before it was refused. */
  lemma {:induction false} UpToAppend(before: seq<SseFrame>, fs: seq<SseFrame>, f: SseFrame, accept: Callback)
    ensures UpToRefused(before, fs + [f], accept)
         == UpToRefused(before, fs, accept) + (if Refuses(before, fs, accept) then [] else [f])
    decreases |fs|
  {
    if fs == [] {
      RefusedOnce(before, f, [], accept);
      assert fs + [f] == [f] + [];
    } else {
      assert fs + [f] == [fs[0]] + (fs[1..] + [f]) && fs == [fs[0]] + fs[1..];
      RefusedOnce(before, fs[0], fs[1..] + [f], accept);
      RefusedOnce(before, fs[0], fs[1..], accept);
      UpToAppend(before + [fs[0]], fs[1..], f, accept);
    }
  }

  /** Every frame in a body, whatever the callback would say. */
  function Sent(text: string, broken: bool): seq<SseFrame> { SseParser.Delivered(text, broken, Always()) }

  /** For any bytes: a callback is handed the frames of the body up to the first it refuses. */
  lemma DeliveredStops(text: string, broken: bool, accept: Callback)
    ensures SseParser.Delivered(text, broken, accept) == UpToRefused([], Sent(text, broken), accept)
  {
    hide Feed, Lines, UpToRefused, Refuses;
    var p, all := Feed(START, Lines(text), accept), Feed(START, Lines(text), Always());
    FeedMore(START, Lines(text));
    FeedStops(START, Lines(text), accept);
    assert all.delivered[|START.delivered|..] == all.delivered;
    if !broken && (all.event != "" || all.data != "") {
      UpToAppend([], all.delivered, SseFrame(all.event, all.data), accept);
    }
  }

  // ---------- what is read ----------

  lemma {:induction false} StreamingReads(parse: string -> Parsed, before: seq<SseFrame>, fs: seq<SseFrame>)
    ensures var taken := UpToRefused(before, fs, Streaming(parse));
      before <= taken && Read(FramesOf(parse, taken[|before|..])) == Read(FramesOf(parse, fs))
    decreases |fs|
  {
    hide TrimSpace;
    var accept := Streaming(parse);
    if fs != [] {
      var f := fs[0];
      if accept(before, f) {
        StreamingReads(parse, before + [f], fs[1..]);
        var taken := UpToRefused(before, fs, accept);
        assert taken[|before|..][1..] == taken[|before| + 1..];
        assert taken[|before|..][0] == f;
      } else {
        assert (before + [f])[|before|..] == [f];
        assert FramesOf(parse, [f])[0] == FrameOf(parse, f) == FramesOf(parse, fs)[0];
      }
    }
  }

  lemma {:induction false} AggregatingReads(parse: string -> Parsed, before: seq<SseFrame>, fs: seq<SseFrame>)
    ensures var taken := UpToRefused(before, fs, Aggregating(parse));
      before <= taken && ReadBlankFirst(FramesOf(parse, taken[|before|..])) == ReadBlankFirst(FramesOf(parse, fs))
    decreases |fs|
  {
    hide TrimSpace;
    var accept := Aggregating(parse);
    if fs != [] {
      var f := fs[0];
      if accept(before, f) {
        AggregatingReads(parse, before + [f], fs[1..]);
        var taken := UpToRefused(before, fs, accept);
        assert taken[|before|..][1..] == taken[|before| + 1..];
        assert taken[|before|..][0] == f;
      } else {
        assert (before + [f])[|before|..] == [f];
        assert FramesOf(parse, [f])[0] == FrameOf(parse, f) == FramesOf(parse, fs)[0];
      }
    }
  }

  /** What streamAnthropic and upstreamChunks take from a body. */
  function Streamed(parse: string -> Parsed, text: string, broken: bool): Outcome {
    Read(FramesOf(parse, SseParser.Delivered(text, broken, Streaming(parse))))
  }

  /** What collectAnthropic takes from a body. */
  function Aggregated(parse: string -> Parsed, text: string, broken: bool): Outcome {
    ReadBlankFirst(FramesOf(parse, SseParser.Delivered(text, broken, Aggregating(parse))))
  }

  /** For any bytes: stopping early loses nothing, the outcome is that of all frames in the body. */
  lemma BodyRead(parse: string -> Parsed, text: string, broken: bool)
    ensures Streamed(parse, text, broken) == Read(FramesOf(parse, Sent(text, broken)))
    ensures Aggregated(parse, text, broken) == ReadBlankFirst(FramesOf(parse, Sent(text, broken)))
  {
    hide Read, ReadBlankFirst, Sent, UpToRefused;
    var fs := Sent(text, broken);
    DeliveredStops(text, broken, Streaming(parse));
    DeliveredStops(text, broken, Aggregating(parse));
    StreamingReads(parse, [], fs);
    AggregatingReads(parse, [], fs);
    var taken, kept := UpToRefused([], fs, Streaming(parse)), UpToRefused([], fs, Aggregating(parse));
    assert taken[0..] == taken && kept[0..] == kept;
  }

  lemma {:induction false} AllAccepted(before: seq<SseFrame>, fs: seq<SseFrame>)
    ensures UpToRefused(before, fs, Always()) == before + fs
    decreases |fs|
  {
    if fs == [] {
      assert before + [] == before;
    } else {
      AllAccepted(before + [fs[0]], fs[1..]);
      assert before + [fs[0]] + fs[1..] == before + fs;
    }
  }

  /** Printed frames, with LF or CRLF and however the body ends, are read as those frames. */
  lemma PrintedBody(parse: string -> Parsed, fs: seq<SseFrame>, crlf: bool, broken: bool)
    requires forall f :: f in fs ==> Printable(f)
    ensures Streamed(parse, Print(fs, crlf), broken) == Read(FramesOf(parse, fs))
    ensures Aggregated(parse, Print(fs, crlf), broken) == ReadBlankFirst(FramesOf(parse, fs))
  {
    hide Streamed, Aggregated, Read, ReadBlankFirst, UpToRefused, SseParser.Delivered, Print;
    BodyRead(parse, Print(fs, crlf), broken);
    PrintedRead(fs, crlf, broken, Always());
    AllAccepted([], fs);
    assert [] + fs == fs;
  }

  // ---------- five answers from the bytes ----------

  /** All five requests, served from one body: a read error is seen by all but collectAnthropic. */
  predicate BodyAgree(ids: nat -> string, valid: string -> bool, parse: string -> Parsed, text: string,
                      readError: string) {
    AllAgree(ids, valid, Streamed(parse, text, readError != ""), Aggregated(parse, text, readError != ""), readError)
  }

  /**
   * From the bytes: what FiveAgreeIff says of the frames of the body decides whether all
   * five answers list the same calls; where the body is printed frames, these are the frames.
   */
  lemma BodyAgreeIff(ids: nat -> string, valid: string -> bool, parse: string -> Parsed, text: string,
                     readError: string)
    ensures var frames := FramesOf(parse, Sent(text, readError != ""));
      var o := Read(frames);
      var calls, beyond := Collect(o.chunks).calls, AllAtoms(Beyond(frames));
      BodyAgree(ids, valid, parse, text, readError) <==>
        && Failed(o, readError) == "" && Failure(ReadBlankFirst(frames).ending) == ""
        && AllFit(AllAtoms(o.chunks)) && OpensNothing(beyond)
        && forall i :: 0 <= i < |calls| ==>
          DeliveredArgs(valid, ArgumentsAfter(calls, i, Arguments(beyond))) == calls[i].args
    ensures forall fs: seq<SseFrame>, crlf ::
      (forall f :: f in fs ==> Printable(f)) && text == Print(fs, crlf) ==> Sent(text, readError != "") == fs
  {
    hide AllAgree, Streamed, Aggregated, Read, ReadBlankFirst, AllFit, OpensNothing, Arguments, ArgumentsAfter,
      DeliveredArgs, AllAtoms, Beyond, Sent, Print, Printable;
    BodyRead(parse, text, readError != "");
    FiveAgreeIff(ids, valid, FramesOf(parse, Sent(text, readError != "")), readError);
    forall fs: seq<SseFrame>, crlf | (forall f :: f in fs ==> Printable(f)) && text == Print(fs, crlf)
      ensures Sent(text, readError != "") == fs
    {
      SentPrinted(fs, crlf, readError != "");
    }
  }

  lemma SentPrinted(fs: seq<SseFrame>, crlf: bool, broken: bool)
    requires forall f :: f in fs ==> Printable(f)
    ensures Sent(Print(fs, crlf), broken) == fs
  {
    hide UpToRefused, SseParser.Delivered, Print;
    PrintedRead(fs, crlf, broken, Always());
    AllAccepted([], fs);
    assert [] + fs == fs;
  }
}
