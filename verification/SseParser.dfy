/**
 * The server-sent event reader (proxy.go:455-510).  Unlike section 9.2.6 of the WHATWG
 * HTML standard it joins repeated event fields, delivers a frame with an event name and
 * no data, flushes at end of file, and takes a line to end at LF only.
 */
module SseParser {

  datatype SseFrame = SseFrame(event: string, data: string)

  /** The callback: given the frames delivered before, whether to go on after this one. */
  type Callback = (seq<SseFrame>, SseFrame) -> bool

  // ---------- lines ----------

  /** The length of the first line, its line feed included. */
  function LineEnd(text: string): (k: nat)
    ensures k <= |text| && (text != "" ==> k > 0)
    ensures forall i :: 0 <= i < k - 1 ==> text[i] != '\n'
  {
    if text == "" then 0
    else if text[0] == '\n' then 1
    else 1 + LineEnd(text[1..])
  }

  /** The lines as ReadString hands them out; the last may lack its line feed. */
  function Lines(text: string): seq<string>
    decreases |text|
  {
    if text == "" then []
    else
      var k := LineEnd(text);
      [text[..k]] + Lines(text[k..])
  }

  /** TrimRight of CR and LF. */
  function TrimBreaks(line: string): string {
    if line != "" && line[|line| - 1] in ['\r', '\n'] then TrimBreaks(line[..|line| - 1]) else line
  }

  predicate Space(c: char) {
    c in [' ', '\t', '\n', '\r'] || c as int in {0x0B, 0x0C, 0x85, 0xA0, 0x1680, 0x2028, 0x2029, 0x202F, 0x205F, 0x3000}
    || 0x2000 <= c as int <= 0x200A
  }

  function TrimLeft(s: string): string {
    if s != "" && Space(s[0]) then TrimLeft(s[1..]) else s
  }

  function TrimRight(s: string): string {
    if s != "" && Space(s[|s| - 1]) then TrimRight(s[..|s| - 1]) else s
  }

  function TrimSpace(s: string): string { TrimRight(TrimLeft(s)) }

  // ---------- the parser ----------

  /** The two builders, the frames delivered, and whether the callback has said stop. */
  datatype Parser = Parser(event: string, data: string, delivered: seq<SseFrame>, stopped: bool)

  const START := Parser("", "", [], false)

  const EVENT := "event:"
  const DATA := "data:"

  function Flush(p: Parser, accept: Callback): Parser {
    if p.event == "" && p.data == "" then p
    else
      var f := SseFrame(p.event, p.data);
      Parser("", "", p.delivered + [f], !accept(p.delivered, f))
  }

  /** A second value of a field is joined to the first. */
  function Join(before: string, separator: string, value: string): string {
    if before == "" then value else before + separator + value
  }

  function AfterSpace(s: string): string { if s != "" && s[0] == ' ' then s[1..] else s }

  function Step(p: Parser, line: string, accept: Callback): Parser {
    var t := TrimBreaks(line);
    if p.stopped then p
    else if t == "" then Flush(p, accept)
    else if EVENT <= t then p.(event := Join(p.event, " ", TrimSpace(t[|EVENT|..])))
    else if DATA <= t then p.(data := Join(p.data, "\n", AfterSpace(t[|DATA|..])))
    else p
  }

  function Feed(p: Parser, lines: seq<string>, accept: Callback): Parser
    decreases lines
  {
    if lines == [] then p else Feed(Step(p, lines[0], accept), lines[1..], accept)
  }

  /** Everything delivered from a text; at end of file what is pending is flushed, after a read error not. */
  function Delivered(text: string, broken: bool, accept: Callback): seq<SseFrame> {
    var p := Feed(START, Lines(text), accept);
    if p.stopped || broken then p.delivered else Flush(p, accept).delivered
  }

  lemma {:induction false} FeedStopped(p: Parser, lines: seq<string>, accept: Callback)
    requires p.stopped
    ensures Feed(p, lines, accept) == p
  {
    if lines != [] {
      FeedStopped(p, lines[1..], accept);
    }
  }

  /** The reading loop; `broken` says that the body ends in an error other than end of file. */
  method ReadSse(text: string, broken: bool, accept: Callback) returns (delivered: seq<SseFrame>)
    ensures delivered == Delivered(text, broken, accept)
  {
    hide TrimBreaks, TrimSpace, LineEnd;
    delivered := [];
    var event, data := "", "";
    var rest := text;
    while rest != ""
      invariant Feed(START, Lines(text), accept) == Feed(Parser(event, data, delivered, false), Lines(rest), accept)
      decreases |rest|
    {
      var k := LineEnd(rest);
      LineEndPositive(rest);
      var line := rest[..k];
      ghost var p := Parser(event, data, delivered, false);
      assert Feed(p, Lines(rest), accept) == Feed(Step(p, line, accept), Lines(rest[k..]), accept) by {
        FeedFirst(p, rest, accept);
      }
      rest := rest[k..];
      var trim := TrimBreaks(line);
      if trim == "" {
        if event != "" || data != "" {
          var f := SseFrame(event, data);
          event, data := "", "";
          var more := accept(delivered, f);
          delivered := delivered + [f];
          if !more {
            FeedStopped(Parser(event, data, delivered, true), Lines(rest), accept);
            return;
          }
        }
      } else if EVENT <= trim {
        if event != "" {
          event := event + " ";
        }
        var name := TrimSpace(trim[|EVENT|..]);
        assert "" + name == name;
        event := event + name;
      } else if DATA <= trim {
        var d := AfterSpace(trim[|DATA|..]);
        if data != "" {
          data := data + "\n";
        }
        assert "" + d == d;
        data := data + d;
      }
    }
    if !broken && (event != "" || data != "") {
      delivered := delivered + [SseFrame(event, data)];
    }
  }

  lemma LineEndPositive(text: string)
    requires text != ""
    ensures 0 < LineEnd(text) <= |text|
  {}

  lemma FeedFirst(p: Parser, text: string, accept: Callback)
    requires text != ""
    ensures var k := LineEnd(text);
      Feed(p, Lines(text), accept) == Feed(Step(p, text[..k], accept), Lines(text[k..]), accept)
  {
    var k := LineEnd(text);
    assert Lines(text)[1..] == Lines(text[k..]);
  }

  // ---------- printing and reading back ----------

  /** A frame that can be printed: no line breaks, the event name without space around it, not empty. */
  predicate Printable(f: SseFrame) {
    && OneLine(f.event) && OneLine(f.data)
    && (f.event != "" ==> !Space(f.event[0]) && !Space(f.event[|f.event| - 1]))
    && (f.event != "" || f.data != "")
  }

  predicate OneLine(s: string) { '\r' !in s && '\n' !in s }

  function Break(crlf: bool): string { if crlf then "\r\n" else "\n" }

  function EventLine(f: SseFrame, crlf: bool): string { EVENT + " " + f.event + Break(crlf) }

  function DataLine(f: SseFrame, crlf: bool): string { DATA + " " + f.data + Break(crlf) }

  function Fields(f: SseFrame, crlf: bool): string { EventLine(f, crlf) + DataLine(f, crlf) }

  function Print(fs: seq<SseFrame>, crlf: bool): string {
    if fs == [] then "" else Fields(fs[0], crlf) + (Break(crlf) + Print(fs[1..], crlf))
  }

  /** The frames up to and including the first the callback refuses. */
  function UpToRefused(before: seq<SseFrame>, fs: seq<SseFrame>, accept: Callback): seq<SseFrame>
    decreases fs
  {
    if fs == [] then before
    else if !accept(before, fs[0]) then before + [fs[0]]
    else UpToRefused(before + [fs[0]], fs[1..], accept)
  }

  predicate Refuses(before: seq<SseFrame>, fs: seq<SseFrame>, accept: Callback)
    decreases fs
  {
    fs != [] && (!accept(before, fs[0]) || Refuses(before + [fs[0]], fs[1..], accept))
  }

  lemma {:induction false} LineEndOf(body: string, crlf: bool, rest: string)
    requires OneLine(body)
    ensures LineEnd(body + (Break(crlf) + rest)) == |body| + |Break(crlf)|
    decreases |body|
  {
    var text := body + (Break(crlf) + rest);
    if body == "" {
      assert text == Break(crlf) + rest;
      if crlf {
        assert text[1..][0] == '\n';
      }
    } else {
      LineEndOf(body[1..], crlf, rest);
      assert text[1..] == body[1..] + (Break(crlf) + rest);
    }
  }

  /** A printed line is read as one line, whatever follows. */
  lemma FeedLine(p: Parser, body: string, crlf: bool, rest: string, accept: Callback)
    requires OneLine(body)
    ensures Feed(p, Lines(body + Break(crlf) + rest), accept)
         == Feed(Step(p, body + Break(crlf), accept), Lines(rest), accept)
  {
    var text := body + Break(crlf) + rest;
    assert text == body + (Break(crlf) + rest);
    LineEndOf(body, crlf, rest);
    var k := LineEnd(text);
    assert text[..k] == body + Break(crlf) && text[k..] == rest;
    assert text != "";
    FeedFirst(p, text, accept);
  }

  lemma TrimBreaksOf(body: string, crlf: bool)
    requires OneLine(body)
    ensures TrimBreaks(body + Break(crlf)) == body
  {
    assert TrimBreaks(body) == body;
    if crlf {
      var line := body + "\r\n";
      assert line[..|line| - 1] == body + "\r";
      assert (body + "\r")[..|body|] == body;
      assert TrimBreaks(body + "\r") == body;
    } else {
      assert (body + "\n")[..|body|] == body;
    }
  }

  lemma TrimSpaceOf(event: string)
    requires event != "" ==> !Space(event[0]) && !Space(event[|event| - 1])
    ensures TrimSpace(" " + event) == event
  {
    assert (" " + event)[1..] == event;
    assert TrimLeft(event) == event && TrimLeft(" " + event) == event;
  }

  lemma FeedEvent(p: Parser, f: SseFrame, crlf: bool, rest: string, accept: Callback)
    requires Printable(f) && !p.stopped && p.event == ""
    ensures Feed(p, Lines(EventLine(f, crlf) + rest), accept) == Feed(p.(event := f.event), Lines(rest), accept)
  {
    hide Feed, TrimSpace;
    var body := EVENT + " " + f.event;
    FeedLine(p, body, crlf, rest, accept);
    TrimBreaksOf(body, crlf);
    assert body[|EVENT|..] == " " + f.event;
    TrimSpaceOf(f.event);
    assert EVENT <= body;
  }

  lemma FeedData(p: Parser, f: SseFrame, crlf: bool, rest: string, accept: Callback)
    requires Printable(f) && !p.stopped && p.data == ""
    ensures Feed(p, Lines(DataLine(f, crlf) + rest), accept) == Feed(p.(data := f.data), Lines(rest), accept)
  {
    hide Feed;
    var body := DATA + " " + f.data;
    FeedLine(p, body, crlf, rest, accept);
    TrimBreaksOf(body, crlf);
    assert body[|DATA|..] == " " + f.data && (" " + f.data)[1..] == f.data;
    assert DATA <= body && body[0] == 'd' && EVENT[0] == 'e';
  }

  lemma FeedFields(before: seq<SseFrame>, f: SseFrame, crlf: bool, rest: string, accept: Callback)
    requires Printable(f)
    ensures Feed(Parser("", "", before, false), Lines(Fields(f, crlf) + rest), accept)
         == Feed(Parser(f.event, f.data, before, false), Lines(rest), accept)
  {
    hide Feed;
    var p := Parser("", "", before, false);
    assert Fields(f, crlf) + rest == EventLine(f, crlf) + (DataLine(f, crlf) + rest);
    FeedEvent(p, f, crlf, DataLine(f, crlf) + rest, accept);
    FeedData(p.(event := f.event), f, crlf, rest, accept);
  }

  lemma FeedBlank(p: Parser, crlf: bool, rest: string, accept: Callback)
    requires !p.stopped
    ensures Feed(p, Lines(Break(crlf) + rest), accept) == Feed(Flush(p, accept), Lines(rest), accept)
  {
    hide Feed;
    FeedLine(p, "", crlf, rest, accept);
    TrimBreaksOf("", crlf);
    assert "" + Break(crlf) + rest == Break(crlf) + rest;
  }

  /** Printed frames are delivered in order, up to the first refused one; then comes the rest. */
  lemma {:induction false} FeedPrinted(before: seq<SseFrame>, fs: seq<SseFrame>, crlf: bool, rest: string,
                                       accept: Callback)
    requires forall f :: f in fs ==> Printable(f)
    ensures var p := Parser("", "", UpToRefused(before, fs, accept), Refuses(before, fs, accept));
      Feed(Parser("", "", before, false), Lines(Print(fs, crlf) + rest), accept)
        == if p.stopped then p else Feed(p, Lines(rest), accept)
    decreases |fs|
  {
    hide Feed, Lines, Fields;
    if fs == [] {
      assert "" + rest == rest;
    } else {
      var f, more := fs[0], Print(fs[1..], crlf) + rest;
      var q := Flush(Parser(f.event, f.data, before, false), accept);
      assert Print(fs, crlf) + rest == Fields(f, crlf) + (Break(crlf) + more);
      FeedFields(before, f, crlf, Break(crlf) + more, accept);
      FeedBlank(Parser(f.event, f.data, before, false), crlf, more, accept);
      assert q == Parser("", "", before + [f], !accept(before, f));
      if q.stopped {
        FeedStopped(q, Lines(more), accept);
      } else {
        FeedPrinted(before + [f], fs[1..], crlf, rest, accept);
      }
    }
  }

  /**
   * Frames printed one after the other, with LF or CRLF, are delivered in order up
   * to the first the callback refuses, however the body ends.
   */
  lemma PrintedRead(fs: seq<SseFrame>, crlf: bool, broken: bool, accept: Callback)
    requires forall f :: f in fs ==> Printable(f)
    ensures Delivered(Print(fs, crlf), broken, accept) == UpToRefused([], fs, accept)
  {
    hide UpToRefused, Refuses, Print;
    FeedPrinted([], fs, crlf, "", accept);
    assert Print(fs, crlf) + "" == Print(fs, crlf);
    assert Lines("") == [];
  }

  /**
   * With the blank line after the last frame missing, the frame is delivered at end
   * of file and lost when the body breaks off.
   */
  lemma LastBlankMissing(fs: seq<SseFrame>, last: SseFrame, crlf: bool, broken: bool, accept: Callback)
    requires (forall f :: f in fs ==> Printable(f)) && Printable(last)
    ensures Delivered(Print(fs, crlf) + Fields(last, crlf), broken, accept)
         == UpToRefused([], fs, accept)
            + (if broken || Refuses([], fs, accept) then [] else [last])
  {
    hide UpToRefused, Refuses, Print, Fields;
    var before := UpToRefused([], fs, accept);
    FeedPrinted([], fs, crlf, Fields(last, crlf), accept);
    if !Refuses([], fs, accept) {
      FeedFields(before, last, crlf, "", accept);
      assert Fields(last, crlf) + "" == Fields(last, crlf);
      assert Lines("") == [];
    }
    assert before + [] == before;
  }

  // ---------- lines and trimming ----------

  function Concat(lines: seq<string>): string {
    if lines == [] then "" else lines[0] + Concat(lines[1..])
  }

  /** A line: no line feed but at its end. */
  predicate IsLine(line: string) { line != "" && forall i :: 0 <= i < |line| - 1 ==> line[i] != '\n' }

  predicate EndsLine(line: string) { line != "" && line[|line| - 1] == '\n' }

  /** The lines are the text, cut after every line feed and nowhere else. */
  lemma {:induction false} LinesAre(text: string)
    ensures Concat(Lines(text)) == text
    ensures forall k :: 0 <= k < |Lines(text)| ==> IsLine(Lines(text)[k])
    ensures forall k :: 0 <= k < |Lines(text)| - 1 ==> EndsLine(Lines(text)[k])
    decreases |text|
  {
    if text != "" {
      var k := LineEnd(text);
      LinesAre(text[k..]);
      assert text == text[..k] + text[k..];
      assert Lines(text)[1..] == Lines(text[k..]);
      LineEndsThere(text);
    }
  }

  lemma {:induction false} LineEndsThere(text: string)
    requires text != ""
    ensures var k := LineEnd(text); 0 < k && (k < |text| ==> text[k - 1] == '\n')
  {
    if text[0] != '\n' && |text| > 1 {
      LineEndsThere(text[1..]);
    }
  }

  lemma {:induction false} LeftTrimmed(s: string)
    ensures var t := TrimLeft(s);
      && |t| <= |s| && s == s[..|s| - |t|] + t && (t != "" ==> !Space(t[0]))
      && forall i :: 0 <= i < |s| - |t| ==> Space(s[i])
  {
    hide Space;
    if s != "" && Space(s[0]) {
      LeftTrimmed(s[1..]);
    }
  }

  lemma {:induction false} RightTrimmed(s: string)
    ensures var t := TrimRight(s);
      && t <= s && (t != "" ==> !Space(t[|t| - 1])) && forall i :: |t| <= i < |s| ==> Space(s[i])
  {
    hide Space;
    if s != "" && Space(s[|s| - 1]) {
      RightTrimmed(s[..|s| - 1]);
    }
  }

  /** Trimming cuts off space at both ends, all of it and nothing else. */
  lemma TrimSpaceIs(s: string)
    ensures var t := TrimSpace(s);
      && (t != "" ==> !Space(t[0]) && !Space(t[|t| - 1]))
      && exists front, back :: s == front + t + back
           && (forall c :: c in front ==> Space(c)) && (forall c :: c in back ==> Space(c))
  {
    hide Space, TrimLeft, TrimRight;
    var left, t := TrimLeft(s), TrimSpace(s);
    LeftTrimmed(s);
    RightTrimmed(left);
    var front, back := s[..|s| - |left|], left[|t|..];
    assert s == front + t + back;
  }

  lemma {:induction false} TrimBreaksIs(line: string)
    ensures var t := TrimBreaks(line);
      && t <= line && (t != "" ==> t[|t| - 1] !in {'\r', '\n'})
      && forall i :: |t| <= i < |line| ==> line[i] in {'\r', '\n'}
  {
    if line != "" && line[|line| - 1] in ['\r', '\n'] {
      TrimBreaksIs(line[..|line| - 1]);
    }
  }

  // ---------- frames of several lines ----------

  /** A data line as a server may write it: one space after the colon or none. */
  datatype DataField = DataField(text: string, spaced: bool)

  predicate Written(d: DataField) { OneLine(d.text) && (!d.spaced && d.text != "" ==> d.text[0] != ' ') }

  function DataText(d: DataField, crlf: bool): string {
    DATA + (if d.spaced then " " else "") + d.text + Break(crlf)
  }

  function DataTexts(ds: seq<DataField>, crlf: bool): string {
    if ds == [] then "" else DataText(ds[0], crlf) + DataTexts(ds[1..], crlf)
  }

  /** The texts of the fields after what is there already, one line feed between two of them. */
  function Lined(data: string, ds: seq<DataField>): string
    decreases ds
  {
    if ds == [] then data else Lined(data + "\n" + ds[0].text, ds[1..])
  }

  lemma FeedField(p: Parser, d: DataField, crlf: bool, rest: string, accept: Callback)
    requires Written(d) && !p.stopped
    ensures Feed(p, Lines(DataText(d, crlf) + rest), accept)
         == Feed(p.(data := if p.data == "" then d.text else p.data + "\n" + d.text), Lines(rest), accept)
  {
    hide Feed;
    var value := (if d.spaced then " " else "") + d.text;
    var body := DATA + value;
    assert DataText(d, crlf) == body + Break(crlf);
    FeedLine(p, body, crlf, rest, accept);
    TrimBreaksOf(body, crlf);
    assert body[|DATA|..] == value && AfterSpace(value) == d.text;
    assert DATA <= body && body[0] == 'd' && EVENT[0] == 'e';
  }

  /** Data lines add up, a line feed between two of them, whether or not a space follows the colon. */
  lemma {:induction false} FeedFieldsOf(p: Parser, ds: seq<DataField>, crlf: bool, rest: string, accept: Callback)
    requires (forall d :: d in ds ==> Written(d)) && !p.stopped && p.data != ""
    ensures Feed(p, Lines(DataTexts(ds, crlf) + rest), accept)
         == Feed(p.(data := Lined(p.data, ds)), Lines(rest), accept)
    decreases |ds|
  {
    hide Feed, Lines, DataText, Written;
    if ds == [] {
      assert "" + rest == rest;
    } else {
      assert DataTexts(ds, crlf) + rest == DataText(ds[0], crlf) + (DataTexts(ds[1..], crlf) + rest);
      FeedField(p, ds[0], crlf, DataTexts(ds[1..], crlf) + rest, accept);
      FeedFieldsOf(p.(data := p.data + "\n" + ds[0].text), ds[1..], crlf, rest, accept);
    }
  }

  /** A frame of several data lines is delivered with its lines, from the first that is not empty on. */
  lemma ManyLinesRead(before: seq<SseFrame>, first: DataField, ds: seq<DataField>, crlf: bool, rest: string,
                      accept: Callback)
    requires Written(first) && first.text != "" && forall d :: d in ds ==> Written(d)
    ensures var f := SseFrame("", Lined(first.text, ds));
      Feed(Parser("", "", before, false), Lines(DataText(first, crlf) + DataTexts(ds, crlf) + (Break(crlf) + rest)),
           accept)
        == Feed(Parser("", "", before + [f], !accept(before, f)), Lines(rest), accept)
  {
    hide Feed, Lines, DataText, Written;
    var p := Parser("", "", before, false);
    var text := DataText(first, crlf) + DataTexts(ds, crlf) + (Break(crlf) + rest);
    assert text == DataText(first, crlf) + (DataTexts(ds, crlf) + (Break(crlf) + rest));
    FeedField(p, first, crlf, DataTexts(ds, crlf) + (Break(crlf) + rest), accept);
    FeedFieldsOf(p.(data := first.text), ds, crlf, Break(crlf) + rest, accept);
    LinedLonger(first.text, ds);
    FeedBlank(p.(data := Lined(first.text, ds)), crlf, rest, accept);
  }

  lemma {:induction false} LinedLonger(data: string, ds: seq<DataField>)
    requires data != ""
    ensures Lined(data, ds) != ""
    decreases |ds|
  {
    if ds != [] {
      LinedLonger(data + "\n" + ds[0].text, ds[1..]);
    }
  }

  /** A second event field is joined to the first by a space. */
  lemma EventsJoined(p: Parser, event: string, crlf: bool, rest: string, accept: Callback)
    requires !p.stopped && p.event != "" && OneLine(event)
    requires event != "" ==> !Space(event[0]) && !Space(event[|event| - 1])
    ensures Feed(p, Lines("event:" + " " + event + Break(crlf) + rest), accept)
         == Feed(p.(event := p.event + " " + event), Lines(rest), accept)
  {
    hide Feed, TrimSpace, Space, Lines;
    var line := EVENT + " " + event;
    FeedLine(p, line, crlf, rest, accept);
    TrimBreaksOf(line, crlf);
    assert EVENT <= line && line[|EVENT|..] == " " + event;
    TrimSpaceOf(event);
  }

  /** A field of another name, or a comment, is passed over. */
  lemma OthersPassed(p: Parser, body: string, crlf: bool, rest: string, accept: Callback)
    requires !p.stopped && OneLine(body) && body != "" && body[0] !in {'e', 'd'}
    ensures Feed(p, Lines(body + Break(crlf) + rest), accept) == Feed(p, Lines(rest), accept)
  {
    hide Feed, TrimSpace, Space, Lines;
    FeedLine(p, body, crlf, rest, accept);
    TrimBreaksOf(body, crlf);
    assert EVENT[0] == 'e' && DATA[0] == 'd';
  }
}
