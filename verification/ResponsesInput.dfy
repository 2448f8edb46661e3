/**
 * Responses API input to upstream messages (responses.go:112-168).  How the content
 * parts of one message are rendered is given with the item.
 */
module ResponsesInput {
  import opened Basics
  import opened UpstreamMessages
  import opened Positions

  datatype InputItem = InputItem(
    kind: string, role: string,
    compact: bool,                                     // a role with usable content, type omitted
    text: string, rich: Content, parts: seq<Part>,     // the content as text, as chat content, as parts
    callId: string, name: string, arguments: string, output: string)

  datatype Input = Missing | Single(text: string) | Items(items: seq<InputItem>) | Malformed

  /** What an item is to the converter. */
  datatype Sort = Instruction | Turn | Call | Output | Silent | Dropped

  function SortOf(it: InputItem): Sort {
    if it.kind == "message" || (it.kind == "" && it.compact)
    then if it.role == "system" || it.role == "developer" then Instruction else Turn
    else if it.kind == "function_call" then Call
    else if it.kind == "function_call_output" then Output
    else if it.kind == "reasoning" || it.kind == "item_reference" then Silent
    else Dropped
  }

  function CallOf(it: InputItem): ToolCall { ToolCall(it.callId, it.name, it.arguments) }

  /** The message of a turn or of a tool output. */
  function MessageOf(it: InputItem): UpMessage {
    if SortOf(it) == Output then UpMessage("tool", Words(it.output), [], [], it.callId)
    else
      UpMessage(it.role,
        if it.role == "assistant" then Words(it.text) else it.rich,
        if it.role == "user" then it.parts
        else if it.text != "" then [Part("text", it.text, "", false)] else [],
        [], "")
  }

  function CallMessage(calls: seq<ToolCall>): UpMessage { UpMessage("assistant", Words(""), [], calls, "") }

  /** The function calls among the items, in order. */
  function CallsOf(items: seq<InputItem>): seq<ToolCall> {
    if items == [] then []
    else (if SortOf(items[0]) == Call then [CallOf(items[0])] else []) + CallsOf(items[1..])
  }

  predicate InRun(it: InputItem) { SortOf(it) == Call || SortOf(it) == Silent }

  /** How many items from the first on are calls or silent. */
  function RunLength(items: seq<InputItem>): (n: nat)
    ensures n <= |items|
    ensures forall i :: 0 <= i < n ==> InRun(items[i])
    ensures n < |items| ==> !InRun(items[n])
  {
    if items == [] || !InRun(items[0]) then 0 else 1 + RunLength(items[1..])
  }

  /** Each maximal run that begins with a call becomes one assistant message. */
  function Messages(items: seq<InputItem>): seq<UpMessage>
    decreases |items|
  {
    if items == [] then []
    else
      match SortOf(items[0])
      case Call =>
        var n := RunLength(items);
        [CallMessage(CallsOf(items[..n]))] + Messages(items[n..])
      case Turn => [MessageOf(items[0])] + Messages(items[1..])
      case Output => [MessageOf(items[0])] + Messages(items[1..])
      case _ => Messages(items[1..])
  }

  function Instructions(items: seq<InputItem>): seq<string> {
    if items == [] then []
    else Said(items[0]) + Instructions(items[1..])
  }

  function Initial(instructions: string): seq<string> { if instructions != "" then [instructions] else [] }

  // ---------- the loop ----------

  /** The messages still to come when calls are pending. */
  function Coming(pending: Option<seq<ToolCall>>, items: seq<InputItem>): seq<UpMessage> {
    match pending
    case None => Messages(items)
    case Some(calls) =>
      var n := RunLength(items);
      [CallMessage(calls + CallsOf(items[..n]))] + Messages(items[n..])
  }

  function Flushed(pending: Option<seq<ToolCall>>): seq<UpMessage> {
    if pending.Some? then [CallMessage(pending.value)] else []
  }

  function Joined(pending: Option<seq<ToolCall>>, it: InputItem): Option<seq<ToolCall>> {
    if SortOf(it) == Silent then pending
    else Some((if pending.Some? then pending.value else []) + [CallOf(it)])
  }

  function Emitted(it: InputItem): seq<UpMessage> {
    if SortOf(it) == Turn || SortOf(it) == Output then [MessageOf(it)] else []
  }

  function Said(it: InputItem): seq<string> { if SortOf(it) == Instruction then [it.text] else [] }

  lemma RunTail(items: seq<InputItem>)
    requires items != [] && InRun(items[0])
    ensures var n := RunLength(items);
      n == 1 + RunLength(items[1..]) && items[..n][1..] == items[1..][..n - 1] && items[n..] == items[1..][n - 1..]
      && CallsOf(items[..n])
         == (if SortOf(items[0]) == Call then [CallOf(items[0])] else []) + CallsOf(items[1..][..n - 1])
  {
    hide SortOf;
  }

  /** A call joins what is pending, a silent item leaves it alone. */
  lemma RunComes(pending: Option<seq<ToolCall>>, items: seq<InputItem>)
    requires items != [] && InRun(items[0])
    ensures Coming(pending, items) == Coming(Joined(pending, items[0]), items[1..])
  {
    hide SortOf, CallOf, CallMessage;
    RunTail(items);
    var rest := CallsOf(items[1..][..RunLength(items) - 1]);
    if pending.Some? {
      if SortOf(items[0]) == Silent {
        assert [] + rest == rest;
      } else {
        assert pending.value + ([CallOf(items[0])] + rest) == pending.value + [CallOf(items[0])] + rest;
      }
    } else {
      assert [] + [CallOf(items[0])] == [CallOf(items[0])];
    }
  }

  /** Any other item sends what is pending before it. */
  lemma OtherComes(pending: Option<seq<ToolCall>>, items: seq<InputItem>)
    requires items != [] && !InRun(items[0])
    ensures Coming(pending, items)
         == Flushed(pending) + (Emitted(items[0]) + Messages(items[1..]))
  {
    hide SortOf, CallMessage, MessageOf;
    assert items[..0] == [] && items[0..] == items;
    assert [] + Messages(items[1..]) == Messages(items[1..]);
    if pending.Some? {
      assert pending.value + [] == pending.value;
    } else {
      assert [] + Messages(items) == Messages(items);
    }
  }

  function UserMessage(text: string): UpMessage {
    UpMessage("user", Words(text), [Part("text", text, "", false)], [], "")
  }

  /** One item of the pass. */
  method ConvertItem(it: InputItem, sys: seq<string>, sent: seq<UpMessage>, waiting: Option<seq<ToolCall>>)
    returns (system: seq<string>, msgs: seq<UpMessage>, pending: Option<seq<ToolCall>>)
    ensures system == sys + Said(it)
    ensures msgs == if InRun(it) then sent else sent + (Flushed(waiting) + Emitted(it))
    ensures pending == if InRun(it) then Joined(waiting, it) else None
  {
    hide CallOf, CallMessage, MessageOf;
    system, msgs, pending := sys, sent, waiting;
    assert sys + [] == sys && sent + [] == sent;
    var sort := SortOf(it);
    hide SortOf;
    match sort {
      case Call =>
        pending := Some((if pending.Some? then pending.value else []) + [CallOf(it)]);
      case Silent =>
      case _ =>
        if pending.Some? {
          msgs := msgs + [CallMessage(pending.value)];
          pending := None;
        }
        if sort == Instruction {
          system := system + [it.text];
        } else if sort == Turn || sort == Output {
          msgs := msgs + [MessageOf(it)];
        }
    }
  }

  /** The single pass with a pending assistant message. */
  method ConvertItems(sys: seq<string>, items: seq<InputItem>) returns (system: seq<string>, msgs: seq<UpMessage>)
    ensures system == sys + Instructions(items)
    ensures msgs == Messages(items)
  {
    hide Messages, RunLength, CallsOf, SortOf, InRun, Joined, Flushed, Emitted, Said, Coming, Instructions;
    system, msgs := sys, [];
    var pending: Option<seq<ToolCall>> := None;
    NoneComing(items);
    assert items[0..] == items;
    var i := 0;
    while i < |items|
      invariant 0 <= i <= |items|
      invariant sys + Instructions(items) == system + Instructions(items[i..])
      invariant Messages(items) == msgs + Coming(pending, items[i..])
    {
      var rest := items[i..];
      assert rest[0] == items[i] && rest[1..] == items[i + 1..];
      PassStep(system, msgs, pending, rest);
      system, msgs, pending := ConvertItem(items[i], system, msgs, pending);
      i := i + 1;
    }
    assert items[i..] == [];
    ComingEnd(pending);
    if pending.Some? {
      msgs := msgs + [CallMessage(pending.value)];
    }
  }

  lemma PassStep(sys: seq<string>, msgs: seq<UpMessage>, pending: Option<seq<ToolCall>>, rest: seq<InputItem>)
    requires rest != []
    ensures sys + Instructions(rest) == sys + Said(rest[0]) + Instructions(rest[1..])
    ensures msgs + Coming(pending, rest)
         == if InRun(rest[0]) then msgs + Coming(Joined(pending, rest[0]), rest[1..])
            else msgs + (Flushed(pending) + Emitted(rest[0])) + Coming(None, rest[1..])
  {
    hide Messages, RunLength, CallsOf, SortOf, InRun, Joined, Flushed, Emitted, Said, Coming;
    if InRun(rest[0]) {
      RunComes(pending, rest);
    } else {
      OtherComes(pending, rest);
      NoneComing(rest[1..]);
    }
  }

  lemma NoneComing(items: seq<InputItem>)
    ensures Coming(None, items) == Messages(items)
  {}

  lemma ComingEnd(pending: Option<seq<ToolCall>>)
    ensures Coming(pending, []) == if pending.Some? then [CallMessage(pending.value)] else []
    ensures Instructions([]) == []
  {
    if pending.Some? {
      var none: seq<InputItem> := [];
      assert none[..0] == [] && none[0..] == [];
      assert CallsOf(none[..0]) == [] && pending.value + [] == pending.value;
    }
  }

  /** The system text is made of the instructions of the request and those among the items. */
  method RespToUpstream(instructions: string, input: Input)
    returns (r: Result<(string, seq<UpMessage>), string>)
    ensures input.Malformed? ==> r == Err("invalid input")
    ensures !input.Malformed? ==> r.Ok?
    ensures r.Ok? ==>
      var before := if instructions == "" then [] else [instructions];
      r.value.0 == Join(before + (if input.Items? then Instructions(input.items) else []), "\n\n")
    ensures input.Missing? ==> r.value.1 == []
    ensures input.Single? ==>
      Ensured([UpMessage("user", Words(input.text), [Part("text", input.text, "", false)], [], "")], r.value.1)
    ensures input.Items? ==> Ensured(Messages(input.items), r.value.1)
  {
    var sys := Initial(instructions);
    assert sys + [] == sys;
    if input.Malformed? {
      return Err("invalid input");
    }
    if input.Missing? {
      return Ok((Join(sys, "\n\n"), []));
    }
    if input.Single? {
      var only := new UpMessage[1](_ => UserMessage(input.text));
      assert only[..] == [UserMessage(input.text)];
      EnsureCacheMarker(only);
      return Ok((Join(sys, "\n\n"), only[..]));
    }
    var system, msgs := ConvertItems(sys, input.items);
    var marked := new UpMessage[|msgs|](i requires 0 <= i < |msgs| => msgs[i]);
    assert marked[..] == msgs;
    EnsureCacheMarker(marked);
    r := Ok((Join(system, "\n\n"), marked[..]));
  }

  // ---------- what the conversion keeps ----------

  lemma {:induction false} CallsOfSplit(xs: seq<InputItem>, n: nat)
    requires n <= |xs|
    ensures CallsOf(xs) == CallsOf(xs[..n]) + CallsOf(xs[n..])
  {
    hide SortOf, CallOf;
    if n == 0 {
      assert xs[..0] == [] && xs[0..] == xs;
    } else {
      CallsOfSplit(xs[1..], n - 1);
      assert xs[..n][1..] == xs[1..][..n - 1] && xs[n..] == xs[1..][n - 1..];
    }
  }

  /** No call is lost, repeated or moved. */
  lemma {:induction false} CallsKept(items: seq<InputItem>)
    ensures CallsIn(Messages(items)) == CallsOf(items)
    decreases |items|
  {
    hide SortOf, CallOf;
    if items == [] {
    } else if SortOf(items[0]) == Call {
      var n := RunLength(items);
      CallsKept(items[n..]);
      CallsOfSplit(items, n);
      assert Messages(items)[1..] == Messages(items[n..]);
    } else {
      CallsKept(items[1..]);
      if SortOf(items[0]) == Turn || SortOf(items[0]) == Output {
        assert Messages(items)[1..] == Messages(items[1..]);
      }
    }
  }

  /** The messages without calls, and the items that are turns or outputs. */
  function WithoutCalls(msgs: seq<UpMessage>): seq<UpMessage> {
    if msgs == [] then []
    else (if msgs[0].calls == [] then [msgs[0]] else []) + WithoutCalls(msgs[1..])
  }

  function Emissions(items: seq<InputItem>): seq<UpMessage> {
    if items == [] then [] else Emitted(items[0]) + Emissions(items[1..])
  }

  lemma {:induction false} RunEmitsNothing(items: seq<InputItem>, n: nat)
    requires n <= |items| && forall i :: 0 <= i < n ==> InRun(items[i])
    ensures Emissions(items) == Emissions(items[n..])
  {
    if n == 0 {
      assert items[0..] == items;
    } else {
      RunEmitsNothing(items[1..], n - 1);
      assert items[n..] == items[1..][n - 1..];
    }
  }

  /** Turns and tool outputs come out once each, in the order of the input. */
  lemma {:induction false} TurnsKept(items: seq<InputItem>)
    ensures WithoutCalls(Messages(items)) == Emissions(items)
    decreases |items|
  {
    hide SortOf, CallOf;
    if items == [] {
    } else if SortOf(items[0]) == Call {
      var n := RunLength(items);
      TurnsKept(items[n..]);
      RunEmitsNothing(items, n);
      assert items[..n][0] == items[0];
      assert Messages(items)[1..] == Messages(items[n..]);
    } else {
      TurnsKept(items[1..]);
      if SortOf(items[0]) == Turn || SortOf(items[0]) == Output {
        assert Messages(items)[1..] == Messages(items[1..]);
      }
    }
  }

  /** An item of which something comes out. */
  predicate Heard(it: InputItem) { SortOf(it) == Call || SortOf(it) == Turn || SortOf(it) == Output }

  /** Which message the item at position i goes to, and where among its calls. */
  function Home(items: seq<InputItem>, i: nat): (nat, nat)
    requires i < |items| && Heard(items[i])
    decreases |items|
  {
    if SortOf(items[0]) == Call then
      var n := RunLength(items);
      if i < n then (0, |CallsOf(items[..i])|)
      else
        var (m, k) := Home(items[n..], i - n);
        (1 + m, k)
    else if i == 0 then (0, 0)
    else
      var (m, k) := Home(items[1..], i - 1);
      (|Emitted(items[0])| + m, k)
  }

  lemma CallAt(items: seq<InputItem>, i: nat)
    requires i < |items| && SortOf(items[i]) == Call
    ensures |CallsOf(items[..i])| < |CallsOf(items)| && CallsOf(items)[|CallsOf(items[..i])|] == CallOf(items[i])
  {
    CallsOfSplit(items, i);
    assert items[i..][0] == items[i];
  }

  /** A call stands at a place among the messages. */
  predicate StandsAt(msgs: seq<UpMessage>, place: (nat, nat), call: ToolCall) {
    place.0 < |msgs| && place.1 < |msgs[place.0].calls| && msgs[place.0].calls[place.1] == call
  }

  lemma StandsLater(before: seq<UpMessage>, msgs: seq<UpMessage>, place: (nat, nat), call: ToolCall)
    requires StandsAt(msgs, place, call)
    ensures StandsAt(before + msgs, (|before| + place.0, place.1), call)
  {}

  lemma CallInRun(items: seq<InputItem>, i: nat)
    requires i < RunLength(items) && SortOf(items[i]) == Call && SortOf(items[0]) == Call
    ensures StandsAt(Messages(items), (0, |CallsOf(items[..i])|), CallOf(items[i]))
  {
    hide SortOf, CallOf, CallsOf;
    var n := RunLength(items);
    CallAt(items[..n], i);
    assert items[..n][..i] == items[..i];
  }

  lemma RunFront(items: seq<InputItem>)
    requires items != [] && SortOf(items[0]) == Call
    ensures Messages(items) == [CallMessage(CallsOf(items[..RunLength(items)]))] + Messages(items[RunLength(items)..])
  {
    hide SortOf, CallsOf, CallMessage, RunLength;
  }

  lemma ItemFront(items: seq<InputItem>)
    requires items != [] && SortOf(items[0]) != Call
    ensures Messages(items) == Emitted(items[0]) + Messages(items[1..])
  {
    hide SortOf, MessageOf;
    assert [] + Messages(items[1..]) == Messages(items[1..]);
  }

  /** The call is there. */
  lemma {:induction false} CallAtHome(items: seq<InputItem>, i: nat)
    requires i < |items| && SortOf(items[i]) == Call
    ensures StandsAt(Messages(items), Home(items, i), CallOf(items[i]))
    decreases |items|
  {
    hide SortOf, CallOf, CallsOf, StandsAt, Messages, Emitted, CallMessage;
    var n := RunLength(items);
    if SortOf(items[0]) == Call {
      RunFront(items);
    }
    if SortOf(items[0]) != Call {
      ItemFront(items);
      CallAtHome(items[1..], i - 1);
      StandsLater(Emitted(items[0]), Messages(items[1..]), Home(items[1..], i - 1), CallOf(items[i]));
    } else if i < n {
      CallInRun(items, i);
    } else {
      CallAtHome(items[n..], i - n);
      StandsLater([CallMessage(CallsOf(items[..n]))], Messages(items[n..]), Home(items[n..], i - n), CallOf(items[i]));
    }
  }

  /** A turn or tool output makes the message at its place. */
  lemma {:induction false} SentAtHome(items: seq<InputItem>, i: nat)
    requires i < |items| && (SortOf(items[i]) == Turn || SortOf(items[i]) == Output)
    ensures var m := Home(items, i).0; m < |Messages(items)| && Messages(items)[m] == MessageOf(items[i])
    decreases |items|
  {
    hide SortOf, MessageOf, CallsOf, CallMessage;
    if SortOf(items[0]) == Call {
      var n := RunLength(items);
      RunFront(items);
      SentAtHome(items[n..], i - n);
    } else {
      ItemFront(items);
      if i > 0 {
        SentAtHome(items[1..], i - 1);
      }
    }
  }

  /** Messages stand in the order of the items, one for each but for calls that share theirs. */
  lemma {:induction false} HomesRise(items: seq<InputItem>, i: nat, j: nat)
    requires i < j < |items| && Heard(items[i]) && Heard(items[j])
    ensures if SortOf(items[i]) == Call && SortOf(items[j]) == Call && (forall k :: i < k < j ==> InRun(items[k]))
            then Home(items, i).0 == Home(items, j).0
            else Home(items, i).0 < Home(items, j).0
    decreases |items|
  {
    hide SortOf, MessageOf, CallsOf, CallMessage;
    if SortOf(items[0]) == Call {
      var n := RunLength(items);
      if i >= n {
        HomesRise(items[n..], i - n, j - n);
        Shift(items, n, i, j);
      } else if j >= n {
        assert InRun(items[i]) && !InRun(items[n]);
        assert n < j || !InRun(items[j]);
      }
    } else if i == 0 {
      assert |Emitted(items[0])| == 1;
    } else {
      HomesRise(items[1..], i - 1, j - 1);
      Shift(items, 1, i, j);
    }
  }

  /** Every message is some item's. */
  lemma {:induction false} HomesAll(items: seq<InputItem>, m: nat) returns (i: nat)
    requires m < |Messages(items)|
    ensures i < |items| && Heard(items[i]) && Home(items, i).0 == m
    decreases |items|
  {
    hide SortOf, MessageOf, CallsOf, CallMessage;
    if SortOf(items[0]) == Call {
      var n := RunLength(items);
      RunFront(items);
      if m == 0 {
        i := 0;
      } else {
        var k := HomesAll(items[n..], m - 1);
        i := k + n;
      }
    } else {
      ItemFront(items);
      if m < |Emitted(items[0])| {
        i := 0;
      } else {
        var k := HomesAll(items[1..], m - |Emitted(items[0])|);
        i := k + 1;
      }
    }
  }

  lemma Shift(items: seq<InputItem>, n: nat, i: nat, j: nat)
    requires n <= i <= j <= |items|
    ensures (forall k :: i - n < k < j - n ==> InRun(items[n..][k])) <==> forall k :: i < k < j ==> InRun(items[k])
  {
    if forall k :: i - n < k < j - n ==> InRun(items[n..][k]) {
      forall k | i < k < j
        ensures InRun(items[k])
      {
        assert items[n..][k - n] == items[k];
      }
    }
  }

  /** Two calls share a message exactly when only calls, reasoning and item references lie between them. */
  lemma SharedIff(items: seq<InputItem>, i: nat, j: nat)
    requires i < j < |items| && items[i].kind == "function_call" && items[j].kind == "function_call"
    ensures Home(items, i).0 == Home(items, j).0
       <==> forall k :: i < k < j ==> items[k].kind in {"function_call", "reasoning", "item_reference"}
  {
    SortsTell(items[i]);
    SortsTell(items[j]);
    forall k | i < k < j
      ensures InRun(items[k]) <==> items[k].kind in {"function_call", "reasoning", "item_reference"}
    {
      SortsTell(items[k]);
    }
    hide SortOf, Home;
    HomesRise(items, i, j);
  }

  // ---------- field by field ----------

  predicate PickCall(it: InputItem) { it.kind == "function_call" }

  predicate IsMessage(it: InputItem) { it.kind == "message" || (it.kind == "" && it.compact) }

  predicate PickSystem(it: InputItem) { IsMessage(it) && it.role in {"system", "developer"} }

  predicate PickSent(it: InputItem) {
    it.kind == "function_call_output" || (IsMessage(it) && it.role !in {"system", "developer"})
  }

  predicate CallFields(c: ToolCall, it: InputItem) {
    c.id == it.callId && c.name == it.name && c.arguments == it.arguments
  }

  predicate SystemField(text: string, it: InputItem) { text == it.text }

  /** A tool output answers its call; a message keeps its role and content. */
  predicate SentFields(m: UpMessage, it: InputItem) {
    && m.calls == []
    && (if it.kind == "function_call_output"
        then m.role == "tool" && m.toolCallId == it.callId && m.content == Words(it.output) && m.parts == []
        else
          && m.role == it.role && m.toolCallId == ""
          && m.content == (if it.role == "assistant" then Words(it.text) else it.rich)
          && (it.role == "user" ==> m.parts == it.parts)
          && (it.role != "user" ==>
                m.parts == if it.text == "" then [] else [Part("text", it.text, "", false)]))
  }

  /** What a sort means. */
  lemma SortsTell(it: InputItem)
    ensures SortOf(it) == Call <==> PickCall(it)
    ensures InRun(it) <==> it.kind in {"function_call", "reasoning", "item_reference"}
    ensures SortOf(it) == Instruction <==> PickSystem(it)
    ensures SortOf(it) == Turn || SortOf(it) == Output <==> PickSent(it)
    ensures PickSent(it) ==> SentFields(MessageOf(it), it)
    ensures CallFields(CallOf(it), it)
  {}

  lemma {:induction false} CallsAt(items: seq<InputItem>)
    ensures Matches(CallsOf(items), items, PickCall, CallFields)
  {
    hide Matches, SortOf, CallOf, CallFields;
    if items == [] {
      MatchesNone(PickCall, CallFields);
    } else {
      var n := |items| - 1;
      var last: seq<InputItem> := [items[n]];
      CallsAt(items[..n]);
      SortsTell(items[n]);
      assert items[n..] == last && items == items[..n] + last;
      CallsOfSplit(items, n);
      assert CallsOf(last[1..]) == [];
      assert CallsOf(last) == if PickCall(items[n]) then [CallOf(items[n])] else [];
      MatchesPush(CallsOf(items[..n]), CallOf(items[n]), items[..n], items[n], PickCall, CallFields);
    }
  }

  lemma {:induction false} EmissionsSplit(items: seq<InputItem>, n: nat)
    requires n <= |items|
    ensures Emissions(items) == Emissions(items[..n]) + Emissions(items[n..])
  {
    hide Emitted;
    if n == 0 {
      assert items[..0] == [] && items[0..] == items;
    } else {
      EmissionsSplit(items[1..], n - 1);
      assert items[..n][1..] == items[1..][..n - 1] && items[n..] == items[1..][n - 1..];
    }
  }

  lemma {:induction false} InstructionsSplit(items: seq<InputItem>, n: nat)
    requires n <= |items|
    ensures Instructions(items) == Instructions(items[..n]) + Instructions(items[n..])
  {
    hide Said;
    if n == 0 {
      assert items[..0] == [] && items[0..] == items;
    } else {
      InstructionsSplit(items[1..], n - 1);
      assert items[..n][1..] == items[1..][..n - 1] && items[n..] == items[1..][n - 1..];
    }
  }

  lemma OneItem(it: InputItem)
    ensures Emissions([it]) == if PickSent(it) then [MessageOf(it)] else []
    ensures Instructions([it]) == if PickSystem(it) then [it.text] else []
  {
    hide SortOf, MessageOf;
    SortsTell(it);
    assert [it][1..] == [];
    assert Emissions([it][1..]) == [] && Instructions([it][1..]) == [];
  }

  lemma {:induction false} SentAt(items: seq<InputItem>)
    ensures Matches(Emissions(items), items, PickSent, SentFields)
    ensures Matches(Instructions(items), items, PickSystem, SystemField)
  {
    hide Matches, SortOf, MessageOf, SentFields, Emissions, Instructions;
    if items == [] {
      MatchesNone(PickSent, SentFields);
      MatchesNone(PickSystem, SystemField);
      NoneSent();
    } else {
      var n := |items| - 1;
      SentAt(items[..n]);
      SortsTell(items[n]);
      assert items[n..] == [items[n]] && items == items[..n] + [items[n]];
      EmissionsSplit(items, n);
      InstructionsSplit(items, n);
      OneItem(items[n]);
      MatchesPush(Emissions(items[..n]), MessageOf(items[n]), items[..n], items[n], PickSent, SentFields);
      MatchesPush(Instructions(items[..n]), items[n].text, items[..n], items[n], PickSystem, SystemField);
    }
  }

  lemma NoneSent()
    ensures Emissions([]) == [] && Instructions([]) == []
  {}

  /** A message with calls holds nothing else. */
  lemma {:induction false} CallersHoldCalls(items: seq<InputItem>, m: nat)
    requires m < |Messages(items)| && Messages(items)[m].calls != []
    ensures var it := Messages(items)[m];
      it.role == "assistant" && it.content == Words("") && it.parts == [] && it.toolCallId == ""
    decreases |items|
  {
    hide SortOf, CallsOf;
    if SortOf(items[0]) == Call {
      RunFront(items);
      if m > 0 {
        CallersHoldCalls(items[RunLength(items)..], m - 1);
      }
    } else {
      ItemFront(items);
      if m >= |Emitted(items[0])| {
        CallersHoldCalls(items[1..], m - |Emitted(items[0])|);
      }
    }
  }

  /** Every field of every call, message and instruction comes from the item it should come from. */
  lemma FieldsKept(items: seq<InputItem>)
    ensures Matches(CallsIn(Messages(items)), items, PickCall, CallFields)
    ensures Matches(WithoutCalls(Messages(items)), items, PickSent, SentFields)
    ensures Matches(Instructions(items), items, PickSystem, SystemField)
  {
    hide Matches;
    CallsAt(items);
    SentAt(items);
    CallsKept(items);
    TurnsKept(items);
  }
}
