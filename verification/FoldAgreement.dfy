/**
 * The five consumers of one chunk sequence compared: blocks of the Anthropic stream,
 * items of the Responses stream, and the three aggregated answers
 * (proxy.go:634-686, 823-868; responses.go:423-476, 645-678; openai.go:167-181, 416-450).
 */
module FoldAgreement {
  import opened Chunks
  import opened Segments
  import opened Collectors
  import opened OpenAICollector

  // ---------- the five call lists ----------

  function AnthropicBlocks(xs: seq<Atom>): Scan { Fold(AnthropicStep, EMPTY, xs) }

  function ResponsesItems(xs: seq<Atom>): Scan { Fold(ResponsesStep, EMPTY, xs) }

  /** collectAnthropic and collectResponses run the same fold. */
  function CollectedFrom(xs: seq<Atom>): Collected { Fold(CollectStep, NOTHING, xs) }

  function GatheredFrom(xs: seq<Atom>): Gathered { Fold(GatherStep, NO_ANSWER, xs) }

  predicate Agree(xs: seq<Atom>) {
    var calls := CollectedFrom(xs).calls;
    && Calls(AnthropicBlocks(xs).segs) == calls
    && Calls(ResponsesItems(xs).segs) == calls
    && CallsOf(GatheredFrom(xs).groups) == calls
  }

  // ---------- text and reasoning: no condition ----------

  /** What a list of atoms says in a kind. */
  function Spoken(xs: seq<Atom>, kind: Kind): string {
    if xs == [] then ""
    else
      var x := xs[|xs| - 1];
      Spoken(xs[..|xs| - 1], kind)
      + (if (x.Reason? && kind == Thinking) || (x.Say? && kind == Text) then x.text else "")
  }

  lemma SaidBegin(s: Scan, seg: Segment, kind: Kind)
    requires seg.parts == []
    ensures Said(Begin(s, seg).segs, kind) == Said(s.segs, kind)
    ensures Calls(Begin(s, seg).segs)
         == Calls(s.segs) + (if seg.kind == ToolUse then [Call(seg.id, seg.name, "")] else [])
  {
    assert (s.segs + [seg])[..|s.segs|] == s.segs;
  }

  lemma ExtendLast(s: Scan, part: string)
    requires s.segs != []
    ensures var n, seg := |s.segs| - 1, Last(s);
      && s.segs == s.segs[..n] + [seg]
      && Extend(s, part).segs == s.segs[..n] + [seg.(parts := seg.parts + [part])]
      && Concat(seg.parts + [part]) == Concat(seg.parts) + part
  {
    ConcatPush(Last(s).parts, part);
  }

  lemma SaidPush(segs: seq<Segment>, seg: Segment, kind: Kind)
    ensures Said(segs + [seg], kind) == Said(segs, kind) + (if seg.kind == kind then Concat(seg.parts) else "")
    ensures Calls(segs + [seg])
         == Calls(segs) + (if seg.kind == ToolUse then [Call(seg.id, seg.name, Concat(seg.parts))] else [])
  {
    assert (segs + [seg])[..|segs|] == segs;
  }

  lemma GrowPushed(before: seq<Call>, c: Call, args: string)
    ensures Grow(before + [c], args) == before + [c.(args := c.args + args)]
  {
    assert (before + [c])[..|before|] == before;
    assert args == "" ==> c.args + args == c.args;
  }

  lemma SaidExtend(s: Scan, part: string, kind: Kind)
    requires s.segs != []
    ensures Said(Extend(s, part).segs, kind) == Said(s.segs, kind) + (if Last(s).kind == kind then part else "")
    ensures Last(s).kind != ToolUse ==> Calls(Extend(s, part).segs) == Calls(s.segs)
    ensures Last(s).kind == ToolUse ==> Calls(Extend(s, part).segs) == Grow(Calls(s.segs), part)
    ensures Last(Extend(s, part)).kind == Last(s).kind
  {
    hide Said, Calls, Concat, Grow;
    var n, seg := |s.segs| - 1, Last(s);
    var longer := seg.(parts := seg.parts + [part]);
    ExtendLast(s, part);
    SaidPush(s.segs[..n], seg, kind);
    SaidPush(s.segs[..n], longer, kind);
    GrowPushed(Calls(s.segs[..n]), Call(seg.id, seg.name, Concat(seg.parts)), part);
    var said := Said(s.segs[..n], kind);
    assert said + (Concat(seg.parts) + part) == said + Concat(seg.parts) + part;
  }

  lemma SaidContinue(s: Scan, kind: Kind, part: string, k: Kind)
    requires kind != ToolUse
    ensures Said(Continue(s, kind, part).segs, k) == Said(s.segs, k) + (if kind == k then part else "")
    ensures Calls(Continue(s, kind, part).segs) == Calls(s.segs)
  {
    hide Said, Calls;
    var seg := Segment(kind, "", "", []);
    SaidBegin(s, seg, k);
    SaidExtend(if InKind(s, kind) then s else Begin(s, seg), part, k);
  }

  lemma SaidTool(s: Scan, id: string, name: string, args: string, opens: bool, k: Kind)
    requires k != ToolUse
    ensures Said(FeedCall(if opens then OpenCall(s, id, name) else s, args).segs, k) == Said(s.segs, k)
  {
    hide Said, Calls;
    var id', name' := if id != "" then id else s.id, if name != "" then name else s.name;
    SaidBegin(s.(id := id', name := name'), Segment(ToolUse, id', name', []), k);
    var t := if opens then OpenCall(s, id, name) else s;
    assert opens ==> t.segs == Begin(s.(id := id', name := name'), Segment(ToolUse, id', name', [])).segs;
    if args != "" {
      SaidBegin(t.(id := t.id, name := t.name), Segment(ToolUse, t.id, t.name, []), k);
      var u := if InKind(t, ToolUse) then t else OpenCall(t, "", "");
      SaidExtend(u, args, k);
    }
  }

  lemma StepsSay(a: Scan, r: Scan, x: Atom, kind: Kind)
    requires kind != ToolUse
    ensures var more := if (x.Reason? && kind == Thinking) || (x.Say? && kind == Text) then x.text else "";
      && Said(AnthropicStep(a, x).segs, kind) == Said(a.segs, kind) + more
      && Said(ResponsesStep(r, x).segs, kind) == Said(r.segs, kind) + more
  {
    hide Said;
    match x
    case Reason(t) => SaidContinue(a, Thinking, t, kind); SaidContinue(r, Thinking, t, kind);
    case Say(t) => SaidContinue(a, Text, t, kind); SaidContinue(r, Text, t, kind);
    case Tool(id, name, args) =>
      SaidTool(a, id, name, args, AnthropicOpens(a, id, name), kind);
      SaidTool(r, id, name, args, id != "" || name != "", kind);
    case Finish(_) =>
    case Elsewhere(_) =>
  }

  /** On every input all consumers deliver the same reasoning and the same text. */
  lemma {:induction false} ProseAgrees(xs: seq<Atom>, kind: Kind)
    requires kind != ToolUse
    ensures Said(AnthropicBlocks(xs).segs, kind) == Spoken(xs, kind)
    ensures Said(ResponsesItems(xs).segs, kind) == Spoken(xs, kind)
    ensures (if kind == Text then CollectedFrom(xs).text else CollectedFrom(xs).reasoning) == Spoken(xs, kind)
    ensures (if kind == Text then GatheredFrom(xs).text else GatheredFrom(xs).reasoning) == Spoken(xs, kind)
  {
    if xs == [] {
    } else {
      var ys, x := xs[..|xs| - 1], xs[|xs| - 1];
      ProseAgrees(ys, kind);
      StepsSay(AnthropicBlocks(ys), ResponsesItems(ys), x, kind);
      CollectorsSay(CollectedFrom(ys), GatheredFrom(ys), x, kind);
    }
  }

  lemma CollectorsSay(c: Collected, g: Gathered, x: Atom, kind: Kind)
    requires kind != ToolUse
    ensures var more := if (x.Reason? && kind == Thinking) || (x.Say? && kind == Text) then x.text else "";
      && (if kind == Text then CollectStep(c, x).text == c.text + more
          else CollectStep(c, x).reasoning == c.reasoning + more)
      && (if kind == Text then GatherStep(g, x).text == g.text + more
          else GatherStep(g, x).reasoning == g.reasoning + more)
  {}
}
