/**
 * collectOAI and the tool index counter it and streamOAI use
 * (openai.go:162-181, 355-398, 408-490).
 */
module OpenAICollector {
  import opened Basics
  import opened Chunks
  import opened Segments
  import opened Collectors

  // ---------- the index counter ----------

  /** The index in force after a number of deltas with an id: the first such delta keeps index 0. */
  function Rank(ids: nat): nat { if ids == 0 then 0 else ids - 1 }

  /** Every delta gets the rank of the ids seen up to and including itself. */
  function RemappedTools(ids: nat, tools: seq<ToolDelta>): (r: seq<ToolDelta>)
    ensures |r| == |tools|
  {
    if tools == [] then []
    else
      var n := |tools| - 1;
      RemappedTools(ids, tools[..n]) + [tools[n].(index := Rank(ids + IdCount(tools)))]
  }

  function RemappedChoices(ids: nat, choices: seq<Choice>): (r: seq<Choice>)
    ensures |r| == |choices|
  {
    if choices == [] then []
    else
      var n := |choices| - 1;
      RemappedChoices(ids, choices[..n])
      + [choices[n].(tools := RemappedTools(ids + IdCounts(choices[..n]), choices[n].tools))]
  }

  class ToolIndexer {
    var cur: nat
    var seen: bool

    ghost predicate Valid()
      reads this
    {
      !seen ==> cur == 0
    }

    /** How many ids were seen. */
    ghost function Ids(): nat
      reads this
    {
      if seen then cur + 1 else 0
    }

    constructor ()
      ensures Valid() && Ids() == 0
    {
      cur, seen := 0, false;
    }

    method RemapTools(tools: seq<ToolDelta>) returns (r: seq<ToolDelta>)
      requires Valid()
      modifies this
      ensures Valid() && Ids() == old(Ids()) + IdCount(tools)
      ensures r == RemappedTools(old(Ids()), tools)
    {
      r := [];
      var i := 0;
      while i < |tools|
        invariant 0 <= i <= |tools|
        invariant Valid() && Ids() == old(Ids()) + IdCount(tools[..i])
        invariant r == RemappedTools(old(Ids()), tools[..i])
      {
        assert tools[..i + 1][..i] == tools[..i];
        if tools[i].id != "" {
          if seen {
            cur := cur + 1;
          } else {
            seen := true;
          }
        }
        r := r + [tools[i].(index := cur)];
        i := i + 1;
      }
      assert tools[..i] == tools;
    }

    /** The tool deltas of all choices are renumbered in the order they come. */
    method Remap(c: Chunk) returns (r: Chunk)
      requires Valid()
      modifies this
      ensures Valid() && Ids() == old(Ids()) + IdCounts(c.choices)
      ensures r == Chunk(RemappedChoices(old(Ids()), c.choices))
    {
      var choices: seq<Choice> := [];
      var i := 0;
      while i < |c.choices|
        invariant 0 <= i <= |c.choices|
        invariant Valid() && Ids() == old(Ids()) + IdCounts(c.choices[..i])
        invariant choices == RemappedChoices(old(Ids()), c.choices[..i])
      {
        assert c.choices[..i + 1][..i] == c.choices[..i];
        var tools := RemapTools(c.choices[i].tools);
        choices := choices + [c.choices[i].(tools := tools)];
        i := i + 1;
      }
      assert c.choices[..i] == c.choices;
      r := Chunk(choices);
    }
  }

  lemma {:induction false} RemappedAt(ids: nat, tools: seq<ToolDelta>, i: nat)
    requires i < |tools|
    ensures RemappedTools(ids, tools)[i] == tools[i].(index := Rank(ids + IdCount(tools[..i + 1])))
    decreases |tools|
  {
    var n := |tools| - 1;
    if i < n {
      RemappedAt(ids, tools[..n], i);
      assert tools[..n][..i + 1] == tools[..i + 1];
    } else {
      assert tools[..i + 1] == tools;
    }
  }

  lemma {:induction false} IdCountSplit(xs: seq<ToolDelta>, ys: seq<ToolDelta>)
    ensures IdCount(xs + ys) == IdCount(xs) + IdCount(ys)
    decreases |ys|
  {
    if ys == [] {
      assert xs + ys == xs;
    } else {
      assert (xs + ys)[..|xs + ys| - 1] == xs + ys[..|ys| - 1];
      IdCountSplit(xs, ys[..|ys| - 1]);
    }
  }

  /**
   * Once an id was seen, the index grows between two deltas by the number of ids
   * after the first of them: a client that gathers by index separates the calls.
   */
  lemma IndexCountsCalls(ids: nat, tools: seq<ToolDelta>, i: nat, j: nat)
    requires i <= j < |tools|
    requires ids + IdCount(tools[..i + 1]) > 0
    ensures RemappedTools(ids, tools)[j].index
         == RemappedTools(ids, tools)[i].index + IdCount(tools[i + 1..j + 1])
  {
    RemappedAt(ids, tools, i);
    RemappedAt(ids, tools, j);
    assert tools[..j + 1] == tools[..i + 1] + tools[i + 1..j + 1];
    IdCountSplit(tools[..i + 1], tools[i + 1..j + 1]);
  }

  // ---------- the stream of renumbered chunks ----------

  /** The tool deltas of all choices, in order. */
  function Flat(choices: seq<Choice>): seq<ToolDelta> {
    if choices == [] then [] else Flat(choices[..|choices| - 1]) + choices[|choices| - 1].tools
  }

  function FlatAll(chunks: seq<Chunk>): seq<ToolDelta> {
    if chunks == [] then [] else FlatAll(chunks[..|chunks| - 1]) + Flat(chunks[|chunks| - 1].choices)
  }

  /** A whole stream, renumbered chunk by chunk. */
  function RemappedAll(ids: nat, chunks: seq<Chunk>): seq<Chunk> {
    if chunks == [] then []
    else
      var n := |chunks| - 1;
      RemappedAll(ids, chunks[..n]) + [Chunk(RemappedChoices(ids + IdCount(FlatAll(chunks[..n])), chunks[n].choices))]
  }

  lemma {:induction false} RemappedAppend(ids: nat, xs: seq<ToolDelta>, ys: seq<ToolDelta>)
    ensures RemappedTools(ids, xs + ys) == RemappedTools(ids, xs) + RemappedTools(ids + IdCount(xs), ys)
    decreases |ys|
  {
    hide Rank, IdCount;
    if ys == [] {
      assert xs + ys == xs;
    } else {
      var n := |ys| - 1;
      assert (xs + ys)[..|xs + ys| - 1] == xs + ys[..n];
      RemappedAppend(ids, xs, ys[..n]);
      IdCountSplit(xs, ys);
    }
  }

  lemma FlatPush(choices: seq<Choice>, choice: Choice)
    ensures Flat(choices + [choice]) == Flat(choices) + choice.tools
  {
    assert (choices + [choice])[..|choices|] == choices;
  }

  lemma FlatAllPush(chunks: seq<Chunk>, c: Chunk)
    ensures FlatAll(chunks + [c]) == FlatAll(chunks) + Flat(c.choices)
  {
    hide Flat;
    assert (chunks + [c])[..|chunks|] == chunks;
  }

  lemma {:induction false} ChoicesFlat(ids: nat, choices: seq<Choice>)
    ensures IdCounts(choices) == IdCount(Flat(choices))
    ensures Flat(RemappedChoices(ids, choices)) == RemappedTools(ids, Flat(choices))
  {
    hide Rank, IdCount, RemappedTools, Flat;
    if choices == [] {
      NothingToRemap(ids);
      NoneFlat();
    } else {
      var n := |choices| - 1;
      var before, tools := Flat(choices[..n]), choices[n].tools;
      ChoicesFlat(ids, choices[..n]);
      IdCountSplit(before, tools);
      RemappedAppend(ids, before, tools);
      FlatPush(choices[..n], choices[n]);
      assert choices[..n] + [choices[n]] == choices;
      FlatPush(RemappedChoices(ids, choices[..n]),
               choices[n].(tools := RemappedTools(ids + IdCounts(choices[..n]), tools)));
    }
  }

  lemma NoneFlat()
    ensures Flat([]) == [] && FlatAll([]) == []
  {}

  lemma NothingToRemap(ids: nat)
    ensures RemappedTools(ids, []) == [] && IdCount([]) == 0
  {}

  /** Chunk by chunk or all at once, the deltas get the same indexes. */
  lemma {:induction false} ChunksFlat(ids: nat, chunks: seq<Chunk>)
    ensures FlatAll(RemappedAll(ids, chunks)) == RemappedTools(ids, FlatAll(chunks))
  {
    hide Rank, IdCount, RemappedTools, RemappedChoices, Flat, FlatAll;
    NoneFlat();
    if chunks == [] {
      NothingToRemap(ids);
    } else {
      var n := |chunks| - 1;
      var before, more := FlatAll(chunks[..n]), chunks[n].choices;
      ChunksFlat(ids, chunks[..n]);
      ChoicesFlat(ids + IdCount(before), more);
      RemappedAppend(ids, before, Flat(more));
      FlatAllPush(chunks[..n], chunks[n]);
      assert chunks[..n] + [chunks[n]] == chunks;
      FlatAllPush(RemappedAll(ids, chunks[..n]), Chunk(RemappedChoices(ids + IdCount(before), more)));
    }
  }

  /**
   * Over a whole stream: from the first id on, the index grows between two deltas, of
   * whatever chunks, by the number of ids after the first of them.
   */
  lemma StreamIndexCountsCalls(chunks: seq<Chunk>, i: nat, j: nat)
    requires i <= j < |FlatAll(chunks)| && IdCount(FlatAll(chunks)[..i + 1]) > 0
    ensures var sent := FlatAll(RemappedAll(0, chunks));
      && |sent| == |FlatAll(chunks)|
      && sent[j].index == sent[i].index + IdCount(FlatAll(chunks)[i + 1..j + 1])
  {
    ChunksFlat(0, chunks);
    IndexCountsCalls(0, FlatAll(chunks), i, j);
  }

  /** What streamOAI writes. */
  datatype Line = Data(chunk: Chunk) | ErrorLine(message: string) | DoneLine

  function Lines(chunks: seq<Chunk>): seq<Line> {
    seq(|chunks|, i requires 0 <= i < |chunks| => Data(chunks[i]))
  }

  method StreamOAI(chunks: seq<Chunk>, failed: string) returns (sent: seq<Line>)
    ensures sent == Lines(RemappedAll(0, chunks)) + (if failed != "" then [ErrorLine(failed)] else []) + [DoneLine]
  {
    hide RemappedChoices, IdCount, Flat;
    sent := [];
    var idx := new ToolIndexer();
    NothingToRemap(0);
    var i := 0;
    while i < |chunks|
      invariant 0 <= i <= |chunks|
      invariant idx.Valid() && fresh(idx) && idx.Ids() == IdCount(FlatAll(chunks[..i]))
      invariant sent == Lines(RemappedAll(0, chunks[..i]))
    {
      ghost var before := RemappedAll(0, chunks[..i]);
      assert chunks[..i + 1][..i] == chunks[..i];
      IdCountSplit(FlatAll(chunks[..i]), Flat(chunks[i].choices));
      ChoicesFlat(0, chunks[i].choices);
      var c := idx.Remap(chunks[i]);
      assert Lines(before + [c]) == Lines(before) + [Data(c)];
      sent := sent + [Data(c)];
      i := i + 1;
    }
    assert chunks[..i] == chunks;
    if failed != "" {
      sent := sent + [ErrorLine(failed)];
    }
    sent := sent + [DoneLine];
  }

  // ---------- the fold ----------

  datatype Group = Group(index: int, call: Call)

  /** The answer so far: calls gathered under their index, and the ids counted. */
  datatype Gathered = Gathered(reasoning: string, text: string, groups: seq<Group>, ids: nat, reason: string)

  const NO_ANSWER := Gathered("", "", [], 0, "")

  /** A non-empty id or name replaces the one there, arguments are appended. */
  function Merged(c: Call, id: string, name: string, args: string): Call {
    Call(if id != "" then id else c.id, if name != "" then name else c.name, c.args + args)
  }

  function Gather(groups: seq<Group>, index: int, id: string, name: string, args: string): seq<Group> {
    var n := |groups|;
    if n > 0 && groups[n - 1].index == index
    then groups[..n - 1] + [Group(index, Merged(groups[n - 1].call, id, name, args))]
    else groups + [Group(index, Call(id, name, args))]
  }

  function GatherTool(g: Gathered, id: string, name: string, args: string): Gathered {
    var ids := g.ids + (if id != "" then 1 else 0);
    g.(ids := ids, groups := Gather(g.groups, Rank(ids), id, name, args))
  }

  function GatherStep(g: Gathered, x: Atom): Gathered {
    match x
    case Reason(t) => g.(reasoning := g.reasoning + t)
    case Say(t) => g.(text := g.text + t)
    case Tool(id, name, args) => GatherTool(g, id, name, args)
    case Finish(r) => g.(reason := r)
    case Elsewhere(n) => g.(ids := g.ids + n)
  }

  function CallsOf(groups: seq<Group>): seq<Call> {
    seq(|groups|, i requires 0 <= i < |groups| => groups[i].call)
  }

  function GatherAll(chunks: seq<Chunk>): Gathered {
    Fold(GatherStep, NO_ANSWER, AllAtoms(chunks))
  }

  function Gathering(g: Gathered): Collected { Collected(g.reasoning, g.text, CallsOf(g.groups), g.reason) }

  // ---------- the loop ----------

  /** Indexes grow along the groups. */
  predicate Rising(groups: seq<Group>) {
    forall i, j :: 0 <= i < j < |groups| ==> groups[i].index < groups[j].index
  }

  predicate Below(groups: seq<Group>, bound: int) {
    groups != [] ==> groups[|groups| - 1].index <= bound
  }

  /** The map and the order list hold the groups. */
  predicate Holds(toolMap: map<int, Call>, order: seq<int>, groups: seq<Group>) {
    && |order| == |groups|
    && (forall i :: 0 <= i < |groups| ==>
          order[i] == groups[i].index && order[i] in toolMap && toolMap[order[i]] == groups[i].call)
    && (forall k :: k in toolMap ==> k in order)
  }

  method Accumulate(ghost groups: seq<Group>, toolMap: map<int, Call>, order: seq<int>, tc: ToolDelta)
    returns (toolMap': map<int, Call>, order': seq<int>)
    requires Holds(toolMap, order, groups) && Rising(groups) && Below(groups, tc.index)
    ensures Holds(toolMap', order', Gather(groups, tc.index, tc.id, tc.name, tc.args))
  {
    toolMap', order' := toolMap, order;
    if tc.index !in toolMap' {
      toolMap', order' := toolMap'[tc.index := Call("", "", "")], order' + [tc.index];
    }
    var acc := toolMap'[tc.index];
    if tc.id != "" {
      acc := acc.(id := tc.id);
    }
    if tc.name != "" {
      acc := acc.(name := tc.name);
    }
    acc := acc.(args := acc.args + tc.args);
    toolMap' := toolMap'[tc.index := acc];
    if tc.index in toolMap {
      var i :| 0 <= i < |order| && order[i] == tc.index;
      assert i == |groups| - 1;
    } else {
      assert "" + tc.args == tc.args;
    }
  }

  lemma GatherRises(groups: seq<Group>, index: int, id: string, name: string, args: string)
    requires Rising(groups) && Below(groups, index)
    ensures Rising(Gather(groups, index, id, name, args)) && Below(Gather(groups, index, id, name, args), index)
  {}

  lemma GatherToolSets(g: Gathered, groups: seq<Group>, before: nat, after: nat, id: string, name: string, args: string)
    requires after == before + (if id != "" then 1 else 0)
    ensures GatherTool(g.(groups := groups, ids := before), id, name, args)
         == g.(groups := Gather(groups, Rank(after), id, name, args), ids := after)
  {
    hide Gather, Rank;
  }

  /** The fold takes the next delta under its index. */
  lemma GatherNext(g: Gathered, xs: seq<Atom>, groups: seq<Group>, before: nat, after: nat, t: ToolDelta)
    requires after == before + (if t.id != "" then 1 else 0)
    requires Fold(GatherStep, g, xs) == g.(groups := groups, ids := before)
    ensures Fold(GatherStep, g, xs + [Tool(t.id, t.name, t.args)])
         == g.(groups := Gather(groups, Rank(after), t.id, t.name, t.args), ids := after)
  {
    hide Fold, GatherTool, Gather, Rank;
    FoldPush(GatherStep, g, xs, Tool(t.id, t.name, t.args));
    GatherToolSets(g, groups, before, after, t.id, t.name, t.args);
  }

  lemma NextIndex(ids: nat, sent: seq<ToolDelta>, i: nat)
    requires i < |sent|
    ensures RemappedTools(ids, sent)[i] == sent[i].(index := Rank(ids + IdCount(sent[..i + 1])))
    ensures IdCount(sent[..i + 1]) == IdCount(sent[..i]) + (if sent[i].id != "" then 1 else 0)
  {
    RemappedAt(ids, sent, i);
    assert sent[..i + 1][..i] == sent[..i];
  }

  /** One renumbered delta of the first choice, beside the fold. */
  method AccumulateNext(ghost g: Gathered, ghost xs: seq<Atom>, ghost before: seq<Group>, ghost ids: nat,
                        toolMap: map<int, Call>, order: seq<int>, tc: ToolDelta)
    returns (toolMap': map<int, Call>, order': seq<int>, ghost groups: seq<Group>)
    requires Holds(toolMap, order, before) && Rising(before) && Below(before, Rank(ids))
    requires tc.index == Rank(ids + (if tc.id != "" then 1 else 0))
    requires Fold(GatherStep, g, xs) == g.(groups := before, ids := ids)
    ensures Holds(toolMap', order', groups) && Rising(groups)
    ensures Below(groups, Rank(ids + (if tc.id != "" then 1 else 0)))
    ensures Fold(GatherStep, g, xs + [Tool(tc.id, tc.name, tc.args)])
         == g.(groups := groups, ids := ids + (if tc.id != "" then 1 else 0))
  {
    hide Holds, Rising, Gather, Below, GatherTool, Rank, Fold;
    ghost var after := ids + (if tc.id != "" then 1 else 0);
    BelowMore(before, ids, after);
    GatherRises(before, tc.index, tc.id, tc.name, tc.args);
    GatherNext(g, xs, before, ids, after, tc);
    toolMap', order' := Accumulate(before, toolMap, order, tc);
    groups := Gather(before, tc.index, tc.id, tc.name, tc.args);
  }

  /** The loop over the renumbered deltas of the first choice. */
  method AccumulateAll(ghost g: Gathered, ghost sent: seq<ToolDelta>, toolMap: map<int, Call>, order: seq<int>,
                       tools: seq<ToolDelta>)
    returns (toolMap': map<int, Call>, order': seq<int>, ghost groups: seq<Group>)
    requires tools == RemappedTools(g.ids, sent)
    requires Holds(toolMap, order, g.groups) && Rising(g.groups) && Below(g.groups, Rank(g.ids))
    ensures Holds(toolMap', order', groups) && Rising(groups) && Below(groups, Rank(g.ids + IdCount(sent)))
    ensures Fold(GatherStep, g, ToolAtoms(sent)) == g.(groups := groups, ids := g.ids + IdCount(sent))
  {
    hide Holds, Rising, Gather, Below, GatherTool, RemappedTools, Rank, Fold, IdCount, ToolAtoms;
    GatherNone(g, sent);
    toolMap', order', groups := toolMap, order, g.groups;
    ghost var xs, ids := ToolAtoms(sent[..0]), g.ids;
    var i := 0;
    while i < |tools|
      invariant 0 <= i <= |tools|
      invariant xs == ToolAtoms(sent[..i]) && ids == g.ids + IdCount(sent[..i])
      invariant Holds(toolMap', order', groups) && Rising(groups) && Below(groups, Rank(ids))
      invariant Fold(GatherStep, g, xs) == g.(groups := groups, ids := ids)
    {
      NextIndex(g.ids, sent, i);
      ToolAtomsPush(sent, i);
      toolMap', order', groups := AccumulateNext(g, xs, groups, ids, toolMap', order', tools[i]);
      xs := xs + [Tool(tools[i].id, tools[i].name, tools[i].args)];
      ids := ids + (if tools[i].id != "" then 1 else 0);
      i := i + 1;
    }
    assert sent[..i] == sent;
  }

  lemma {:induction false} FirstChoice(ids: nat, choices: seq<Choice>)
    requires choices != []
    ensures RemappedChoices(ids, choices)[0] == choices[0].(tools := RemappedTools(ids, choices[0].tools))
    ensures IdCounts(choices) == IdCount(choices[0].tools) + IdCounts(choices[1..])
    decreases |choices|
  {
    var n := |choices| - 1;
    if n == 0 {
      assert choices[..0] == [];
    } else {
      FirstChoice(ids, choices[..n]);
      assert choices[..n][1..] == choices[1..][..n - 1];
    }
  }

  function ChatAnswer(chunks: seq<Chunk>, failed: string): Result<Collected, string> {
    if failed != "" then Err(failed)
    else Ok(Gathering(GatherAll(chunks)).(reason := Or(GatherAll(chunks).reason, "stop")))
  }

  /** What a fold through a chunk of at least one choice does to the gathered answer. */
  lemma GatherThrough(g: Gathered, c: Chunk, groups: seq<Group>)
    requires c.choices != []
    requires var ch := c.choices[0];
      var told := g.(reasoning := g.reasoning + ch.reasoning, text := g.text + ch.content);
      Fold(GatherStep, told, ToolAtoms(ch.tools)) == told.(groups := groups, ids := g.ids + IdCount(ch.tools))
    ensures var ch := c.choices[0];
      Through(GatherStep, g, c) == Gathered(
        g.reasoning + ch.reasoning, g.text + ch.content, groups, g.ids + IdCounts(c.choices),
        if Ends(ch) then ch.finish.value else g.reason)
  {
    hide Fold, ToolAtoms, GatherTool, IdCount, IdCounts, RemappedTools, RemappedChoices;
    var ch := c.choices[0];
    var told := g.(reasoning := g.reasoning + ch.reasoning, text := g.text + ch.content);
    FirstChoice(0, c.choices);
    assert g.text + "" == g.text && g.reasoning + "" == g.reasoning;
    if |c.choices| == 1 {
      assert c.choices[1..] == [];
      NoChoices();
    }
  }

  lemma NoChoices()
    ensures IdCounts([]) == 0
  {}

  method CollectOAI(chunks: seq<Chunk>, failed: string) returns (r: Result<Collected, string>)
    ensures r == ChatAnswer(chunks, failed)
  {
    hide ToolAtoms, GatherStep, Fold, AllAtoms, Atoms, Holds, Rising, Below, Rank, RemappedTools, RemappedChoices,
      IdCount, IdCounts, CallsOf;
    var content, reasoning, lastReason, finishReason := "", "", "", "stop";
    var toolMap: map<int, Call>, toolOrder: seq<int> := map[], [];
    var idx := new ToolIndexer();
    ghost var groups: seq<Group> := [];
    GatherNothing();
    var i := 0;
    while i < |chunks|
      invariant 0 <= i <= |chunks|
      invariant idx.Valid() && fresh(idx)
      invariant GatherAll(chunks[..i]) == Gathered(reasoning, content, groups, idx.Ids(), lastReason)
      invariant Holds(toolMap, toolOrder, groups) && Rising(groups) && Below(groups, Rank(idx.Ids()))
      invariant finishReason == Or(lastReason, "stop")
    {
      ghost var g := Gathered(reasoning, content, groups, idx.Ids(), lastReason);
      FoldAppend(GatherStep, NO_ANSWER, AllAtoms(chunks[..i]), Atoms(chunks[i]));
      AllAtomsPush(chunks[..i], chunks[i]);
      assert chunks[..i] + [chunks[i]] == chunks[..i + 1];
      if |chunks[i].choices| > 0 {
        FirstChoice(idx.Ids(), chunks[i].choices);
        var c := idx.Remap(chunks[i]);
        var ch := c.choices[0];
        content := content + ch.content;
        reasoning := reasoning + ch.reasoning;
        ghost var told := g.(reasoning := reasoning, text := content);
        toolMap, toolOrder, groups := AccumulateAll(told, chunks[i].choices[0].tools, toolMap, toolOrder, ch.tools);
        FoldThrough(GatherStep, g, chunks[i]);
        GatherThrough(g, chunks[i], groups);
        BelowMore(groups, g.ids + IdCount(chunks[i].choices[0].tools), idx.Ids());
        if Ends(ch) {
          lastReason := ch.finish.value;
          finishReason := lastReason;
        }
      } else {
        GatherNoChoice(g, chunks[i]);
      }
      i := i + 1;
    }
    assert chunks[..i] == chunks;
    if failed != "" {
      return Err(failed);
    }
    var toolCalls := CallList(groups, toolMap, toolOrder);
    r := Ok(Collected(reasoning, content, toolCalls, finishReason));
  }

  lemma GatherNoChoice(g: Gathered, c: Chunk)
    requires c.choices == []
    ensures Fold(GatherStep, g, Atoms(c)) == g
  {}

  method CallList(ghost groups: seq<Group>, toolMap: map<int, Call>, order: seq<int>) returns (calls: seq<Call>)
    requires Holds(toolMap, order, groups)
    ensures calls == CallsOf(groups)
  {
    calls := [];
    var i := 0;
    while i < |order|
      invariant 0 <= i <= |order|
      invariant calls == CallsOf(groups[..i])
    {
      calls := calls + [toolMap[order[i]]];
      i := i + 1;
    }
    assert groups[..i] == groups;
  }

  lemma GatherNone(g: Gathered, sent: seq<ToolDelta>)
    ensures Fold(GatherStep, g, ToolAtoms(sent[..0])) == g && IdCount(sent[..0]) == 0
  {
    assert sent[..0] == [];
  }

  lemma BelowMore(groups: seq<Group>, a: nat, b: nat)
    requires Below(groups, Rank(a)) && a <= b
    ensures Below(groups, Rank(b))
  {}

  lemma GatherNothing()
    ensures GatherAll([]) == NO_ANSWER && Holds(map[], [], []) && Rising([]) && Below([], Rank(0))
  {}
}
