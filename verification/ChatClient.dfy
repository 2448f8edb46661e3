/**
 * A client of the streamed chat completion (openai.go:355-398): it gathers the tool calls
 * under their index and is handed what an aggregated chat completion holds.
 */
module ChatClient {
  import opened Basics
  import opened Chunks
  import opened Segments
  import opened Collectors
  import opened OpenAICollector

  /** The place of an index among the groups, or their number. */
  function Find(groups: seq<Group>, index: int): (i: nat)
    ensures i <= |groups|
    ensures i < |groups| ==> groups[i].index == index
    ensures i == |groups| ==> forall j :: 0 <= j < |groups| ==> groups[j].index != index
  {
    if groups == [] then 0
    else
      var n := |groups| - 1;
      var i := Find(groups[..n], index);
      if i < n || groups[n].index == index then i else n + 1
  }

  /** A delta goes to the call with its index, wherever that is, or begins one. */
  function Take(groups: seq<Group>, t: ToolDelta): seq<Group> {
    var i := Find(groups, t.index);
    if i < |groups| then groups[i := Group(t.index, Merged(groups[i].call, t.id, t.name, t.args))]
    else groups + [Group(t.index, Call(t.id, t.name, t.args))]
  }

  function TakeTools(groups: seq<Group>, tools: seq<ToolDelta>): seq<Group> {
    if tools == [] then groups else Take(TakeTools(groups, tools[..|tools| - 1]), tools[|tools| - 1])
  }

  /** What the client has put together. */
  datatype Rebuilt = Rebuilt(reasoning: string, text: string, groups: seq<Group>, reason: string)

  function TakeChunk(b: Rebuilt, c: Chunk): Rebuilt {
    if c.choices == [] then b
    else
      var ch := c.choices[0];
      Rebuilt(b.reasoning + ch.reasoning, b.text + ch.content, TakeTools(b.groups, ch.tools),
              if Ends(ch) then ch.finish.value else b.reason)
  }

  function Rebuild(lines: seq<Line>): Rebuilt {
    if lines == [] then Rebuilt("", "", [], "")
    else
      var before, line := Rebuild(lines[..|lines| - 1]), lines[|lines| - 1];
      if line.Data? then TakeChunk(before, line.chunk) else before
  }

  // ---------- indexes only rise, so the call is always the last ----------

  lemma TakeIsGather(groups: seq<Group>, t: ToolDelta)
    requires Rising(groups) && Below(groups, t.index)
    ensures Take(groups, t) == Gather(groups, t.index, t.id, t.name, t.args)
  {
    var n, i := |groups|, Find(groups, t.index);
    if i < n {
      assert i == n - 1;
    }
  }

  /** A state of the fold in which the next index is not below those there. */
  predicate Ordered(g: Gathered) { Rising(g.groups) && Below(g.groups, Rank(g.ids)) }

  lemma {:induction false} ToolsTaken(g: Gathered, tools: seq<ToolDelta>)
    requires Ordered(g)
    ensures var h := Fold(GatherStep, g, ToolAtoms(tools));
      Ordered(h) && h == g.(groups := TakeTools(g.groups, RemappedTools(g.ids, tools)), ids := g.ids + IdCount(tools))
  {
    hide Rising, Below, Gather, Take, Rank, Fold, ToolAtoms, GatherTool;
    if tools == [] {
      GatherNone(g, tools);
      assert tools[..0] == tools;
    } else {
      var n := |tools| - 1;
      var t := tools[n];
      ToolsTaken(g, tools[..n]);
      var h := Fold(GatherStep, g, ToolAtoms(tools[..n]));
      var after := h.ids + (if t.id != "" then 1 else 0);
      var remapped := t.(index := Rank(after));
      ToolAtomsPush(tools, n);
      assert tools[..n + 1] == tools;
      GatherNext(g, ToolAtoms(tools[..n]), h.groups, h.ids, after, t);
      BelowMore(h.groups, h.ids, after);
      TakeIsGather(h.groups, remapped);
      GatherRises(h.groups, Rank(after), t.id, t.name, t.args);
    }
  }

  lemma ChunkTaken(g: Gathered, c: Chunk)
    requires Ordered(g)
    ensures var h := Fold(GatherStep, g, Atoms(c));
      var b := TakeChunk(Rebuilt(g.reasoning, g.text, g.groups, g.reason), Chunk(RemappedChoices(g.ids, c.choices)));
      Ordered(h) && h.ids == g.ids + IdCounts(c.choices) && b == Rebuilt(h.reasoning, h.text, h.groups, h.reason)
  {
    hide Rising, Below, Rank, Fold, ToolAtoms, TakeTools, RemappedTools, RemappedChoices, IdCount, IdCounts, Atoms;
    if c.choices == [] {
      GatherNoChoice(g, c);
      NoChoices();
    } else {
      var ch := c.choices[0];
      var told := g.(reasoning := g.reasoning + ch.reasoning, text := g.text + ch.content);
      ToolsTaken(told, ch.tools);
      var groups := TakeTools(g.groups, RemappedTools(g.ids, ch.tools));
      FirstChoice(g.ids, c.choices);
      FoldThrough(GatherStep, g, c);
      GatherThrough(g, c, groups);
      BelowMore(groups, g.ids + IdCount(ch.tools), g.ids + IdCounts(c.choices));
    }
  }

  lemma LinePush(sent: seq<Chunk>, d: Chunk)
    ensures Rebuild(Lines(sent + [d])) == TakeChunk(Rebuild(Lines(sent)), d)
  {
    assert Lines(sent + [d]) == Lines(sent) + [Data(d)];
    assert Lines(sent + [d])[..|sent|] == Lines(sent);
  }

  lemma {:induction false} LinesTaken(chunks: seq<Chunk>)
    ensures var g := GatherAll(chunks);
      && Ordered(g) && g.ids == IdCount(FlatAll(chunks))
      && Rebuild(Lines(RemappedAll(0, chunks))) == Rebuilt(g.reasoning, g.text, g.groups, g.reason)
  {
    hide Ordered, Fold, AllAtoms, Atoms, TakeChunk, RemappedChoices, IdCount, IdCounts, Flat, FlatAll, Lines;
    if chunks == [] {
      GatherNothing();
      NothingOrdered();
      NothingToRemap(0);
      NoneFlat();
      assert Lines([]) == [] by { NoLines(); }
    } else {
      var n := |chunks| - 1;
      var before, c := chunks[..n], chunks[n];
      LinesTaken(before);
      assert chunks == before + [c];
      AllAtomsPush(before, c);
      FoldAppend(GatherStep, NO_ANSWER, AllAtoms(before), Atoms(c));
      ChunkTaken(GatherAll(before), c);
      FlatAllPush(before, c);
      ChoicesFlat(0, c.choices);
      IdCountSplit(FlatAll(before), Flat(c.choices));
      var sent, d := RemappedAll(0, before), Chunk(RemappedChoices(IdCount(FlatAll(before)), c.choices));
      assert RemappedAll(0, chunks) == sent + [d];
      LinePush(sent, d);
    }
  }

  lemma NoLines()
    ensures Lines([]) == []
  {}

  lemma NothingOrdered()
    ensures Ordered(NO_ANSWER)
  {}

  lemma {:induction false} RebuildTail(lines: seq<Line>, tail: seq<Line>)
    requires forall line :: line in tail ==> !line.Data?
    ensures Rebuild(lines + tail) == Rebuild(lines)
    decreases |tail|
  {
    if tail == [] {
      assert lines + tail == lines;
    } else {
      var n := |tail| - 1;
      assert (lines + tail)[..|lines| + n] == lines + tail[..n];
      assert tail[n] in tail;
      RebuildTail(lines, tail[..n]);
    }
  }

  /**
   * A sixth answer: a client that gathers by index what streamOAI writes holds the same
   * reasoning, text, calls and finish reason as the aggregated chat completion, whatever
   * upstream sent and however many choices there are.
   */
  lemma ClientRebuilds(chunks: seq<Chunk>, failed: string)
    ensures var sent := Lines(RemappedAll(0, chunks)) + (if failed != "" then [ErrorLine(failed)] else []) + [DoneLine];
      var b := Rebuild(sent);
      Collected(b.reasoning, b.text, CallsOf(b.groups), b.reason) == Gathering(GatherAll(chunks))
  {
    hide GatherAll, RemappedAll, Lines;
    var lines, tail := Lines(RemappedAll(0, chunks)), if failed != "" then [ErrorLine(failed)] else [];
    LinesTaken(chunks);
    RebuildTail(lines, tail + [DoneLine]);
    assert lines + tail + [DoneLine] == lines + (tail + [DoneLine]);
  }
}
