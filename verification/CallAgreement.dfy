/**
 * When the five call lists are the same: an exact condition on the chunks alone
 * (proxy.go:659-679, 841-857; responses.go:454-470, 662-674; openai.go:167-181, 430-446).
 */
module CallAgreement {
  import opened Chunks
  import opened Segments
  import opened Collectors
  import opened OpenAICollector
  import opened FoldAgreement

  // ---------- what decides about calls ----------

  /** The part of a scan that decides about calls. */
  datatype View = View(calls: seq<Call>, id: string, name: string, inTool: bool)

  function ViewOf(s: Scan): View { View(Calls(s.segs), s.id, s.name, InKind(s, ToolUse)) }

  function ViewOpen(v: View, id: string, name: string): View {
    var id := if id != "" then id else v.id;
    var name := if name != "" then name else v.name;
    View(v.calls + [Call(id, name, "")], id, name, true)
  }

  function ViewFeed(v: View, args: string): View {
    if args == "" then v
    else
      var w := if v.inTool then v else ViewOpen(v, "", "");
      w.(calls := Grow(w.calls, args))
  }

  lemma OpenViewed(s: Scan, id: string, name: string)
    ensures ViewOf(OpenCall(s, id, name)) == ViewOpen(ViewOf(s), id, name)
  {
    hide Calls, Said;
    var id' := if id != "" then id else s.id;
    var name' := if name != "" then name else s.name;
    SaidBegin(s.(id := id', name := name'), Segment(ToolUse, id', name', []), Text);
  }

  lemma FeedViewed(s: Scan, args: string)
    ensures ViewOf(FeedCall(s, args)) == ViewFeed(ViewOf(s), args)
  {
    hide Calls, Said, OpenCall;
    if args != "" {
      OpenViewed(s, "", "");
      var t := if InKind(s, ToolUse) then s else OpenCall(s, "", "");
      OpenIsTool(s, "", "");
      SaidExtend(t, args, Text);
    }
  }

  lemma OpenIsTool(s: Scan, id: string, name: string)
    ensures InKind(OpenCall(s, id, name), ToolUse)
  {}

  /** A tool delta, as the two streams see it. */
  function ViewTool(v: View, opens: bool, id: string, name: string, args: string): View {
    ViewFeed(if opens then ViewOpen(v, id, name) else v, args)
  }

  lemma ToolViewed(a: Scan, r: Scan, id: string, name: string, args: string)
    ensures ViewOf(AnthropicStep(a, Tool(id, name, args)))
         == ViewTool(ViewOf(a), id != "" || (name != "" && !ViewOf(a).inTool), id, name, args)
    ensures ViewOf(ResponsesStep(r, Tool(id, name, args)))
         == ViewTool(ViewOf(r), id != "" || name != "", id, name, args)
  {
    hide Calls, OpenCall, FeedCall, ViewFeed, ViewOpen;
    OpenViewed(a, id, name);
    OpenViewed(r, id, name);
    FeedViewed(if AnthropicOpens(a, id, name) then OpenCall(a, id, name) else a, args);
    FeedViewed(if id != "" || name != "" then OpenCall(r, id, name) else r, args);
  }

  lemma OtherViewed(s: Scan, x: Atom)
    requires !x.Tool? && !x.Elsewhere?
    ensures ViewOf(AnthropicStep(s, x)) == ViewOf(s).(inTool := false)
    ensures ViewOf(ResponsesStep(s, x)) == if x.Finish? then ViewOf(s) else ViewOf(s).(inTool := false)
  {
    hide Calls, Said;
    match x
    case Reason(t) => SaidContinue(s, Thinking, t, Text); ContinueIsProse(s, Thinking, t);
    case Say(t) => SaidContinue(s, Text, t, Text); ContinueIsProse(s, Text, t);
    case Finish(_) =>
  }

  lemma ContinueIsProse(s: Scan, kind: Kind, part: string)
    requires kind != ToolUse
    ensures var t := Continue(s, kind, part);
      t.id == s.id && t.name == s.name && !InKind(t, ToolUse)
  {}

  /** The indexed groups as a plain call list. */
  function Joined(calls: seq<Call>, merges: bool, id: string, name: string, args: string): seq<Call>
    requires merges ==> calls != []
  {
    var n := |calls| - 1;
    if merges then calls[..n] + [Merged(calls[n], id, name, args)] else calls + [Call(id, name, args)]
  }

  /** The index in force has moved on from the last group: ids were counted in other choices. */
  predicate MovedOn(g: Gathered) { g.groups != [] && g.groups[|g.groups| - 1].index != Rank(g.ids) }

  predicate Indexed(g: Gathered) { Below(g.groups, Rank(g.ids)) }

  lemma GatherJoins(g: Gathered, id: string, name: string, args: string)
    requires Indexed(g)
    ensures var h := GatherTool(g, id, name, args);
      && Indexed(h) && !MovedOn(h) && h.groups != [] && h.ids == g.ids + (if id != "" then 1 else 0)
      && CallsOf(h.groups)
           == Joined(CallsOf(g.groups), g.groups != [] && !MovedOn(g) && (id == "" || g.ids == 0), id, name, args)
  {}

  /** The index moves when a second id is counted, of whatever choice. */
  predicate Moves(ids: nat, more: nat) { Rank(ids + more) != Rank(ids) }

  lemma GatherSkips(g: Gathered, n: nat)
    requires Indexed(g)
    ensures var h := g.(ids := g.ids + n);
      Indexed(h) && MovedOn(h) == (g.groups != [] && (MovedOn(g) || Moves(g.ids, n)))
  {}

  // ---------- the four folds side by side ----------

  datatype Joint = Joint(a: View, r: View, c: seq<Call>, o: seq<Call>, ids: nat, moved: bool)

  function JointOf(xs: seq<Atom>): Joint {
    var g := GatheredFrom(xs);
    Joint(ViewOf(AnthropicBlocks(xs)), ViewOf(ResponsesItems(xs)), CollectedFrom(xs).calls, CallsOf(g.groups), g.ids,
          MovedOn(g))
  }

  function ToolStep(j: Joint, id: string, name: string, args: string): Joint {
    Joint(
      ViewTool(j.a, id != "" || (name != "" && !j.a.inTool), id, name, args),
      ViewTool(j.r, id != "" || name != "", id, name, args),
      CollectCall(j.c, id, name, args),
      Joined(j.o, j.o != [] && !j.moved && (id == "" || j.ids == 0), id, name, args),
      j.ids + (if id != "" then 1 else 0), false)
  }

  function JointStep(j: Joint, x: Atom): Joint {
    match x
    case Tool(id, name, args) => ToolStep(j, id, name, args)
    case Finish(_) => j.(a := j.a.(inTool := false))
    case Elsewhere(n) => j.(ids := j.ids + n, moved := j.o != [] && (j.moved || Moves(j.ids, n)))
    case _ => j.(a := j.a.(inTool := false), r := j.r.(inTool := false))
  }

  lemma {:induction false} GatheredIndexed(xs: seq<Atom>)
    ensures Indexed(GatheredFrom(xs))
  {
    hide Indexed, Moves, MovedOn;
    if xs == [] {
      assert Indexed(NO_ANSWER) by { NoGroups([]); }
    } else {
      var ys, x := xs[..|xs| - 1], xs[|xs| - 1];
      GatheredIndexed(ys);
      StillIndexed(GatheredFrom(ys), x);
    }
  }

  lemma StillIndexed(g: Gathered, x: Atom)
    requires Indexed(g)
    ensures Indexed(GatherStep(g, x))
  {
    if x.Tool? {
      GatherJoins(g, x.id, x.name, x.args);
    }
  }

  lemma JointPush(xs: seq<Atom>, x: Atom)
    ensures JointOf(xs + [x]) == JointStep(JointOf(xs), x)
  {
    hide Calls, ViewTool, GatherTool, CollectCall, AnthropicTool, ResponsesTool, Continue, Joined, CallsOf, Indexed,
      Fold, InKind, MovedOn, Moves;
    FoldPush(AnthropicStep, EMPTY, xs, x);
    FoldPush(ResponsesStep, EMPTY, xs, x);
    FoldPush(CollectStep, NOTHING, xs, x);
    FoldPush(GatherStep, NO_ANSWER, xs, x);
    GatheredIndexed(xs);
    var g := GatheredFrom(xs);
    NoGroups(g.groups);
    match x
    case Tool(id, name, args) =>
      ToolViewed(AnthropicBlocks(xs), ResponsesItems(xs), id, name, args);
      GatherJoins(g, id, name, args);
    case Elsewhere(n) =>
      GatherSkips(g, n);
    case _ =>
      OtherViewed(AnthropicBlocks(xs), x);
      OtherViewed(ResponsesItems(xs), x);
      SameMoved(g, x);
  }

  lemma SameMoved(g: Gathered, x: Atom)
    requires !x.Tool? && !x.Elsewhere?
    ensures var h := GatherStep(g, x); h.groups == g.groups && h.ids == g.ids && MovedOn(h) == MovedOn(g)
  {}

  lemma NoGroups(groups: seq<Group>)
    ensures CallsOf(groups) == [] <==> groups == []
    ensures Indexed(NO_ANSWER)
  {}

  // ---------- the condition ----------

  /**
   * What has to be remembered of the atoms so far to judge the next one: whether a call or an id
   * came, the name a new call and the one the Anthropic stream would carry over, whether the two
   * streams stand in a call, and the ids of all choices. A call by index may wait for its id or
   * name; the Anthropic stream may lag behind by a call that has no arguments yet; the index
   * may have moved on from the last call.
   */
  datatype Watch = Watch(any: bool, seen: bool, lastName: string, aName: string, aTool: bool, rTool: bool,
                         ids: nat, moved: bool, waiting: bool, lag: bool)

  const UNWATCHED := Watch(false, false, "", "", false, false, 0, false, false, false)

  function WatchStep(w: Watch, x: Atom): Watch {
    match x
    case Tool(id, name, args) =>
      if id != "" then Watch(true, true, name, name, true, true, w.ids + 1, false, false, false)
      else if name != "" then
        Watch(true, w.seen, name, if w.aTool then w.aName else name, true, true, w.ids, false, false, w.lag || w.aTool)
      else if args != "" then w.(aTool := true, lag := false, moved := false)
      else w.(waiting := w.waiting || !w.any || w.moved, moved := false)
    case Elsewhere(n) => w.(ids := w.ids + n, moved := MovesOn(w, n))
    case Finish(_) => w.(aTool := false)
    case _ => w.(aTool := false, rTool := false)
  }

  predicate MovesOn(w: Watch, n: nat) { (w.any || w.waiting) && (w.moved || Moves(w.ids, n)) }

  function Watched(xs: seq<Atom>): Watch { Fold(WatchStep, UNWATCHED, xs) }

  /**
   * An atom all consumers understand alike, or that leaves them in a difference the next may settle.
   *   with an id:        once there was a call, some choice must have had an id, and an empty
   *                      name is fine only while no name would be carried over;
   *   with only a name:  no id came before, and the call by index is new or waits for it;
   *   only arguments:    they go to the call opened last, whoever gathers them;
   *   another choice:    it does not take the index from a call that still waits.
   */
  predicate Fits(w: Watch, x: Atom) {
    match x
    case Tool(id, name, args) =>
      if id != "" then
        && !w.lag && (name != "" || w.lastName == "")
        && (if w.waiting then w.ids == 0 else !w.any || w.ids > 0)
      else if name != "" then
        && !w.seen && (w.waiting || !w.any || w.moved)
        && (if w.aTool then args == "" && !w.lag else w.lag ==> name == w.lastName && args == "")
      else if args != "" then
        && w.any && w.rTool && !w.waiting && !w.moved
        && (if w.aTool then !w.lag else w.lag && w.aName == w.lastName)
      else true
    case Elsewhere(n) => !(w.waiting && MovesOn(w, n))
    case _ => true
  }

  predicate FitsAt(xs: seq<Atom>, k: nat)
    requires k < |xs|
  {
    Fits(Watched(xs[..k]), xs[k])
  }

  /** Every atom fits, and no call is left waiting or lagging. */
  predicate AllFit(xs: seq<Atom>) {
    && (forall k :: 0 <= k < |xs| ==> FitsAt(xs, k))
    && !Watched(xs).waiting && !Watched(xs).lag
  }

  // ---------- in step ----------

  predicate Same(j: Joint) { j.a.calls == j.c && j.r.calls == j.c && j.o == j.c }

  predicate Named(c: Call) { c.id != "" || c.name != "" }

  predicate AllNamed(calls: seq<Call>) { forall k :: 0 <= k < |calls| ==> Named(calls[k]) }

  const NAMELESS := Call("", "", "")

  /** The lists agree but for a call that waits or one that lags. */
  predicate InStep(j: Joint, w: Watch) {
    && j.r.calls == j.c && AllNamed(j.c)
    && j.o == j.c + (if w.waiting then [NAMELESS] else [])
    && j.c == j.a.calls + (if w.lag then [Call("", w.lastName, "")] else [])
    && Tracks(j, w)
  }

  predicate Tracks(j: Joint, w: Watch) {
    && w.ids == j.ids && w.moved == j.moved && !(w.waiting && w.moved) && (w.moved ==> w.ids > 0 && w.any)
    && w.any == (j.c != []) && w.seen == (j.r.id != "") && j.a.id == j.r.id
    && w.lastName == j.r.name && w.aName == j.a.name && (!w.lag ==> w.aName == w.lastName)
    && w.aTool == j.a.inTool && w.rTool == j.r.inTool && (w.aTool ==> j.a.calls != [])
    && (!w.any ==> j.a == j.r == View([], "", "", false)) && (w.lag ==> j.a.calls != [] && !w.seen)
  }

  // ---------- apart for good ----------

  /** What a step leaves of a list: calls are added, the last one may have grown. */
  predicate Extends(after: seq<Call>, before: seq<Call>) {
    && |before| <= |after|
    && (forall k :: 0 <= k < |before| ==>
          && after[k].id == before[k].id && after[k].name == before[k].name
          && |before[k].args| <= |after[k].args|)
    && (forall k :: 0 <= k && k + 1 < |before| ==> after[k] == before[k])
  }

  predicate TornAt(xs: seq<Call>, ys: seq<Call>, k: nat) {
    && k < |xs| && k < |ys|
    && (|| xs[k].id != ys[k].id || xs[k].name != ys[k].name
        || (k + 1 < |ys| && |ys[k].args| < |xs[k].args|)
        || (k + 1 < |xs| && |xs[k].args| < |ys[k].args|))
  }

  /** Calls differ by id or name, or one is complete and shorter than the other. */
  predicate Torn(xs: seq<Call>, ys: seq<Call>) { exists k :: 0 <= k < |xs| && TornAt(xs, ys, k) }

  /** The Anthropic stream misses two calls or more, all without arguments. */
  predicate TwoBehind(a: seq<Call>, c: seq<Call>) {
    && a != [] && |a| + 2 <= |c| && a <= c
    && forall k :: |a| <= k < |c| ==> c[k].args == ""
  }

  function NamedCount(calls: seq<Call>): nat {
    if calls == [] then 0
    else NamedCount(calls[..|calls| - 1]) + (if Named(calls[|calls| - 1]) then 1 else 0)
  }

  /** No later delta reaches this call by index. */
  predicate Settled(j: Joint, k: nat) { k + 1 < |j.o| || (k + 1 == |j.o| && j.moved) }

  /** A call by index that will never have an id or a name, or never get arguments that others have. */
  predicate LostAt(j: Joint, k: nat) {
    && k < |j.o| && Settled(j, k)
    && (!Named(j.o[k]) || (k < |j.c| && |j.o[k].args| < |j.c[k].args|))
  }

  predicate Lost(j: Joint) { exists k :: 0 <= k < |j.o| && LostAt(j, k) }

  predicate Nameless(calls: seq<Call>) { exists k :: 0 <= k < |calls| && !Named(calls[k]) }

  /** The lists differ and will for ever. */
  predicate Broken(j: Joint) {
    && AllNamed(j.c)
    && (|| Torn(j.a.calls, j.c) || Torn(j.r.calls, j.c) || |j.c| < |j.r.calls| || Nameless(j.a.calls)
        || TwoBehind(j.a.calls, j.c) || NamedCount(j.o) < |j.c| || Lost(j))
  }

  lemma GrowExtends(calls: seq<Call>, args: string)
    ensures |Grow(calls, args)| == |calls| && Extends(Grow(calls, args), calls)
  {}

  lemma AddExtends(calls: seq<Call>, c: Call, args: string)
    ensures |Grow(calls + [c], args)| == |calls| + 1 && Extends(Grow(calls + [c], args), calls)
  {
    GrowExtends(calls + [c], args);
  }

  lemma ViewToolExtends(v: View, opens: bool, id: string, name: string, args: string)
    ensures Extends(ViewTool(v, opens, id, name, args).calls, v.calls)
    ensures |ViewTool(v, opens, id, name, args).calls| >= |v.calls| + (if opens then 1 else 0)
  {
    hide Grow, Extends;
    var id' := if id != "" then id else v.id;
    var name' := if name != "" then name else v.name;
    GrowExtends(v.calls, args);
    GrowExtends(v.calls, "");
    AddExtends(v.calls, Call(id', name', ""), args);
    AddExtends(v.calls, Call(id', name', ""), "");
    AddExtends(v.calls, Call(v.id, v.name, ""), args);
    GrowNothing(v.calls);
    GrowNothing(v.calls + [Call(id', name', "")]);
  }

  lemma GrowNothing(calls: seq<Call>)
    ensures Grow(calls, "") == calls
  {}

  lemma CollectCallExtends(calls: seq<Call>, id: string, name: string, args: string)
    ensures Extends(CollectCall(calls, id, name, args), calls)
    ensures |CollectCall(calls, id, name, args)| == |calls| + (if id != "" || name != "" then 1 else 0)
    ensures AllNamed(calls) ==> AllNamed(CollectCall(calls, id, name, args))
  {
    GrowExtends(if id != "" || name != "" then calls + [Call(id, name, "")] else calls, args);
  }

  lemma TornStays(xs: seq<Call>, ys: seq<Call>, xs': seq<Call>, ys': seq<Call>)
    requires Torn(xs, ys) && Extends(xs', xs) && Extends(ys', ys)
    ensures Torn(xs', ys')
  {
    var k :| 0 <= k < |xs| && TornAt(xs, ys, k);
    assert TornAt(xs', ys', k);
  }

  lemma NamelessStays(calls: seq<Call>, calls': seq<Call>)
    requires Nameless(calls) && Extends(calls', calls)
    ensures Nameless(calls')
  {
    var k :| 0 <= k < |calls| && !Named(calls[k]);
    assert !Named(calls'[k]);
  }

  lemma CountPush(calls: seq<Call>, c: Call)
    ensures NamedCount(calls + [c]) == NamedCount(calls) + (if Named(c) then 1 else 0)
  {
    assert (calls + [c])[..|calls|] == calls;
  }

  lemma {:induction false} CountAll(calls: seq<Call>)
    requires AllNamed(calls)
    ensures NamedCount(calls) == |calls|
  {
    if calls != [] {
      CountAll(calls[..|calls| - 1]);
    }
  }

  /** A delta gives at most one call by index an id or a name, and only if it carries one. */
  lemma CountGrows(calls: seq<Call>, merges: bool, id: string, name: string, args: string)
    requires merges ==> calls != []
    ensures NamedCount(Joined(calls, merges, id, name, args))
         <= NamedCount(calls) + (if id != "" || name != "" then 1 else 0)
  {
    hide NamedCount;
    if merges {
      var n := |calls| - 1;
      assert calls == calls[..n] + [calls[n]];
      CountPush(calls[..n], calls[n]);
      CountPush(calls[..n], Merged(calls[n], id, name, args));
    } else {
      CountPush(calls, Call(id, name, args));
    }
  }

  lemma LostStays(j: Joint, id: string, name: string, args: string)
    requires Lost(j)
    ensures Lost(ToolStep(j, id, name, args))
  {
    hide ViewTool, CollectCall;
    var k :| 0 <= k < |j.o| && LostAt(j, k);
    CollectCallExtends(j.c, id, name, args);
    assert LostAt(ToolStep(j, id, name, args), k);
  }

  lemma TwoBehindStays(j: Joint, id: string, name: string, args: string)
    requires TwoBehind(j.a.calls, j.c)
    ensures var k := ToolStep(j, id, name, args); TwoBehind(k.a.calls, k.c) || Torn(k.a.calls, k.c)
  {
    var n := |j.a.calls|;
    var v, k := j.a, ToolStep(j, id, name, args);
    assert v.calls[n - 1] == j.c[n - 1] && j.c[n].args == "";
    if id != "" || (name != "" && !v.inTool) {
      hide ViewTool, CollectCall;
      Opened(v, id, name, args);
      Collected1(j.c, id, name, args);
      if !Torn(k.a.calls, k.c) {
        assert !TornAt(k.a.calls, k.c, n);
        assert k.a.calls[n] == k.c[n] && args == "";
      }
    } else if args != "" {
      BehindFed(j, name, args);
    } else {
      GrowNothing(j.c);
      if name != "" {
        hide CollectCall;
        Collected1(j.c, id, name, args);
      }
    }
  }

  lemma BehindFed(j: Joint, name: string, args: string)
    requires TwoBehind(j.a.calls, j.c) && args != "" && (name != "" ==> j.a.inTool)
    ensures var k := ToolStep(j, "", name, args); Torn(k.a.calls, k.c)
  {
    var n := |j.a.calls|;
    var k := ToolStep(j, "", name, args);
    CollectCallExtends(j.c, "", name, args);
    if j.a.inTool {
      assert TornAt(k.a.calls, k.c, n - 1);
    } else {
      GrowNew(j.a.calls, Call(j.a.id, j.a.name, ""), args);
      assert TornAt(k.a.calls, k.c, n);
    }
  }

  /** What is broken stays broken. */
  lemma BrokenTool(j: Joint, id: string, name: string, args: string)
    requires Broken(j)
    ensures Broken(ToolStep(j, id, name, args))
  {
    hide ViewTool, CollectCall, Joined, Torn, Nameless, TwoBehind, NamedCount, Lost, Extends, AllNamed;
    ViewToolExtends(j.a, id != "" || (name != "" && !j.a.inTool), id, name, args);
    ViewToolExtends(j.r, id != "" || name != "", id, name, args);
    CollectCallExtends(j.c, id, name, args);
    CountGrows(j.o, j.o != [] && !j.moved && (id == "" || j.ids == 0), id, name, args);
    var k := ToolStep(j, id, name, args);
    if Torn(j.a.calls, j.c) {
      TornStays(j.a.calls, j.c, k.a.calls, k.c);
    } else if Torn(j.r.calls, j.c) {
      TornStays(j.r.calls, j.c, k.r.calls, k.c);
    } else if Nameless(j.a.calls) {
      NamelessStays(j.a.calls, k.a.calls);
    } else if TwoBehind(j.a.calls, j.c) {
      TwoBehindStays(j, id, name, args);
    } else if Lost(j) {
      LostStays(j, id, name, args);
    }
  }

  lemma BrokenStep(j: Joint, x: Atom)
    requires Broken(j)
    ensures Broken(JointStep(j, x))
  {
    if x.Tool? {
      BrokenTool(j, x.id, x.name, x.args);
    } else if Lost(j) {
      hide Torn, Nameless, TwoBehind, NamedCount;
      var k :| 0 <= k < |j.o| && LostAt(j, k);
      assert LostAt(JointStep(j, x), k);
    } else {
      hide Lost;
    }
  }

  lemma BrokenDiffers(j: Joint)
    requires Broken(j)
    ensures !Same(j)
  {
    if Same(j) {
      CountAll(j.c);
    }
  }

  lemma GrowNew(calls: seq<Call>, c: Call, args: string)
    requires c.args == ""
    ensures Grow(calls + [c], args) == calls + [c.(args := args)]
    ensures Grow(calls + [c], args)[|calls|].name == c.name
  {
    assert "" + args == args;
    assert (calls + [c])[..|calls|] == calls;
  }

  lemma GrowLast(calls: seq<Call>, args: string)
    requires calls != []
    ensures Grow(calls, args) == Joined(calls, true, "", "", args)
    ensures |Grow(calls, args)| == |calls| && Grow(calls, args)[|calls| - 1].name == calls[|calls| - 1].name
  {
    var n := |calls| - 1;
    assert args == "" ==> calls[n].args + args == calls[n].args;
    assert calls == calls[..n] + [calls[n]];
  }

  /** A call opened in all four lists. */
  lemma Opened(v: View, id: string, name: string, args: string)
    ensures ViewTool(v, true, id, name, args).calls
         == v.calls + [Call(if id != "" then id else v.id, if name != "" then name else v.name, args)]
    ensures ViewTool(v, true, id, name, args).inTool
    ensures ViewTool(v, true, id, name, args).id == (if id != "" then id else v.id)
    ensures ViewTool(v, true, id, name, args).name == (if name != "" then name else v.name)
  {
    var c := Call(if id != "" then id else v.id, if name != "" then name else v.name, "");
    GrowNew(v.calls, c, args);
  }

  lemma Collected1(calls: seq<Call>, id: string, name: string, args: string)
    requires id != "" || name != ""
    ensures CollectCall(calls, id, name, args) == calls + [Call(id, name, args)]
  {
    GrowNew(calls, Call(id, name, ""), args);
  }

  /** Arguments alone. */
  lemma Fed(v: View, args: string)
    requires args != ""
    ensures ViewTool(v, false, "", "", args)
         == if v.inTool then v.(calls := Grow(v.calls, args))
            else v.(calls := v.calls + [Call(v.id, v.name, args)], inTool := true)
  {
    GrowNew(v.calls, Call(v.id, v.name, ""), args);
  }

  lemma CollectFed(calls: seq<Call>, args: string)
    ensures CollectCall(calls, "", "", args) == Grow(calls, args)
    ensures calls == [] ==> Grow(calls, args) == []
  {}

  // ---------- one atom while in step ----------

  lemma JoinsWaiting(c: seq<Call>, id: string, name: string, args: string)
    ensures Joined(c + [NAMELESS], true, id, name, args) == c + [Call(id, name, args)]
  {
    assert (c + [NAMELESS])[..|c|] == c;
    assert "" + args == args;
  }

  lemma WithIdFits(j: Joint, w: Watch, id: string, name: string, args: string)
    requires InStep(j, w) && id != "" && Fits(w, Tool(id, name, args))
    ensures InStep(ToolStep(j, id, name, args), WatchStep(w, Tool(id, name, args)))
  {
    hide ViewTool, CollectCall;
    Opened(j.a, id, name, args);
    Opened(j.r, id, name, args);
    Collected1(j.c, id, name, args);
    JoinsWaiting(j.c, id, name, args);
  }

  lemma WithIdBreaks(j: Joint, w: Watch, id: string, name: string, args: string)
    requires InStep(j, w) && id != "" && !Fits(w, Tool(id, name, args))
    ensures Broken(ToolStep(j, id, name, args))
  {
    hide ViewTool, CollectCall, NamedCount;
    Opened(j.a, id, name, args);
    Collected1(j.c, id, name, args);
    var n, k := |j.a.calls|, ToolStep(j, id, name, args);
    if w.lag || (name == "" && w.lastName != "") {
      assert TornAt(k.a.calls, k.c, n);
    } else if w.waiting {
      assert LostAt(k, |j.c|);
    } else {
      MergedShort(j, id, name, args);
    }
  }

  /** A delta that opens a call elsewhere but is merged into a named call by index. */
  lemma MergedShort(j: Joint, id: string, name: string, args: string)
    requires j.o == j.c && AllNamed(j.c) && j.c != []
    ensures NamedCount(Joined(j.o, true, id, name, args)) <= |j.c|
  {
    var n := |j.c| - 1;
    CountAll(j.c[..n]);
    CountPush(j.c[..n], Merged(j.c[n], id, name, args));
  }

  lemma WithNameFits(j: Joint, w: Watch, name: string, args: string)
    requires InStep(j, w) && name != "" && Fits(w, Tool("", name, args))
    ensures InStep(ToolStep(j, "", name, args), WatchStep(w, Tool("", name, args)))
  {
    hide ViewTool, CollectCall, AllNamed;
    Opened(j.a, "", name, args);
    Opened(j.r, "", name, args);
    Collected1(j.c, "", name, args);
    OneMoreNamed(j.c, Call("", name, args));
    NameByIndex(j, w, name, args);
    var k := ToolStep(j, "", name, args);
    if w.aTool {
      Kept(j.a, name);
    } else if w.lag {
      assert k.a.calls == j.c;
    }
    hide Joined;
  }

  lemma OneMoreNamed(calls: seq<Call>, c: Call)
    requires AllNamed(calls) && Named(c)
    ensures AllNamed(calls + [c])
  {}

  lemma NameByIndex(j: Joint, w: Watch, name: string, args: string)
    requires InStep(j, w) && name != "" && Fits(w, Tool("", name, args))
    ensures ToolStep(j, "", name, args).o == j.c + [Call("", name, args)]
  {
    hide ViewTool, CollectCall, AllNamed, Tracks;
    assert !w.waiting ==> j.o == j.c;
    JoinsWaiting(j.c, "", name, args);
    ByIndex(j, w);
  }

  lemma ByIndex(j: Joint, w: Watch)
    requires InStep(j, w)
    ensures j.moved == w.moved && (j.o != [] <==> w.any || w.waiting) && !(w.waiting && w.moved)
  {}

  lemma Kept(v: View, name: string)
    ensures ViewTool(v, false, "", name, "") == v
  {}

  lemma WithNameBreaks(j: Joint, w: Watch, name: string, args: string)
    requires InStep(j, w) && name != "" && !Fits(w, Tool("", name, args))
    ensures Broken(ToolStep(j, "", name, args))
  {
    hide ViewTool, CollectCall, NamedCount;
    Opened(j.a, "", name, args);
    Opened(j.r, "", name, args);
    Collected1(j.c, "", name, args);
    var n, k := |j.a.calls|, ToolStep(j, "", name, args);
    if w.seen {
      assert TornAt(k.r.calls, k.c, |j.c|);
    } else if !w.waiting && w.any && !w.moved {
      MergedShort(j, "", name, args);
    } else if !w.aTool {
      assert TornAt(k.a.calls, k.c, n);
    } else if args != "" {
      FedByName(j, name, args);
    } else {
      Kept(j.a, name);
      assert TwoBehind(k.a.calls, k.c);
    }
  }

  lemma FedByName(j: Joint, name: string, args: string)
    requires j.a.inTool && j.a.calls != [] && j.a.calls <= j.c && name != "" && args != ""
    ensures var k := ToolStep(j, "", name, args); Torn(k.a.calls, k.c)
  {
    hide CollectCall;
    Collected1(j.c, "", name, args);
    var n, k := |j.a.calls| - 1, ToolStep(j, "", name, args);
    assert j.a.calls[n] == j.c[n];
    assert TornAt(k.a.calls, k.c, n);
  }

  lemma ArgsFit(j: Joint, w: Watch, args: string)
    requires InStep(j, w) && args != "" && Fits(w, Tool("", "", args))
    ensures InStep(ToolStep(j, "", "", args), WatchStep(w, Tool("", "", args)))
  {
    hide ViewTool, CollectCall;
    Fed(j.a, args);
    Fed(j.r, args);
    CollectFed(j.c, args);
    GrowLast(j.c, args);
    if w.lag {
      assert "" + args == args;
      assert (j.a.calls + [Call("", w.lastName, "")])[..|j.a.calls|] == j.a.calls;
    }
  }

  lemma ArgsBreak(j: Joint, w: Watch, args: string)
    requires InStep(j, w) && args != "" && !Fits(w, Tool("", "", args))
    ensures Broken(ToolStep(j, "", "", args))
  {
    hide ViewTool, CollectCall, NamedCount, Grow, Joined;
    Fed(j.a, args);
    Fed(j.r, args);
    CollectCallExtends(j.c, "", "", args);
    var k := ToolStep(j, "", "", args);
    if !w.any {
      assert !Named(k.a.calls[0]);
    } else if w.rTool {
      if w.waiting || w.moved {
        ArgsByIndex(j, w, args);
      } else {
        ArgsApart(j, w, args);
      }
    }
  }

  /** The call by index is complete, the others' grows. */
  lemma ArgsByIndex(j: Joint, w: Watch, args: string)
    requires InStep(j, w) && args != "" && w.any && (w.waiting || w.moved)
    ensures Lost(ToolStep(j, "", "", args))
  {
    hide ViewTool, CollectCall, Grow, NamedCount;
    CollectFed(j.c, args);
    GrowLast(j.c, args);
    assert LostAt(ToolStep(j, "", "", args), |j.c| - 1);
  }

  lemma LastGrows(calls: seq<Call>, args: string)
    requires calls != []
    ensures |Grow(calls, args)| == |calls|
    ensures Grow(calls, args)[|calls| - 1].args == calls[|calls| - 1].args + args
    ensures forall k :: 0 <= k < |calls| ==> Grow(calls, args)[k].name == calls[k].name
    ensures forall k :: 0 <= k < |calls| - 1 ==> Grow(calls, args)[k] == calls[k]
  {
    assert args == "" ==> calls[|calls| - 1].args + args == calls[|calls| - 1].args;
  }

  /** The Anthropic stream gives the arguments to another call than the others. */
  lemma ArgsApart(j: Joint, w: Watch, args: string)
    requires InStep(j, w) && args != "" && w.any && (if w.aTool then w.lag else w.lag ==> w.aName != w.lastName)
    ensures var k := ToolStep(j, "", "", args); Torn(k.a.calls, k.c)
  {
    hide ViewTool, CollectCall, Grow, Joined;
    Fed(j.a, args);
    CollectFed(j.c, args);
    LastGrows(j.c, args);
    var n, k := |j.a.calls|, ToolStep(j, "", "", args);
    if w.aTool {
      LastGrows(j.a.calls, args);
      assert TornAt(k.a.calls, k.c, n - 1);
    } else if w.lag {
      assert TornAt(k.a.calls, k.c, n);
    } else {
      assert TornAt(k.a.calls, k.c, n - 1);
    }
  }

  /** A delta with nothing in it. */
  lemma NothingFits(j: Joint, w: Watch)
    requires InStep(j, w)
    ensures InStep(ToolStep(j, "", "", ""), WatchStep(w, Tool("", "", "")))
  {
    GrowNothing(j.c);
    if j.o != [] && !j.moved {
      MergeNothing(j.o);
    }
  }

  lemma MergeNothing(calls: seq<Call>)
    requires calls != []
    ensures Joined(calls, true, "", "", "") == calls
  {
    var n := |calls| - 1;
    assert calls[n].args + "" == calls[n].args;
    assert calls == calls[..n] + [calls[n]];
  }

  lemma ElsewhereStep(j: Joint, w: Watch, n: nat)
    requires InStep(j, w)
    ensures var x := Elsewhere(n);
      if Fits(w, x) then InStep(JointStep(j, x), WatchStep(w, x)) else Broken(JointStep(j, x))
  {
    if w.waiting && MovesOn(w, n) {
      assert LostAt(JointStep(j, Elsewhere(n)), |j.c|);
    }
  }

  lemma ProseStep(j: Joint, w: Watch, x: Atom)
    requires InStep(j, w) && !x.Tool? && !x.Elsewhere?
    ensures InStep(JointStep(j, x), WatchStep(w, x))
  {}

  /** An atom that fits keeps the folds in step, any other parts them for good. */
  lemma InStepStep(j: Joint, w: Watch, x: Atom)
    requires InStep(j, w)
    ensures if Fits(w, x) then InStep(JointStep(j, x), WatchStep(w, x)) else Broken(JointStep(j, x))
  {
    hide InStep, Broken, ToolStep, WatchStep;
    match x
    case Tool(id, name, args) =>
      hide Fits;
      if id != "" {
        if Fits(w, x) { WithIdFits(j, w, id, name, args); } else { WithIdBreaks(j, w, id, name, args); }
      } else if name != "" {
        if Fits(w, x) { WithNameFits(j, w, name, args); } else { WithNameBreaks(j, w, name, args); }
      } else if args != "" {
        if Fits(w, x) { ArgsFit(j, w, args); } else { ArgsBreak(j, w, args); }
      } else {
        NothingFits(j, w);
        EmptyFits(w);
      }
    case Elsewhere(n) => ElsewhereStep(j, w, n);
    case _ => ProseStep(j, w, x);
  }

  lemma EmptyFits(w: Watch)
    ensures Fits(w, Tool("", "", ""))
  {}

  // ---------- the theorem ----------

  predicate Phase(xs: seq<Atom>, fits: bool) {
    if fits then InStep(JointOf(xs), Watched(xs)) else Broken(JointOf(xs))
  }

  predicate FitsUpTo(xs: seq<Atom>, n: nat)
    requires n <= |xs|
  {
    forall k :: 0 <= k < n ==> FitsAt(xs, k)
  }

  lemma PhaseStep(xs: seq<Atom>, x: Atom, fits: bool)
    requires Phase(xs, fits)
    ensures Phase(xs + [x], fits && Fits(Watched(xs), x))
  {
    hide JointOf, JointStep, InStep, Broken, Fits, WatchStep, Fold;
    var j, w := JointOf(xs), Watched(xs);
    JointPush(xs, x);
    WatchedPush(xs, x);
    if fits {
      InStepStep(j, w, x);
    } else {
      BrokenStep(j, x);
    }
  }

  lemma WatchedPush(xs: seq<Atom>, x: Atom)
    ensures Watched(xs + [x]) == WatchStep(Watched(xs), x)
  {
    FoldPush(WatchStep, UNWATCHED, xs, x);
  }

  lemma {:induction false} PhaseUpTo(xs: seq<Atom>, n: nat)
    requires n <= |xs|
    ensures Phase(xs[..n], FitsUpTo(xs, n))
  {
    hide Phase, FitsAt;
    if n == 0 {
      PhaseStart();
      assert xs[..0] == [];
    } else {
      PhaseUpTo(xs, n - 1);
      assert xs[..n] == xs[..n - 1] + [xs[n - 1]];
      PhaseStep(xs[..n - 1], xs[n - 1], FitsUpTo(xs, n - 1));
      FitsNext(xs, n - 1);
    }
  }

  lemma FitsNext(xs: seq<Atom>, k: nat)
    requires k < |xs|
    ensures FitsUpTo(xs, k + 1) == (FitsUpTo(xs, k) && Fits(Watched(xs[..k]), xs[k]))
  {
    hide Watched, Fits;
    assert FitsAt(xs, k) == Fits(Watched(xs[..k]), xs[k]);
  }

  lemma PhaseStart()
    ensures Phase([], true)
  {}

  lemma InStepSame(j: Joint, w: Watch)
    requires InStep(j, w)
    ensures Same(j) <==> !w.waiting && !w.lag
  {
    assert w.waiting ==> |j.o| == |j.c| + 1;
    assert w.lag ==> |j.c| == |j.a.calls| + 1;
  }

  /**
   * For whatever upstream sends, in any number of choices: the five call lists are the same
   * exactly when every atom fits and no call is left waiting or lagging.  The condition
   * looks at the chunks alone; an atom that does not fit is never made up for.
   */
  lemma CallsAgreeIff(xs: seq<Atom>)
    ensures Agree(xs) <==> AllFit(xs)
  {
    hide Watched, FitsAt, InStep, Broken, JointOf, Same;
    PhaseUpTo(xs, |xs|);
    assert xs[..|xs|] == xs;
    var j, w := JointOf(xs), Watched(xs);
    SameIsAgree(xs);
    if FitsUpTo(xs, |xs|) {
      InStepSame(j, w);
    } else {
      BrokenDiffers(j);
    }
  }

  lemma SameIsAgree(xs: seq<Atom>)
    ensures Agree(xs) <==> Same(JointOf(xs))
  {}

  // ---------- the discipline ----------

  /**
   * The discipline upstream follows: a call opens with an id and a name and goes on with
   * neither, with nothing in between, not even a call of another choice.
   */
  predicate Disciplined(xs: seq<Atom>) {
    forall k :: 0 <= k < |xs| ==> InOrder(xs, k)
  }

  predicate InOrder(xs: seq<Atom>, k: nat)
    requires k < |xs|
  {
    xs[k].Tool? ==>
      || (xs[k].id != "" && xs[k].name != "")
      || (xs[k].id == "" && xs[k].name == "" && InCall(xs[..k]))
  }

  /** The last atom, but for chunks in which other choices open no call, is a tool delta. */
  predicate InCall(xs: seq<Atom>) {
    xs != [] && (xs[|xs| - 1].Tool? || (xs[|xs| - 1] == Elsewhere(0) && InCall(xs[..|xs| - 1])))
  }

  predicate Orderly(w: Watch, inCall: bool) {
    && (w.any ==> w.seen && w.ids > 0) && !w.waiting && !w.lag
    && (inCall ==> w.any && w.aTool && w.rTool && !w.moved)
  }

  lemma OrderlyStep(w: Watch, inCall: bool, x: Atom)
    requires Orderly(w, inCall)
    requires x.Tool? ==> (x.id != "" && x.name != "") || (x.id == "" && x.name == "" && inCall)
    ensures Fits(w, x) && Orderly(WatchStep(w, x), x.Tool? || (x == Elsewhere(0) && inCall))
  {}

  lemma {:induction false} DisciplinedWatch(xs: seq<Atom>, n: nat)
    requires Disciplined(xs) && n <= |xs|
    ensures Orderly(Watched(xs[..n]), InCall(xs[..n]))
    ensures n > 0 ==> Fits(Watched(xs[..n - 1]), xs[n - 1])
  {
    hide Watched, Orderly, Fits;
    if n == 0 {
      OrderlyStart();
      assert xs[..0] == [];
    } else {
      DisciplinedWatch(xs, n - 1);
      WatchedPush(xs[..n - 1], xs[n - 1]);
      assert xs[..n] == xs[..n - 1] + [xs[n - 1]];
      assert xs[..n][..n - 1] == xs[..n - 1];
      assert InOrder(xs, n - 1);
      OrderlyStep(Watched(xs[..n - 1]), InCall(xs[..n - 1]), xs[n - 1]);
    }
  }

  lemma OrderlyStart()
    ensures Orderly(Watched([]), false)
  {}

  /** Under that discipline all five consumers deliver the same calls, at the end and at every point before. */
  lemma DisciplineSuffices(xs: seq<Atom>, n: nat)
    requires Disciplined(xs) && n <= |xs|
    ensures AllFit(xs[..n]) && Agree(xs[..n])
  {
    hide Watched, Agree, Fits, InOrder;
    var ys := xs[..n];
    forall k | 0 <= k < n
      ensures FitsAt(ys, k)
    {
      assert ys[..k] == xs[..k];
      DisciplinedWatch(xs, k + 1);
    }
    DisciplinedWatch(xs, n);
    CallsAgreeIff(ys);
  }
}
