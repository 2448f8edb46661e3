/**
 * The object slab of the WASM host (tools/wasm_oracle/backend.go:27-34, 76-107): a
 * free list threaded through the array that also holds the live values.
 */
module ObjectSlab {
  import opened Basics

  const RESERVED := 1028          // handles the program sets aside
  const LIMIT := 0x1_0000_0000    // handles are uint32

  /** What a cell can hold; a stored value may itself be a number. */
  datatype Any<V> = Number(n: nat) | Other(v: V) | Nil | Undefined

  datatype Slab<V> = Slab(heap: seq<Any<V>>, next: nat)

  /** The cells before 1028 are nil but for undefined, null, true and false at the end. */
  function Initial<V>(sentinels: seq<Any<V>>): Slab<V>
    requires |sentinels| == 4
  {
    Slab(seq(1024, _ => Nil) + sentinels, RESERVED)
  }

  function U32(n: nat): (r: nat)
    ensures r <= n && (n < LIMIT ==> r == n)
  {
    n % LIMIT
  }

  // ---------- the operations on values ----------

  function Pushed<V>(s: Slab<V>): seq<Any<V>> {
    if s.next == U32(|s.heap|) then s.heap + [Number(|s.heap| + 1)] else s.heap
  }

  /** The next free cell is taken; its number is the next free cell after it. */
  function Added<V>(s: Slab<V>, v: Any<V>): (Slab<V>, nat)
    requires s.next <= |s.heap| < LIMIT
  {
    var heap := Pushed(s);
    var cell := heap[s.next];
    (Slab(heap[s.next := v], if cell.Number? then U32(cell.n) else U32(|heap|)), s.next)
  }

  /** The loop at the end of add is not entered, and so add returns. */
  predicate Returns<V>(s: Slab<V>) { s.next < U32(|Pushed(s)|) }

  function Dropped<V>(s: Slab<V>, index: nat): Slab<V> {
    if index < RESERVED || index >= U32(|s.heap|) then s
    else Slab(s.heap[index := Number(s.next)], index)
  }

  function Got<V>(s: Slab<V>, index: nat): Any<V> {
    if index < U32(|s.heap|) then s.heap[index] else Undefined
  }

  // ---------- the free list ----------

  /** Where the k-th cell of the list points: to the next cell, or past the end of the heap. */
  function Target<V>(s: Slab<V>, free: seq<nat>, k: nat): nat
    requires k <= |free|
  {
    if k < |free| then free[k] else |s.heap|
  }

  /** The list from `next`: distinct cells outside the reserved ones, each naming the next. */
  predicate Chain<V>(s: Slab<V>, free: seq<nat>) {
    && RESERVED <= |s.heap| < LIMIT
    && s.next == Target(s, free, 0)
    && (forall k :: 0 <= k < |free| ==> RESERVED <= free[k] < |s.heap|)
    && (forall k :: 0 <= k < |free| ==> s.heap[free[k]] == Number(Target(s, free, k + 1)))
    && (forall i, j :: 0 <= i < j < |free| ==> free[i] != free[j])
  }

  /** The live handles and their values. */
  function Handles<V>(s: Slab<V>, free: seq<nat>): map<nat, Any<V>> {
    map h | RESERVED <= h < |s.heap| && h !in free :: s.heap[h]
  }

  /** The cells on the list after an add. */
  function Rest(free: seq<nat>): seq<nat> { if free == [] then [] else free[1..] }

  /** What add does on a list: extend the heap if it is empty, else take its first cell. */
  lemma AddedOnChain<V>(s: Slab<V>, free: seq<nat>, v: Any<V>)
    requires Chain(s, free) && (free != [] || |s.heap| + 1 < LIMIT)
    ensures Added(s, v) ==
      if free == [] then (Slab(s.heap + [v], |s.heap| + 1), |s.heap|)
      else (Slab(s.heap[free[0] := v], Target(s, free, 1)), free[0])
  {
    if free == [] {
      var heap := Pushed(s);
      assert heap[|s.heap|] == Number(|s.heap| + 1);
      assert heap[|s.heap| := v] == s.heap + [v];
    }
  }

  /**
   * The loop at the end of add, which pads the heap while its length as a handle is
   * not above the index: it is not entered while there is room, and never left when
   * the heap has reached the last handle.
   */
  lemma PaddingLoop<V>(s: Slab<V>, free: seq<nat>)
    requires Chain(s, free)
    ensures free != [] || |s.heap| + 1 < LIMIT <==> Returns(s)
    ensures free == [] && |s.heap| + 1 == LIMIT ==> forall n: nat :: U32(n) <= s.next
  {
    if free != [] {
      assert s.next == free[0];
    }
  }

  lemma TakenChain<V>(s: Slab<V>, free: seq<nat>, v: Any<V>)
    requires Chain(s, free) && free != []
    ensures Chain(Slab(s.heap[free[0] := v], Target(s, free, 1)), free[1..])
  {
    var t, rest := Slab(s.heap[free[0] := v], Target(s, free, 1)), free[1..];
    forall k | 0 <= k < |rest|
      ensures t.heap[rest[k]] == Number(Target(t, rest, k + 1))
    {
      assert s.heap[free[k + 1]] == Number(Target(s, free, k + 2));
      assert free[0] != free[k + 1];
    }
  }

  lemma TakenHandles<V>(s: Slab<V>, free: seq<nat>, v: Any<V>)
    requires Chain(s, free) && free != []
    ensures var t := Slab(s.heap[free[0] := v], Target(s, free, 1));
      free[0] !in Handles(s, free) && Handles(t, free[1..]) == Handles(s, free)[free[0] := v]
  {
    var t := Slab(s.heap[free[0] := v], Target(s, free, 1));
    assert free == [free[0]] + free[1..];
    assert free[0] !in free[1..];
  }

  lemma GrownChain<V>(s: Slab<V>, v: Any<V>)
    requires Chain(s, []) && |s.heap| + 1 < LIMIT
    ensures var t := Slab(s.heap + [v], |s.heap| + 1);
      Chain(t, []) && |s.heap| !in Handles(s, []) && Handles(t, []) == Handles(s, [])[|s.heap| := v]
  {}

  /**
   * add returns a handle that is neither live nor reserved, binds it to the value
   * and changes no other; the list loses exactly that cell.
   */
  lemma AddRefines<V>(s: Slab<V>, free: seq<nat>, v: Any<V>)
    requires Chain(s, free) && (free != [] || |s.heap| + 1 < LIMIT)
    ensures var (t, h) := Added(s, v);
      && Chain(t, Rest(free))
      && h >= RESERVED && h !in Handles(s, free)
      && Handles(t, Rest(free)) == Handles(s, free)[h := v]
      && t.heap[..RESERVED] == s.heap[..RESERVED]
  {
    AddedOnChain(s, free, v);
    if free == [] {
      GrownChain(s, v);
    } else {
      TakenChain(s, free, v);
      TakenHandles(s, free, v);
    }
    hide Added, Handles;
  }

  lemma FreedChain<V>(s: Slab<V>, free: seq<nat>, index: nat)
    requires Chain(s, free) && RESERVED <= index < |s.heap| && index !in free
    ensures Chain(Slab(s.heap[index := Number(s.next)], index), [index] + free)
  {
    var t, longer := Slab(s.heap[index := Number(s.next)], index), [index] + free;
    forall k | 0 <= k < |longer|
      ensures t.heap[longer[k]] == Number(Target(t, longer, k + 1))
    {
      if k > 0 {
        assert s.heap[free[k - 1]] == Number(Target(s, free, k));
      }
    }
  }

  /** drop of a live handle unbinds it and puts its cell at the head of the list. */
  lemma DropRefines<V>(s: Slab<V>, free: seq<nat>, index: nat)
    requires Chain(s, free) && index in Handles(s, free)
    ensures var t := Dropped(s, index);
      && Chain(t, [index] + free)
      && Handles(t, [index] + free) == Handles(s, free) - {index}
      && t.heap[..RESERVED] == s.heap[..RESERVED]
  {
    FreedChain(s, free, index);
    hide Chain;
  }

  /** A drop of a reserved handle or of one never given out changes nothing. */
  lemma DropOutside<V>(s: Slab<V>, free: seq<nat>, index: nat)
    requires Chain(s, free) && (index < RESERVED || index >= |s.heap|)
    ensures Dropped(s, index) == s
  {}

  lemma GetRefines<V>(s: Slab<V>, free: seq<nat>, index: nat)
    requires Chain(s, free)
    ensures index in Handles(s, free) ==> Got(s, index) == Handles(s, free)[index]
    ensures index < RESERVED ==> Got(s, index) == s.heap[index]
  {}

  lemma ChainAt<V>(s: Slab<V>, free: seq<nat>, k: nat)
    requires Chain(s, free)
    ensures s.next == Target(s, free, 0)
    ensures k < |free| ==> RESERVED <= free[k] < |s.heap| < LIMIT && s.heap[free[k]] == Number(Target(s, free, k + 1))
  {}

  lemma ChainDistinct<V>(s: Slab<V>, free: seq<nat>, i: nat, j: nat)
    requires Chain(s, free) && i < |free| && j < |free| && i != j
    ensures free[i] != free[j]
  {}

  /** The state alone determines the list. */
  lemma ChainUnique<V>(s: Slab<V>, free: seq<nat>, other: seq<nat>)
    requires Chain(s, free) && Chain(s, other)
    ensures free == other
  {
    hide Chain;
    var n := if |free| <= |other| then |free| else |other|;
    ChainPrefix(s, free, other, n);
    ChainAt(s, free, n);
    ChainAt(s, other, n);
    assert free[..n] == other[..n];
  }

  lemma {:induction false} ChainPrefix<V>(s: Slab<V>, free: seq<nat>, other: seq<nat>, k: nat)
    requires Chain(s, free) && Chain(s, other) && k <= |free| && k <= |other|
    ensures free[..k] == other[..k] && Target(s, free, k) == Target(s, other, k)
  {
    hide Chain;
    ChainAt(s, free, 0);
    ChainAt(s, other, 0);
    if k > 0 {
      ChainPrefix(s, free, other, k - 1);
      ChainAt(s, free, k - 1);
      ChainAt(s, other, k - 1);
      assert free[..k] == free[..k - 1] + [free[k - 1]];
      assert other[..k] == other[..k - 1] + [other[k - 1]];
    }
  }

  // ---------- dropping a handle twice ----------

  /** The cell reached from a start in n steps, each to the number in the cell. */
  function Follow<V>(s: Slab<V>, start: nat, n: nat): Option<nat> {
    if n == 0 then Some(start)
    else
      match Follow(s, start, n - 1)
      case None => None
      case Some(i) => if i < |s.heap| && s.heap[i].Number? then Some(s.heap[i].n) else None
  }

  lemma {:induction false} ChainFollow<V>(s: Slab<V>, free: seq<nat>, k: nat)
    requires Chain(s, free) && k <= |free|
    ensures Follow(s, s.next, k) == Some(Target(s, free, k))
  {
    hide Chain;
    ChainAt(s, free, k);
    if k > 0 {
      ChainFollow(s, free, k - 1);
      ChainAt(s, free, k - 1);
    }
  }

  /** After a second drop the list leads from the cell through those before it, and back. */
  lemma {:induction false} DroppedTwiceLoops<V>(s: Slab<V>, free: seq<nat>, m: nat, k: nat)
    requires Chain(s, free) && k <= m < |free|
    ensures var t := Dropped(s, free[m]);
      t.next == free[m] && Follow(t, t.next, k + 1) == Some(free[k]) && free[k] < |t.heap|
  {
    hide Chain;
    ChainAt(s, free, m);
    ChainAt(s, free, k);
    var t := Dropped(s, free[m]);
    assert Follow(t, t.next, 0) == Some(t.next);
    if k > 0 {
      DroppedTwiceLoops(s, free, m, k - 1);
      ChainAt(s, free, k - 1);
      ChainDistinct(s, free, k - 1, m);
    }
  }

  lemma TargetsDiffer<V>(s: Slab<V>, free: seq<nat>, k: nat)
    requires Chain(s, free) && 0 < k <= |free|
    ensures Target(s, free, k) != Target(s, free, 0)
  {}

  /** A list that leads back to its head is no free list. */
  lemma LoopIsNoChain<V>(s: Slab<V>, n: nat, free: seq<nat>)
    requires n > 0 && Follow(s, s.next, n) == Some(s.next)
    requires forall k :: 0 <= k <= n ==> Follow(s, s.next, k).Some? && Follow(s, s.next, k).value < |s.heap|
    ensures !Chain(s, free)
  {
    hide Chain, Follow;
    if Chain(s, free) {
      if n <= |free| {
        TargetsDiffer(s, free, n);
        ChainFollow(s, free, n);
        ChainAt(s, free, 0);
      } else {
        ChainFollow(s, free, |free|);
      }
    }
  }

  /** drop keeps the list exactly when the handle is not on it already. */
  lemma DropKeepsListIff<V>(s: Slab<V>, free: seq<nat>, index: nat)
    requires Chain(s, free)
    ensures (exists other :: Chain(Dropped(s, index), other)) <==> index !in free
  {
    if index in free {
      var m :| 0 <= m < |free| && free[m] == index;
      var t := Dropped(s, index);
      forall k | 0 <= k <= m + 1
        ensures Follow(t, t.next, k).Some? && Follow(t, t.next, k).value < |t.heap|
      {
        DroppedTwiceLoops(s, free, m, if k == 0 then 0 else k - 1);
      }
      DroppedTwiceLoops(s, free, m, m);
      forall other
        ensures !Chain(t, other)
      {
        LoopIsNoChain(t, m + 1, other);
      }
    } else if RESERVED <= index < |s.heap| {
      FreedChain(s, free, index);
      assert Chain(Dropped(s, index), [index] + free);
    } else {
      DropOutside(s, free, index);
      assert Chain(Dropped(s, index), free);
    }
  }

  /** A handle dropped twice in a row is given out twice: two values share it. */
  lemma DroppedTwiceAliases<V>(s: Slab<V>, free: seq<nat>, index: nat, v: Any<V>, w: Any<V>)
    requires Chain(s, free) && index in Handles(s, free)
    ensures var twice := Dropped(Dropped(s, index), index);
      var (one, h) := Added(twice, v);
      h == index && one.next <= |one.heap| < LIMIT && Added(one, w).1 == index
  {}

  // ---------- whole runs ----------

  datatype Op<V> = Add(v: Any<V>) | Drop(handle: nat) | Get(handle: nat) | Take(handle: nat)

  /** The slab after an operation, and the handle an add returned. */
  function Step<V>(s: Slab<V>, op: Op<V>): (Slab<V>, nat)
    requires s.next <= |s.heap| < LIMIT
  {
    match op
    case Add(v) => Added(s, v)
    case Drop(h) => (Dropped(s, h), h)
    case Get(h) => (s, h)
    case Take(h) => (Dropped(s, h), h)
  }

  /** The same operation on a plain map from handles to values. */
  function Plain<V>(m: map<nat, Any<V>>, op: Op<V>, handle: nat): map<nat, Any<V>> {
    match op
    case Add(v) => m[handle := v]
    case Drop(h) => m - {h}
    case Get(_) => m
    case Take(h) => m - {h}
  }

  /** What a user of the slab keeps to: only live handles are dropped or taken. */
  predicate Allowed<V>(m: map<nat, Any<V>>, op: Op<V>) {
    op.Drop? || op.Take? ==> op.handle in m
  }

  datatype Run<V> = Run(slab: Slab<V>, plain: map<nat, Any<V>>)

  /** Slab and plain map after a run; None if an operation was not allowed or an add did not return. */
  function After<V>(sentinels: seq<Any<V>>, ops: seq<Op<V>>): Option<Run<V>>
    requires |sentinels| == 4
  {
    if ops == [] then Some(Run(Initial(sentinels), map[]))
    else
      var n := |ops| - 1;
      match After(sentinels, ops[..n])
      case None => None
      case Some(r) =>
        if !Allowed(r.plain, ops[n]) || r.slab.next > |r.slab.heap| || |r.slab.heap| >= LIMIT
           || (ops[n].Add? && !Returns(r.slab))
        then None
        else
          var (t, h) := Step(r.slab, ops[n]);
          Some(Run(t, Plain(r.plain, ops[n], h)))
  }

  /** One operation keeps slab and map together. */
  lemma StepRefines<V>(s: Slab<V>, free: seq<nat>, m: map<nat, Any<V>>, op: Op<V>) returns (free': seq<nat>)
    requires Chain(s, free) && Handles(s, free) == m && Allowed(m, op)
    requires op.Add? ==> Returns(s)
    requires s.next <= |s.heap| < LIMIT
    ensures var (t, h) := Step(s, op);
      && Chain(t, free') && Handles(t, free') == Plain(m, op, h)
      && t.heap[..RESERVED] == s.heap[..RESERVED]
  {
    hide Chain, Handles, Added, Dropped, Returns;
    PaddingLoop(s, free);
    match op {
      case Add(v) =>
        AddRefines(s, free, v);
        free' := Rest(free);
      case Drop(h) =>
        DropRefines(s, free, h);
        free' := [h] + free;
      case Get(_) =>
        free' := free;
      case Take(h) =>
        DropRefines(s, free, h);
        free' := [h] + free;
    }
  }

  /**
   * Over every run that drops only live handles the slab is the plain map: get
   * returns the last value stored under each live handle, the list holds every
   * other cell once, and the reserved cells are untouched.
   */
  lemma {:induction false} RunRefines<V>(sentinels: seq<Any<V>>, ops: seq<Op<V>>) returns (free: seq<nat>)
    requires |sentinels| == 4 && After(sentinels, ops).Some?
    ensures var r := After(sentinels, ops).value;
      && Chain(r.slab, free) && Handles(r.slab, free) == r.plain
      && (forall h :: h in r.plain ==> h >= RESERVED && Got(r.slab, h) == r.plain[h])
      && r.slab.heap[..RESERVED] == Initial(sentinels).heap
    decreases |ops|
  {
    var r := After(sentinels, ops).value;
    if ops == [] {
      free := [];
      assert Handles(r.slab, []) == map[];
    } else {
      var n := |ops| - 1;
      var before := After(sentinels, ops[..n]).value;
      var list := RunRefines(sentinels, ops[..n]);
      free := StepRefines(before.slab, list, before.plain, ops[n]);
    }
    forall h | h in r.plain
      ensures h >= RESERVED && Got(r.slab, h) == r.plain[h]
    {
      GetRefines(r.slab, free, h);
    }
  }

  // ---------- the full heap is reached ----------

  function Adds<V>(v: Any<V>, n: nat): seq<Op<V>> {
    if n == 0 then [] else Adds(v, n - 1) + [Add(v)]
  }

  lemma AfterAdd<V>(sentinels: seq<Any<V>>, ops: seq<Op<V>>, v: Any<V>)
    requires |sentinels| == 4 && After(sentinels, ops).Some?
    requires var s := After(sentinels, ops).value.slab; s.next <= |s.heap| < LIMIT && Returns(s)
    ensures var r := After(sentinels, ops + [Add(v)]);
      r.Some? && r.value.slab == Added(After(sentinels, ops).value.slab, v).0
  {
    hide Added, Returns;
    var longer := ops + [Add(v)];
    assert longer[..|longer| - 1] == ops && longer[|longer| - 1] == Add(v);
  }

  /** Adds alone fill the heap cell by cell, and the free list stays empty. */
  lemma {:induction false} AddsFill<V>(sentinels: seq<Any<V>>, v: Any<V>, n: nat)
    requires |sentinels| == 4 && RESERVED + n < LIMIT
    ensures var r := After(sentinels, Adds(v, n));
      r.Some? && |r.value.slab.heap| == RESERVED + n && Chain(r.value.slab, [])
  {
    if n == 0 {
      assert Chain(Initial(sentinels), []);
    } else {
      hide After, Chain, Added, Returns, Handles;
      AddsFill(sentinels, v, n - 1);
      var s := After(sentinels, Adds(v, n - 1)).value.slab;
      EmptyChain(s);
      PaddingLoop(s, []);
      AddedOnChain(s, [], v);
      GrownChain(s, v);
      AfterAdd(sentinels, Adds(v, n - 1), v);
    }
  }

  lemma EmptyChain<V>(s: Slab<V>)
    requires Chain(s, [])
    ensures s.next == |s.heap| < LIMIT
  {}

  /** So there is a run after which the next add does not return, however long it pads the heap. */
  lemma AddStopsReturning<V>(sentinels: seq<Any<V>>, v: Any<V>)
    requires |sentinels| == 4
    ensures var r := After(sentinels, Adds(v, LIMIT - 1 - RESERVED));
      && r.Some? && |r.value.slab.heap| == LIMIT - 1 && !Returns(r.value.slab)
      && forall n: nat :: U32(n) <= r.value.slab.next
  {
    hide After, Adds, Chain, Returns;
    AddsFill(sentinels, v, LIMIT - 1 - RESERVED);
    PaddingLoop(After(sentinels, Adds(v, LIMIT - 1 - RESERVED)).value.slab, []);
  }

  // ---------- the host object ----------

  class WasmBackend<V> {
    var heap: seq<Any<V>>
    var heapNext: nat
    ghost var free: seq<nat>

    function State(): Slab<V>
      reads this
    {
      Slab(heap, heapNext)
    }

    /** The free list is in order; so add may be called as long as there is room. */
    ghost predicate Valid()
      reads this
    {
      Chain(State(), free)
    }

    constructor (sentinels: seq<Any<V>>)
      requires |sentinels| == 4
      ensures State() == Initial(sentinels) && Valid() && free == []
    {
      heap := seq(1024, _ => Nil) + sentinels;
      heapNext := RESERVED;
      free := [];
    }

    /** An add for which the list has a cell or the heap has room. */
    ghost predicate Room()
      reads this
    {
      heapNext <= |heap| < LIMIT && Returns(State())
    }

    lemma ValidRoom()
      requires Valid()
      ensures Room() <==> free != [] || |heap| + 1 < LIMIT
    {
      PaddingLoop(State(), free);
    }

    method Add(v: Any<V>) returns (index: nat)
      requires Room()
      modifies this
      ensures (State(), index) == Added(old(State()), v)
      ensures old(Valid()) ==> Valid() && free == Rest(old(free))
    {
      ghost var before := State();
      if heapNext == U32(|heap|) {
        heap := heap + [Number(|heap| + 1)];
      }
      index := heapNext;
      match heap[index] {
        case Number(n) => heapNext := U32(n);
        case _ => heapNext := U32(|heap|);
      }
      heap := heap[index := v];
      if Chain(before, free) {
        hide Chain, Added, Handles;
        PaddingLoop(before, free);
        AddRefines(before, free, v);
      }
      free := Rest(free);
    }

    method Drop(index: nat)
      modifies this
      ensures State() == Dropped(old(State()), index)
      ensures old(Valid()) && index !in old(free) ==>
                Valid() && free == (if RESERVED <= index < |heap| then [index] else []) + old(free)
    {
      if index < RESERVED || index >= U32(|heap|) {
        assert [] + free == free;
        return;
      }
      ghost var before := State();
      heap := heap[index := Number(heapNext)];
      heapNext := index;
      if Chain(before, free) && index !in free {
        FreedChain(before, free, index);
      }
      free := [index] + free;
    }

    method Get(index: nat) returns (value: Any<V>)
      ensures value == Got(State(), index)
    {
      if index < U32(|heap|) {
        return heap[index];
      }
      value := Undefined;
    }

    method Take(index: nat) returns (value: Any<V>)
      modifies this
      ensures value == Got(old(State()), index) && State() == Dropped(old(State()), index)
      ensures old(Valid()) && index !in old(free) ==>
                Valid() && free == (if RESERVED <= index < |heap| then [index] else []) + old(free)
    {
      value := Get(index);
      Drop(index);
    }
  }
}
