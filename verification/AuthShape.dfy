/** Every step keeps the lock discipline and the ownership of contexts and records. */
module AuthShape {
  import opened Basics
  import opened AuthModel
  import opened AuthInvariant

  /** `s2` is `s` after thread `t` moved on inside its critical section, locks untouched. */
  predicate Moves(s: State, s2: State, t: Tid, op: Op, at: Label, at2: Label) {
    && PcOf(s, t) == Crit(op, at) && s2.threads == s.threads[t := Crit(op, at2)]
    && s2.readOnly == s.readOnly && s2.mu == s.mu && s2.closed == s.closed && s2.once == s.once
  }

  lemma LocksMove(s: State, s2: State, t: Tid, op: Op, at: Label, at2: Label)
    requires Locks(s) && Moves(s, s2, t, op, at, at2)
    requires s2.ctxWriter == s.ctxWriter && s2.protoCtx == s.protoCtx
    requires HoldsWriteLock(at) == HoldsWriteLock(at2)
    ensures Locks(s2)
  {
  }

  lemma LocksAcquire(s: State, s2: State, t: Tid, op: Op, at: Label, at2: Label)
    requires Locks(s) && Moves(s, s2, t, op, at, at2)
    requires WriteLockFree(s) && s2.ctxWriter == Some(t) && s2.protoCtx == s.protoCtx
    requires HoldsWriteLock(at2)
    ensures Locks(s2)
  {
  }

  lemma LocksRelease(s: State, s2: State, t: Tid, op: Op, at: Label, at2: Label)
    requires Locks(s) && Moves(s, s2, t, op, at, at2)
    requires HoldsWriteLock(at) && !HoldsWriteLock(at2) && s2.ctxWriter == None
    ensures Locks(s2)
  {
  }

  lemma ClosersMove(s: State, s2: State, t: Tid, op: Op, at: Label, at2: Label)
    requires Locks(s) && Closers(s) && Moves(s, s2, t, op, at, at2)
    requires Releasing(at) == Releasing(at2)
    requires s.closed ==>
      s2.vault.dirty == s.vault.dirty && s2.vault.ui == s.vault.ui && s2.protoCtx == s.protoCtx
    ensures Closers(s2)
  {
  }

  lemma ContextsMove(s: State, s2: State, t: Tid, op: Op, at: Label, at2: Label)
    requires Locks(s) && Closers(s) && Contexts(s) && Moves(s, s2, t, op, at, at2)
    requires s2.contexts == s.contexts && s2.protoCtx == s.protoCtx
    requires HeldAt(at2) == HeldAt(at) && ClosingAt(at2) == ClosingAt(at)
    ensures Contexts(s2)
  {
    assert Held(s2) == Held(s) && ClosingNow(s2) == ClosingNow(s);
    forall c | c in s2.contexts ensures s2.contexts[c] == ExpectedCtx(s2, c) {
      assert s.contexts[c] == ExpectedCtx(s, c);
    }
  }

  lemma RefsMove(s: State, s2: State, t: Tid, op: Op, at: Label, at2: Label)
    requires Refs(s) && Moves(s, s2, t, op, at, at2)
    requires s.vault.records.Keys <= s2.vault.records.Keys && s2.vault.ui == s.vault.ui
    requires PendingRef(Crit(op, at2)) == None || PendingRef(Crit(op, at2)) == PendingRef(Crit(op, at))
    ensures Refs(s2)
  {
    forall t1, t2 | t1 in s2.threads && t2 in s2.threads && t1 != t2 && PendingRef(s2.threads[t1]).Some?
      ensures PendingRef(s2.threads[t1]) != PendingRef(s2.threads[t2])
    {
      assert t in s.threads;
      assert t1 in s.threads && t2 in s.threads;
    }
  }

  lemma NewPending(s: State, s2: State, t: Tid, op: Op, at: Label, at2: Label, u: UiRef)
    requires Refs(s) && Moves(s, s2, t, op, at, at2)
    requires u !in s.vault.records && s2.vault.records.Keys == s.vault.records.Keys + {u} && s2.vault.ui == s.vault.ui
    requires PendingRef(Crit(op, at2)) == None || PendingRef(Crit(op, at2)) == Some(u)
    ensures Refs(s2)
  {
    forall t1 | t1 in s2.threads && t1 != t && PendingRef(s2.threads[t1]).Some?
      ensures PendingRef(s2.threads[t1]).value in s.vault.records && PendingRef(s2.threads[t1]).value != u
    {
      assert t1 in s.threads;
    }
    forall t1, t2 | t1 in s2.threads && t2 in s2.threads && t1 != t2 && PendingRef(s2.threads[t1]).Some?
      ensures PendingRef(s2.threads[t1]) != PendingRef(s2.threads[t2])
    {
      assert t in s.threads;
      assert t1 in s.threads && t2 in s.threads;
    }
  }

  /** The pending record becomes the user in memory. */
  lemma Install(s: State, s2: State, t: Tid, op: Op, at: Label, at2: Label, u: UiRef)
    requires Refs(s) && Moves(s, s2, t, op, at, at2)
    requires s2.vault.records == s.vault.records && s2.vault.ui == Some(u) && u in s.vault.records
    requires PendingRef(Crit(op, at)) == Some(u) && PendingRef(Crit(op, at2)) == None
    ensures Refs(s2)
  {
    forall t1 | t1 in s2.threads && PendingRef(s2.threads[t1]).Some?
      ensures PendingRef(s2.threads[t1]) != Some(u)
    {
      assert t1 != t && t in s.threads && t1 in s.threads;
    }
    forall t1, t2 | t1 in s2.threads && t2 in s2.threads && t1 != t2 && PendingRef(s2.threads[t1]).Some?
      ensures PendingRef(s2.threads[t1]) != PendingRef(s2.threads[t2])
    {
      assert t in s.threads;
      assert t1 in s.threads && t2 in s.threads;
    }
  }

  lemma NewContext(s: State, s2: State, t: Tid, op: Op, at: Label, at2: Label, c: CtxId)
    requires Locks(s) && Closers(s) && Contexts(s) && Moves(s, s2, t, op, at, at2) && !s.closed
    requires c !in s.contexts && s2.contexts == s.contexts[c := Ctx(0, 0)] && s2.protoCtx == s.protoCtx
    requires HeldAt(at).None? && ClosingAt(at).None? && HeldAt(at2) == Some(c) && ClosingAt(at2) == None
    ensures Contexts(s2)
  {
    assert Held(s2) == Some(c) && ClosingNow(s2) == None && Held(s) == None && ClosingNow(s) == None;
    forall d | d in s2.contexts ensures s2.contexts[d] == ExpectedCtx(s2, d) {
      if d != c { assert s.contexts[d] == ExpectedCtx(s, d); }
    }
  }

  /** The swap under the write lock: the held context becomes current, the old one is held. */
  lemma ContextsSwap(s: State, s2: State, t: Tid, op: Op, at: Label, at2: Label, c: CtxId)
    requires Locks(s) && Closers(s) && Contexts(s) && Moves(s, s2, t, op, at, at2) && !s.closed
    requires s2.contexts == s.contexts && s2.protoCtx == Some(c)
    requires HeldAt(at) == Some(c) && ClosingAt(at).None? && HeldAt(at2) == s.protoCtx && ClosingAt(at2) == None
    ensures Contexts(s2)
  {
    assert Held(s) == Some(c) && ClosingNow(s) == None;
    assert Held(s2) == s.protoCtx && ClosingNow(s2) == None;
    forall d | d in s2.contexts ensures s2.contexts[d] == ExpectedCtx(s2, d) {
      assert s.contexts[d] == ExpectedCtx(s, d);
    }
  }

  /** Close begins on the held context. */
  lemma CloseBegins(s: State, s2: State, t: Tid, op: Op, at: Label, at2: Label, c: CtxId)
    requires Locks(s) && Closers(s) && Contexts(s) && Moves(s, s2, t, op, at, at2) && !s.closed
    requires c in s.contexts && s2.contexts == s.contexts[c := Ctx(s.contexts[c].begun + 1, s.contexts[c].ended)]
    requires s2.protoCtx == s.protoCtx
    requires HeldAt(at) == Some(c) && ClosingAt(at).None? && HeldAt(at2) == None && ClosingAt(at2) == Some(c)
    ensures Contexts(s2)
  {
    assert Held(s) == Some(c) && ClosingNow(s) == None;
    assert Held(s2) == None && ClosingNow(s2) == Some(c);
    forall d | d in s2.contexts ensures s2.contexts[d] == ExpectedCtx(s2, d) {
      assert s.contexts[d] == ExpectedCtx(s, d);
    }
  }

  /** Close ends on the context being closed. */
  lemma CloseEnds(s: State, s2: State, t: Tid, op: Op, at: Label, at2: Label, c: CtxId)
    requires Locks(s) && Closers(s) && Contexts(s) && Moves(s, s2, t, op, at, at2) && !s.closed
    requires c in s.contexts && s2.contexts == s.contexts[c := Ctx(s.contexts[c].begun, s.contexts[c].ended + 1)]
    requires s2.protoCtx == s.protoCtx
    requires HeldAt(at) == None && ClosingAt(at) == Some(c) && HeldAt(at2) == None && ClosingAt(at2) == None
    ensures Contexts(s2)
  {
    assert Held(s) == None && ClosingNow(s) == Some(c);
    assert Held(s2) == None && ClosingNow(s2) == None;
    forall d | d in s2.contexts ensures s2.contexts[d] == ExpectedCtx(s2, d) {
      assert s.contexts[d] == ExpectedCtx(s, d);
    }
  }


  /** What a piece of work may change besides the guarded data. */
  predicate WorkFits(s: State, op: Op, at: Label, w: Work) {
    && HeldAt(w.next) == HeldAt(at) && ClosingAt(w.next) == ClosingAt(at)
    && HoldsWriteLock(w.next) == HoldsWriteLock(at) && Releasing(w.next) == Releasing(at)
    && (s.closed ==> w.vault.dirty == s.vault.dirty && w.vault.ui == s.vault.ui)
    && RefsFit(s.vault, w.vault, PendingRef(Crit(op, at)), PendingRef(Crit(op, w.next)))
  }

  /** The pending record is kept or given up; or a new record becomes pending or logged in;
      or the pending record is logged in. */
  predicate RefsFit(v: Vault, w: Vault, pending: Option<UiRef>, next: Option<UiRef>) {
    || (w.ui == v.ui && v.records.Keys <= w.records.Keys && (next == None || next == pending))
    || (w.ui == v.ui && next.Some? && NewRecord(v, w, next.value))
    || (w.ui.Some? && next == None && NewRecord(v, w, w.ui.value))
    || (w.ui.Some? && w.ui == pending && next == None && w.records == v.records && w.ui.value in v.records)
  }

  predicate NewRecord(v: Vault, w: Vault, u: UiRef) {
    u !in v.records && w.records.Keys == v.records.Keys + {u}
  }

  lemma RefsWork(s: State, s2: State, t: Tid, op: Op, at: Label, at2: Label)
    requires Refs(s) && Moves(s, s2, t, op, at, at2)
    requires RefsFit(s.vault, s2.vault, PendingRef(Crit(op, at)), PendingRef(Crit(op, at2)))
    ensures Refs(s2)
  {
    var v, w, next := s.vault, s2.vault, PendingRef(Crit(op, at2));
    if w.ui == v.ui && v.records.Keys <= w.records.Keys && (next == None || next == PendingRef(Crit(op, at))) {
      RefsMove(s, s2, t, op, at, at2);
    } else if w.ui == v.ui {
      NewPending(s, s2, t, op, at, at2, next.value);
    } else if w.ui == PendingRef(Crit(op, at)) {
      Install(s, s2, t, op, at, at2, w.ui.value);
    } else {
      NewLogin(s, s2, t, op, at, at2, w.ui.value);
    }
  }

  /** A new record is logged in at once. */
  lemma NewLogin(s: State, s2: State, t: Tid, op: Op, at: Label, at2: Label, u: UiRef)
    requires Refs(s) && Moves(s, s2, t, op, at, at2)
    requires NewRecord(s.vault, s2.vault, u) && s2.vault.ui == Some(u)
    requires PendingRef(Crit(op, at2)) == None
    ensures Refs(s2)
  {
    forall t1 | t1 in s2.threads && PendingRef(s2.threads[t1]).Some?
      ensures PendingRef(s2.threads[t1]).value in s.vault.records
    {
      assert t1 != t && t1 in s.threads;
    }
    forall t1, t2 | t1 in s2.threads && t2 in s2.threads && t1 != t2 && PendingRef(s2.threads[t1]).Some?
      ensures PendingRef(s2.threads[t1]) != PendingRef(s2.threads[t2])
    {
      assert t in s.threads;
      assert t1 in s.threads && t2 in s.threads;
    }
  }

  lemma WorkShape(s: State, t: Tid, op: Op, at: Label, w: Work)
    requires Shape(s) && PcOf(s, t) == Crit(op, at) && WorkFits(s, op, at, w)
    ensures Shape(Do(s, t, op, w))
  {
    var s2 := Do(s, t, op, w);
    LocksMove(s, s2, t, op, at, w.next);
    ClosersMove(s, s2, t, op, at, w.next);
    ContextsMove(s, s2, t, op, at, w.next);
    RefsWork(s, s2, t, op, at, w.next);
  }
}
