/** Steps under `mu` that take or free locks or touch contexts keep the invariant. */
module AuthRuns {
  import opened Basics
  import opened AuthModel
  import opened AuthInvariant
  import opened AuthShape
  import opened AuthSteps

  /** What the holder of `mu` knows, from the whole invariant. */
  lemma HolderKnows(s: State, t: Tid, op: Op, at: Label)
    requires Inv(s) && PcOf(s, t) == Crit(op, at)
    ensures Shape(s) && s.mu == Some(t) && CanWork(s, op, at)
    ensures HeldAt(at).Some? && !s.closed ==>
              Held(s) == HeldAt(at) && HeldAt(at).value in s.contexts && Held(s) != s.protoCtx
  {
  }

  /** Back from the pieces to the whole invariant. */
  lemma HolderEnsures(s: State, t: Tid, op: Op, at: Label)
    requires Shape(s) && s.mu == Some(t) && PcOf(s, t) == Crit(op, at)
    requires LabelInv(s, op, at) && ReadOnlyKept(s)
    ensures Inv(s)
  {
  }

  lemma ShapeParts(s: State)
    ensures Shape(s) <==> Locks(s) && Closers(s) && Contexts(s) && Refs(s)
  {
  }

  lemma WorkKeeps(s: State, t: Tid, op: Op, at: Label, ch: Choice)
    requires Inv(s) && PcOf(s, t) == Crit(op, at) && IsWork(at)
    ensures Inv(CritStep(s, t, op, at, ch))
  {
    hide Shape, LabelInv, WorkFits, WorkAt, Inv;
    HolderKnows(s, t, op, at);
    if !(ReadsClosed(op, at) && s.ctxWriter.Some?) {
      var w := WorkAt(s, op, at, ch);
      WorkAtFits(s, t, op, at, ch);
      WorkShape(s, t, op, at, w);
      HolderEnsures(Do(s, t, op, w), t, op, w.next);
    }
  }

  // ---------- building and installing a context ----------

  lemma BuildNewShape(s: State, t: Tid, op: Op, u: UiRef, j: Job, ch: Choice)
    requires Shape(s) && PcOf(s, t) == Crit(op, Building(u, j, BuildNew)) && !s.closed
    requires j.ForLogin? ==> op.Login? && u == op.candidate
    requires j.ForRefresh? ==> !op.Login?
    ensures Shape(BuildNewStep(s, t, op, u, j, ch))
  {
    hide Locks, Closers, Contexts, Refs;
    var at, s2 := Building(u, j, BuildNew), BuildNewStep(s, t, op, u, j, ch);
    if !ch.ok || !ch.due {
      WorkShape(s, t, op, at, Work(s.vault, s.hist, BuildFailed(op, j)));
    } else if ch.name !in s.contexts {
      var at2 := if j.ForLogin? then LoggingIn(ch.name, LoginCheck) else Building(u, j, ReplaceLock(ch.name));
      LocksMove(s, s2, t, op, at, at2);
      ClosersMove(s, s2, t, op, at, at2);
      RefsMove(s, s2, t, op, at, at2);
      NewContext(s, s2, t, op, at, at2, ch.name);
    }
  }

  lemma BuildNewData(s: State, t: Tid, op: Op, u: UiRef, j: Job, ch: Choice)
    requires CanWork(s, op, Building(u, j, BuildNew)) && PcOf(s, t) == Crit(op, Building(u, j, BuildNew))
    ensures !s.closed && (j.ForLogin? ==> op.Login? && u == op.candidate) && (j.ForRefresh? ==> !op.Login?)
    ensures var s2 := BuildNewStep(s, t, op, u, j, ch);
            s2.mu == s.mu && PcOf(s2, t).Crit? && PcOf(s2, t).op == op
            && LabelInv(s2, op, PcOf(s2, t).at) && ReadOnlyKept(s2)
  {
    hide LabelInv, ReadOnlyKept;
    BuildNewFacts(s, op, u, j);
    if !ch.ok || !ch.due { BuildNewFails(s, t, op, u, j, ch); } else { BuildNewMade(s, t, op, u, j, ch); }
  }

  lemma BuildNewFacts(s: State, op: Op, u: UiRef, j: Job)
    requires CanWork(s, op, Building(u, j, BuildNew))
    ensures !s.closed && (j.ForLogin? ==> op.Login? && u == op.candidate) && (j.ForRefresh? ==> !op.Login?)
  {
  }

  lemma BuildNewFails(s: State, t: Tid, op: Op, u: UiRef, j: Job, ch: Choice)
    requires CanWork(s, op, Building(u, j, BuildNew)) && (!ch.ok || !ch.due)
    ensures var s2 := BuildNewStep(s, t, op, u, j, ch);
            s2.mu == s.mu && PcOf(s2, t) == Crit(op, BuildFailed(op, j))
            && LabelInv(s2, op, BuildFailed(op, j)) && ReadOnlyKept(s2)
  {
    hide ReplacedInv, ClosingInv, LoginPoint, LoginDone, Swapped;
  }

  lemma BuildNewMade(s: State, t: Tid, op: Op, u: UiRef, j: Job, ch: Choice)
    requires CanWork(s, op, Building(u, j, BuildNew)) && PcOf(s, t) == Crit(op, Building(u, j, BuildNew))
    requires ch.ok && ch.due
    ensures var s2 := BuildNewStep(s, t, op, u, j, ch);
            s2.mu == s.mu && PcOf(s2, t).Crit? && PcOf(s2, t).op == op
            && LabelInv(s2, op, PcOf(s2, t).at) && ReadOnlyKept(s2)
  {
    hide ReplacedInv, ClosingInv, SavePoint, ExitInv, LoginDone, Swapped;
  }

  lemma BuildNewKeeps(s: State, t: Tid, op: Op, u: UiRef, j: Job, ch: Choice)
    requires Inv(s) && PcOf(s, t) == Crit(op, Building(u, j, BuildNew))
    ensures Inv(BuildNewStep(s, t, op, u, j, ch))
  {
    hide Shape, Inv, LabelInv;
    var s2 := BuildNewStep(s, t, op, u, j, ch);
    HolderKnows(s, t, op, Building(u, j, BuildNew));
    BuildNewData(s, t, op, u, j, ch);
    BuildNewShape(s, t, op, u, j, ch);
    HolderEnsures(s2, t, op, PcOf(s2, t).at);
  }

  lemma AcquireShape(s: State, t: Tid, op: Op, at: Label, at2: Label)
    requires Shape(s) && PcOf(s, t) == Crit(op, at) && WriteLockFree(s)
    requires HoldsWriteLock(at2) && HeldAt(at2) == HeldAt(at) && ClosingAt(at2) == ClosingAt(at)
    requires PendingRef(Crit(op, at2)) == PendingRef(Crit(op, at)) && Releasing(at) == Releasing(at2)
    ensures Shape(AcquireStep(s, t, op, at2))
  {
    hide Locks, Closers, Contexts, Refs;
    var s2 := AcquireStep(s, t, op, at2);
    LocksAcquire(s, s2, t, op, at, at2);
    ClosersMove(s, s2, t, op, at, at2);
    ContextsMove(s, s2, t, op, at, at2);
    RefsMove(s, s2, t, op, at, at2);
  }

  /** The points that wait for ctxMu and the points they reach. */
  predicate Acquires(at: Label, at2: Label) {
    match at
    case Building(u, j, b) => b.ReplaceLock? && at2 == Building(u, j, ReplaceSwap(b.next))
    case LoggingIn(c, l) => l.LoginLock? && at2 == LoggingIn(c, LoginPublish(l.temp))
    case ClosingDown(f, c) => c.CloseLock? && at2 == ClosingDown(f, CloseTake)
    case _ => false
  }

  lemma AcquireData(s: State, t: Tid, op: Op, at: Label, at2: Label)
    requires CanWork(s, op, at) && Acquires(at, at2) && WriteLockFree(s)
    ensures LabelInv(AcquireStep(s, t, op, at2), op, at2) && ReadOnlyKept(AcquireStep(s, t, op, at2))
  {
  }

  lemma AcquireKeeps(s: State, t: Tid, op: Op, at: Label, at2: Label)
    requires Inv(s) && PcOf(s, t) == Crit(op, at) && Acquires(at, at2)
    ensures Inv(AcquireStep(s, t, op, at2))
  {
    hide Shape, Inv, LabelInv;
    HolderKnows(s, t, op, at);
    if WriteLockFree(s) {
      AcquireShape(s, t, op, at, at2);
      AcquireData(s, t, op, at, at2);
      HolderEnsures(AcquireStep(s, t, op, at2), t, op, at2);
    }
  }

  lemma ReplaceSwapShape(s: State, t: Tid, op: Op, u: UiRef, j: Job, c: CtxId)
    requires Shape(s) && PcOf(s, t) == Crit(op, Building(u, j, ReplaceSwap(c))) && !s.closed && !op.Login?
    ensures Shape(ReplaceSwapStep(s, t, op, u, j, c))
  {
    hide Locks, Closers, Contexts, Refs;
    var at, s2 := Building(u, j, ReplaceSwap(c)), ReplaceSwapStep(s, t, op, u, j, c);
    var at2 := s2.threads[t].at;
    LocksRelease(s, s2, t, op, at, at2);
    ClosersMove(s, s2, t, op, at, at2);
    ContextsSwap(s, s2, t, op, at, at2, c);
    RefsMove(s, s2, t, op, at, at2);
  }

  lemma ReplaceSwapData(s: State, t: Tid, op: Op, u: UiRef, j: Job, c: CtxId)
    requires CanWork(s, op, Building(u, j, ReplaceSwap(c))) && s.protoCtx != Some(c)
    ensures !s.closed && !op.Login?
    ensures var s2 := ReplaceSwapStep(s, t, op, u, j, c);
            s2.mu == s.mu && PcOf(s2, t).Crit? && PcOf(s2, t).op == op
            && LabelInv(s2, op, PcOf(s2, t).at) && ReadOnlyKept(s2)
  {
  }

  lemma ReplaceSwapKeeps(s: State, t: Tid, op: Op, u: UiRef, j: Job, c: CtxId)
    requires Inv(s) && PcOf(s, t) == Crit(op, Building(u, j, ReplaceSwap(c)))
    ensures Inv(ReplaceSwapStep(s, t, op, u, j, c))
  {
    hide Shape, Inv;
    var s2 := ReplaceSwapStep(s, t, op, u, j, c);
    HolderKnows(s, t, op, Building(u, j, ReplaceSwap(c)));
    ReplaceSwapData(s, t, op, u, j, c);
    ReplaceSwapShape(s, t, op, u, j, c);
    HolderEnsures(s2, t, op, PcOf(s2, t).at);
  }

  // ---------- closing a context under `mu` ----------

  lemma CloseBeginData(s: State, t: Tid, op: Op, c: CtxId, k: Then)
    requires CanWork(s, op, Closing(c, false, k)) && c in s.contexts
    ensures !s.closed && ReadOnlyKept(ClosingStep(s, t, op, c, false, k))
    ensures LabelInv(ClosingStep(s, t, op, c, false, k), op, Closing(c, true, k))
  {
  }

  lemma CloseBeginKeeps(s: State, t: Tid, op: Op, c: CtxId, k: Then)
    requires Inv(s) && PcOf(s, t) == Crit(op, Closing(c, false, k)) && c in s.contexts
    ensures Inv(ClosingStep(s, t, op, c, false, k))
  {
    hide Shape, Inv, Locks, Closers, Contexts, Refs, LabelInv;
    var at, at2, s2 := Closing(c, false, k), Closing(c, true, k), ClosingStep(s, t, op, c, false, k);
    HolderKnows(s, t, op, at);
    CloseBeginData(s, t, op, c, k);
    ShapeParts(s);
    LocksMove(s, s2, t, op, at, at2);
    ClosersMove(s, s2, t, op, at, at2);
    RefsMove(s, s2, t, op, at, at2);
    CloseBegins(s, s2, t, op, at, at2, c);
    ShapeParts(s2);
    HolderEnsures(s2, t, op, at2);
  }

  lemma CloseEndData(s: State, t: Tid, op: Op, c: CtxId, k: Then)
    requires CanWork(s, op, Closing(c, true, k)) && c in s.contexts && NobodyUses(s, c)
    ensures !s.closed && ReadOnlyKept(ClosingStep(s, t, op, c, true, k))
    ensures PendingRef(Crit(op, AfterClose(op, k))) == None
            || PendingRef(Crit(op, AfterClose(op, k))) == PendingRef(Crit(op, Closing(c, true, k)))
    ensures HeldAt(AfterClose(op, k)) == None && ClosingAt(AfterClose(op, k)) == None
    ensures !Releasing(AfterClose(op, k)) && !HoldsWriteLock(AfterClose(op, k))
    ensures LabelInv(ClosingStep(s, t, op, c, true, k), op, AfterClose(op, k))
  {
  }

  lemma CloseEndKeeps(s: State, t: Tid, op: Op, c: CtxId, k: Then)
    requires Inv(s) && PcOf(s, t) == Crit(op, Closing(c, true, k)) && c in s.contexts && NobodyUses(s, c)
    ensures Inv(ClosingStep(s, t, op, c, true, k))
  {
    hide Shape, Inv, Locks, Closers, Contexts, Refs, LabelInv;
    var at, at2, s2 := Closing(c, true, k), AfterClose(op, k), ClosingStep(s, t, op, c, true, k);
    HolderKnows(s, t, op, at);
    CloseEndData(s, t, op, c, k);
    ShapeParts(s);
    LocksMove(s, s2, t, op, at, at2);
    ClosersMove(s, s2, t, op, at, at2);
    RefsMove(s, s2, t, op, at, at2);
    CloseEnds(s, s2, t, op, at, at2, c);
    ShapeParts(s2);
    HolderEnsures(s2, t, op, at2);
  }

  // ---------- login ----------

  lemma LoginAbortShape(s: State, t: Tid, op: Op, c: CtxId, tmp: TempId)
    requires Shape(s) && PcOf(s, t) == Crit(op, LoggingIn(c, LoginAbort(tmp))) && op.Login?
    ensures Shape(LoginLockStep(s, t, op, c, LoginAbort(tmp)))
  {
    hide Locks, Closers, Contexts, Refs;
    var at, s2 := LoggingIn(c, LoginAbort(tmp)), LoginLockStep(s, t, op, c, LoginAbort(tmp));
    var at2 := Closing(c, false, AfterLoginReject(Some(tmp)));
    LocksRelease(s, s2, t, op, at, at2);
    ClosersMove(s, s2, t, op, at, at2);
    ContextsMove(s, s2, t, op, at, at2);
    RefsMove(s, s2, t, op, at, at2);
  }

  lemma LoginAbortKeeps(s: State, t: Tid, op: Op, c: CtxId, tmp: TempId)
    requires Inv(s) && PcOf(s, t) == Crit(op, LoggingIn(c, LoginAbort(tmp)))
    ensures Inv(LoginLockStep(s, t, op, c, LoginAbort(tmp)))
  {
    hide Shape, Inv;
    HolderKnows(s, t, op, LoggingIn(c, LoginAbort(tmp)));
    LoginAbortShape(s, t, op, c, tmp);
    HolderEnsures(LoginLockStep(s, t, op, c, LoginAbort(tmp)), t, op, Closing(c, false, AfterLoginReject(Some(tmp))));
  }

  lemma LoginSwapShape(s: State, t: Tid, op: Op, c: CtxId)
    requires Shape(s) && PcOf(s, t) == Crit(op, LoggingIn(c, LoginSwap)) && !s.closed
    requires op.Login? && op.candidate in s.vault.records
    ensures Shape(LoginSwapStep(s, t, op, c))
  {
    hide Locks, Closers, Contexts, Refs;
    var at, s2 := LoggingIn(c, LoginSwap), LoginSwapStep(s, t, op, c);
    var at2 := s2.threads[t].at;
    LocksRelease(s, s2, t, op, at, at2);
    ClosersMove(s, s2, t, op, at, at2);
    ContextsSwap(s, s2, t, op, at, at2, c);
    Install(s, s2, t, op, at, at2, op.candidate);
  }

  lemma LoginSwapData(s: State, t: Tid, op: Op, c: CtxId)
    requires CanWork(s, op, LoggingIn(c, LoginSwap)) && s.protoCtx != Some(c)
    ensures op.Login? && op.candidate in s.vault.records && !s.closed
    ensures var s2 := LoginSwapStep(s, t, op, c);
            s2.mu == s.mu && PcOf(s2, t).Crit? && PcOf(s2, t).op == op
            && LabelInv(s2, op, PcOf(s2, t).at) && ReadOnlyKept(s2)
  {
  }

  lemma LoginSwapKeeps(s: State, t: Tid, op: Op, c: CtxId)
    requires Inv(s) && PcOf(s, t) == Crit(op, LoggingIn(c, LoginSwap))
    ensures Inv(LoginLockStep(s, t, op, c, LoginSwap))
  {
    hide Shape, Inv;
    HolderKnows(s, t, op, LoggingIn(c, LoginSwap));
    LoginSwapData(s, t, op, c);
    LoginSwapShape(s, t, op, c);
    var s2 := LoginSwapStep(s, t, op, c);
    HolderEnsures(s2, t, op, PcOf(s2, t).at);
  }

  // ---------- closing the manager, leaving the critical section ----------

  lemma ContextsTake(s: State, s2: State, t: Tid, op: Op, f: bool)
    requires Locks(s) && Closers(s) && Contexts(s) && !s.closed && PcOf(s, t) == Crit(op, ClosingDown(f, CloseTake))
    requires s2.mu == s.mu && s2.once == s.once
    requires s2.threads == s.threads[t := Crit(op, ClosingDown(f, CloseRelease(s.protoCtx)))]
    requires s2.contexts == s.contexts && s2.protoCtx == None
    requires op.CloseManager?
    ensures Contexts(s2)
  {
    assert Held(s) == None && ClosingNow(s) == None;
    assert Held(s2) == s.protoCtx && ClosingNow(s2) == None;
    forall c | c in s2.contexts ensures s2.contexts[c] == ExpectedCtx(s2, c) {
      assert s.contexts[c] == ExpectedCtx(s, c);
    }
  }

  lemma CloseTakeShape(s: State, t: Tid, op: Op, f: bool)
    requires Shape(s) && PcOf(s, t) == Crit(op, ClosingDown(f, CloseTake)) && !s.closed && op.CloseManager?
    ensures Shape(CloseDownStep(s, t, op, f, CloseTake))
  {
    hide Contexts;
    var at, at2 := ClosingDown(f, CloseTake), ClosingDown(f, CloseRelease(s.protoCtx));
    var s2 := CloseDownStep(s, t, op, f, CloseTake);
    RefsMove(s.(closed := true), s2, t, op, at, at2);
    ContextsTake(s, s2, t, op, f);
  }

  lemma CloseTakeKeeps(s: State, t: Tid, op: Op, f: bool)
    requires Inv(s) && PcOf(s, t) == Crit(op, ClosingDown(f, CloseTake))
    ensures Inv(CloseDownStep(s, t, op, f, CloseTake))
  {
    hide Shape, Inv;
    HolderKnows(s, t, op, ClosingDown(f, CloseTake));
    CloseTakeShape(s, t, op, f);
    HolderEnsures(CloseDownStep(s, t, op, f, CloseTake), t, op, ClosingDown(f, CloseRelease(s.protoCtx)));
  }

  lemma ReleaseLocks(s: State, s2: State, t: Tid, op: Op, at: Label, pc2: Pc)
    requires Locks(s) && PcOf(s, t) == Crit(op, at) && !HoldsWriteLock(at)
    requires s2.mu == None && s2.ctxWriter == s.ctxWriter && s2.protoCtx == s.protoCtx
    requires s2.threads == s.threads[t := pc2] && !pc2.Crit? && !Reading(pc2)
    ensures Locks(s2)
  {
  }

  lemma ReleaseRefs(s: State, s2: State, t: Tid, op: Op, at: Label, pc2: Pc)
    requires Refs(s) && PcOf(s, t) == Crit(op, at)
    requires s2.vault == s.vault && s2.threads == s.threads[t := pc2] && PendingRef(pc2) == None
    ensures Refs(s2)
  {
    assert t in s.threads;
    forall t1, t2 | t1 in s2.threads && t2 in s2.threads && t1 != t2 && PendingRef(s2.threads[t1]).Some?
      ensures PendingRef(s2.threads[t1]) != PendingRef(s2.threads[t2])
    {
      assert t1 in s.threads && t2 in s.threads;
    }
  }

  lemma ContextsSame(s: State, s2: State)
    requires Contexts(s) && s2.contexts == s.contexts && s2.protoCtx == s.protoCtx
    requires Held(s2) == Held(s) && ClosingNow(s2) == ClosingNow(s)
    ensures Contexts(s2)
  {
    forall c | c in s2.contexts ensures s2.contexts[c] == ExpectedCtx(s2, c) {
      assert s.contexts[c] == ExpectedCtx(s, c);
    }
  }

  lemma ReleaseClosers(s: State, s2: State, t: Tid, op: Op, c: Option<CtxId>, f: bool)
    requires Locks(s) && Closers(s) && PcOf(s, t) == Crit(op, ClosingDown(f, CloseRelease(c))) && op.CloseManager?
    requires !f ==> Saved(s)
    requires s2 == CloseDownStep(s, t, op, f, CloseRelease(c))
    ensures Closers(s2) && Held(s2) == Held(s) && ClosingNow(s2) == ClosingNow(s)
  {
  }

  lemma CloseReleaseKeeps(s: State, t: Tid, op: Op, c: Option<CtxId>, f: bool)
    requires Inv(s) && PcOf(s, t) == Crit(op, ClosingDown(f, CloseRelease(c)))
    ensures Inv(CloseDownStep(s, t, op, f, CloseRelease(c)))
  {
    hide Locks, Contexts, Refs, Closers;
    var s2 := CloseDownStep(s, t, op, f, CloseRelease(c));
    HolderKnows(s, t, op, ClosingDown(f, CloseRelease(c)));
    ReleaseLocks(s, s2, t, op, ClosingDown(f, CloseRelease(c)), CloseCurrent(c, false, f));
    ReleaseRefs(s, s2, t, op, ClosingDown(f, CloseRelease(c)), CloseCurrent(c, false, f));
    ReleaseClosers(s, s2, t, op, c, f);
    ContextsSame(s, s2);
  }

  lemma ExitClosers(s: State, s2: State, t: Tid, op: Op, ok: bool)
    requires Locks(s) && Closers(s) && PcOf(s, t) == Crit(op, Exit(ok)) && !op.CloseManager?
    requires s2 == ExitStep(s, t, op, ok)
    ensures Closers(s2) && Held(s2) == Held(s) && ClosingNow(s2) == ClosingNow(s)
  {
  }

  lemma ExitKeeps(s: State, t: Tid, op: Op, ok: bool)
    requires Inv(s) && PcOf(s, t) == Crit(op, Exit(ok))
    ensures Inv(ExitStep(s, t, op, ok))
  {
    hide Locks, Contexts, Refs, Closers;
    var s2 := ExitStep(s, t, op, ok);
    HolderKnows(s, t, op, Exit(ok));
    ReleaseLocks(s, s2, t, op, Exit(ok), AfterExit(op, ok));
    ReleaseRefs(s, s2, t, op, Exit(ok), AfterExit(op, ok));
    ExitClosers(s, s2, t, op, ok);
    ContextsSame(s, s2);
  }

  lemma LockStepKeeps(s: State, t: Tid, op: Op, at: Label, ch: Choice)
    requires Inv(s) && PcOf(s, t) == Crit(op, at) && !IsWork(at)
    ensures Inv(LockStep(s, t, op, at, ch))
  {
    hide Inv;
    match at
    case Building(u, j, b) =>
      if b.BuildNew? { BuildNewKeeps(s, t, op, u, j, ch); }
      else if b.ReplaceLock? { AcquireKeeps(s, t, op, at, Building(u, j, ReplaceSwap(b.next))); }
      else { ReplaceSwapKeeps(s, t, op, u, j, b.next); }
    case Closing(c, begun, k) =>
      if c !in s.contexts {
      } else if !begun {
        CloseBeginKeeps(s, t, op, c, k);
      } else if NobodyUses(s, c) {
        CloseEndKeeps(s, t, op, c, k);
      }
    case LoggingIn(c, l) =>
      if l.LoginLock? { AcquireKeeps(s, t, op, at, LoggingIn(c, LoginPublish(l.temp))); }
      else if l.LoginAbort? { LoginAbortKeeps(s, t, op, c, l.temp); }
      else { LoginSwapKeeps(s, t, op, c); }
    case ClosingDown(f, c) =>
      if c.CloseLock? { AcquireKeeps(s, t, op, at, ClosingDown(f, CloseTake)); }
      else if c.CloseTake? { CloseTakeKeeps(s, t, op, f); }
      else { CloseReleaseKeeps(s, t, op, c.current, f); }
    case Exit(ok) => ExitKeeps(s, t, op, ok);
  }
}
