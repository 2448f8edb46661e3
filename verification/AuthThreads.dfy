/** Steps outside `mu`, and with them every step and every run. */
module AuthThreads {
  import opened Basics
  import opened AuthModel
  import opened AuthInvariant
  import opened AuthRuns

  /** `s2` is `s` after thread `t`, which does not hold `mu`, moved to `pc2`. */
  predicate Outside(s: State, s2: State, t: Tid, pc2: Pc) {
    && !PcOf(s, t).Crit? && !pc2.Crit? && s2.threads == s.threads[t := pc2]
    && s2.readOnly == s.readOnly && s2.mu == s.mu && s2.ctxWriter == s.ctxWriter && s2.closed == s.closed
    && s2.protoCtx == s.protoCtx
  }

  lemma LocksOutside(s: State, s2: State, t: Tid, pc2: Pc)
    requires Locks(s) && Outside(s, s2, t, pc2)
    requires Reading(pc2) ==> s.ctxWriter.None?
    requires pc2.Using? ==> s.protoCtx == Some(pc2.ctx)
    ensures Locks(s2) && Holder(s2) == Holder(s)
  {
  }

  lemma RefsOutside(s: State, s2: State, t: Tid, pc2: Pc)
    requires Refs(s) && Outside(s, s2, t, pc2) && s2.vault.records == s.vault.records && s2.vault.ui == s.vault.ui
    requires PendingRef(pc2) == None || PendingRef(pc2) == PendingRef(PcOf(s, t))
    ensures Refs(s2)
  {
    forall t1, t2 | t1 in s2.threads && t2 in s2.threads && t1 != t2 && PendingRef(s2.threads[t1]).Some?
      ensures PendingRef(s2.threads[t1]) != PendingRef(s2.threads[t2])
    {
      assert t1 != t ==> t1 in s.threads;
      assert t2 != t ==> t2 in s.threads;
      assert t !in s.threads ==> PendingRef(pc2) == None;
    }
  }

  /** The thread is not the closing one, before or after. */
  lemma ClosersOutside(s: State, s2: State, t: Tid, pc2: Pc)
    requires Closers(s) && Outside(s, s2, t, pc2) && s2.vault.dirty == s.vault.dirty && s2.vault.ui == s.vault.ui
    requires s2.once == s.once && !IsCloser(PcOf(s, t)) && !IsCloser(pc2)
    ensures Closers(s2) && Closer(s2) == Closer(s)
  {
  }

  /** What the invariants of program points read is the same in both states. */
  ghost predicate Agrees(s: State, s2: State) {
    && s2.hist == s.hist && s2.readOnly == s.readOnly && s2.closed == s.closed && s2.protoCtx == s.protoCtx
    && s2.vault.Info() == s.vault.Info() && s2.vault.ui == s.vault.ui && s2.vault.dirty == s.vault.dirty
    && s2.vault.temps == s.vault.temps && (s2.vault.file == s.vault.file || s.readOnly)
    && forall u | u in s.vault.records :: u in s2.vault.records && s2.vault.records[u] == s.vault.records[u]
  }

  lemma FactsAgree(s: State, s2: State)
    requires Agrees(s, s2)
    ensures Clean(s2) == Clean(s) && TokenKept(s2) == TokenKept(s) && SessionKept(s2) == SessionKept(s)
    ensures Unchanged(s) ==> Unchanged(s2)
    ensures OnlyRotated(s2) == OnlyRotated(s) && SameLogin(s2) == SameLogin(s)
  {
  }

  lemma JobAgrees(s: State, s2: State, op: Op, u: UiRef, j: Job)
    requires Agrees(s, s2)
    ensures JobInv(s, op, u, j) ==> JobInv(s2, op, u, j)
    ensures ReplacedInv(s, op, u, j) ==> ReplacedInv(s2, op, u, j)
  {
    FactsAgree(s, s2);
    hide Clean, TokenKept, SessionKept, Unchanged, OnlyRotated, SameLogin;
  }

  lemma RefreshAgrees(s: State, s2: State, op: Op, u: UiRef, r: Reply)
    requires Agrees(s, s2)
    ensures Accepted(s, op, r) ==> Accepted(s2, op, r)
    ensures Candidate(s, u, r) ==> Candidate(s2, u, r)
  {
    FactsAgree(s, s2);
    hide Clean, TokenKept, SessionKept, Unchanged, OnlyRotated, SameLogin;
  }

  lemma SaveAgrees(s: State, s2: State, op: Op, k: SaveFor)
    requires Agrees(s, s2)
    ensures SaveInv(s, op, k) ==> SaveInv(s2, op, k)
  {
    FactsAgree(s, s2);
    hide Clean, TokenKept, SessionKept, Unchanged, OnlyRotated, SameLogin;
  }

  lemma LoginAgrees(s: State, s2: State, op: Op)
    requires Agrees(s, s2)
    ensures LoginInv(s, op) ==> LoginInv(s2, op)
    ensures LoginDone(s, op) ==> LoginDone(s2, op)
    ensures LoginPublished(s, op) ==> LoginPublished(s2, op)
  {
    FactsAgree(s, s2);
    hide Clean, TokenKept, SessionKept, Unchanged, OnlyRotated, SameLogin;
  }

  lemma ExitAgrees(s: State, s2: State, op: Op, ok: bool)
    requires Agrees(s, s2)
    ensures ExitInv(s, op, ok) ==> ExitInv(s2, op, ok)
  {
    FactsAgree(s, s2);
    LoginAgrees(s, s2, op);
    hide Clean, TokenKept, SessionKept, Unchanged, OnlyRotated, SameLogin, LoginDone;
  }

  lemma RefreshPointAgrees(s: State, s2: State, op: Op, r: RefreshAt)
    requires Agrees(s, s2) && RefreshPoint(s, op, r)
    ensures RefreshPoint(s2, op, r)
  {
    FactsAgree(s, s2);
    if r.RefreshFields? { RefreshAgrees(s, s2, op, r.user, r.reply); }
    else if r.Preserve? { RefreshAgrees(s, s2, op, 0, r.reply); }
    hide Accepted, Candidate, Clean, TokenKept, SessionKept, SameLogin;
  }

  lemma SavePointAgrees(s: State, s2: State, op: Op, k: SaveFor, a: SaveAt)
    requires Agrees(s, s2) && SavePoint(s, op, k, a)
    ensures SavePoint(s2, op, k, a)
  {
    SaveAgrees(s, s2, op, k);
    hide SaveInv;
  }

  lemma LoginPointAgrees(s: State, s2: State, op: Op, l: LoginAt)
    requires Agrees(s, s2) && LoginPoint(s, op, l)
    ensures LoginPoint(s2, op, l)
  {
    LoginAgrees(s, s2, op);
    hide LoginInv, LoginDone, LoginPublished;
  }

  lemma ClosingAgrees(s: State, s2: State, op: Op, k: Then)
    requires Agrees(s, s2) && ClosingInv(s, op, k)
    ensures ClosingInv(s2, op, k)
  {
    LoginAgrees(s, s2, op);
    if k.AfterReplace? { JobAgrees(s, s2, op, k.user, k.job); }
    hide LoginInv, LoginDone, LoginPublished, ReplacedInv;
  }

  lemma PlainPointAgrees(s: State, s2: State, op: Op, at: Label)
    requires Agrees(s, s2) && PointInv(s, op, at)
    requires at.Entry? || at.LoadRead? || at.ClosingDown? || at.Discarding?
    ensures PointInv(s2, op, at)
  {
    FactsAgree(s, s2);
    LoginAgrees(s, s2, op);
    hide Clean, TokenKept, SessionKept, Unchanged, LoginInv;
  }

  lemma PointAgrees(s: State, s2: State, op: Op, at: Label)
    requires Agrees(s, s2) && PointInv(s, op, at)
    ensures PointInv(s2, op, at)
  {
    hide Agrees;
    match at
    case Refreshing(r) => RefreshPointAgrees(s, s2, op, r);
    case Building(u, j, _) => JobAgrees(s, s2, op, u, j);
    case Closing(_, _, k) => ClosingAgrees(s, s2, op, k);
    case Saving(k, a) => SavePointAgrees(s, s2, op, k, a);
    case LoggingIn(_, l) => LoginPointAgrees(s, s2, op, l);
    case Exit(ok) => ExitAgrees(s, s2, op, ok);
    case _ => PlainPointAgrees(s, s2, op, at);
  }

  lemma LabelAgrees(s: State, s2: State, op: Op, at: Label)
    requires Agrees(s, s2) && LabelInv(s, op, at)
    ensures LabelInv(s2, op, at)
  {
    PointAgrees(s, s2, op, at);
    hide PointInv;
  }

  lemma GuardedAgrees(s: State, s2: State)
    requires Guarded(s) && Agrees(s, s2) && s2.mu == s.mu && Holder(s2) == Holder(s)
    ensures Guarded(s2)
  {
    if s.mu.Some? {
      LabelAgrees(s, s2, Holder(s).op, Holder(s).at);
    } else {
      FactsAgree(s, s2);
    }
  }

  /** A step that moves only the program counter of a thread that is not closing. */
  lemma PlainKeeps(s: State, s2: State, t: Tid, pc2: Pc)
    requires Inv(s) && Outside(s, s2, t, pc2)
    requires s2.vault == s.vault && s2.hist == s.hist && s2.contexts == s.contexts && s2.once == s.once
    requires !IsCloser(PcOf(s, t)) && !IsCloser(pc2)
    requires Reading(pc2) ==> s.ctxWriter.None?
    requires pc2.Using? ==> s.protoCtx == Some(pc2.ctx)
    requires PendingRef(pc2) == None || PendingRef(pc2) == PendingRef(PcOf(s, t))
    ensures Inv(s2)
  {
    hide Locks, Closers, Contexts, Refs, Guarded;
    LocksOutside(s, s2, t, pc2);
    RefsOutside(s, s2, t, pc2);
    ClosersOutside(s, s2, t, pc2);
    ContextsSame(s, s2);
    GuardedAgrees(s, s2);
  }

  /** LoginPoll: a reply makes a new record that only this thread knows. */
  lemma PollKeeps(s: State, t: Tid, device: bool, ch: Choice)
    requires Inv(s) && PcOf(s, t) == LoginPoll(device) && ch.ok && ch.name !in s.vault.records
    ensures Inv(OutStep(s, t, LoginPoll(device), ch))
  {
    hide Locks, Closers, Contexts, Guarded;
    var pc2, s2 := WantMu(Login(ch.name, device)), OutStep(s, t, LoginPoll(device), ch);
    LocksOutside(s, s2, t, pc2);
    ClosersOutside(s, s2, t, pc2);
    ContextsSame(s, s2);
    GuardedAgrees(s, s2);
    RefsPoll(s, s2, t, ch.name, device);
  }

  lemma RefsPoll(s: State, s2: State, t: Tid, u: UiRef, device: bool)
    requires Refs(s) && u !in s.vault.records && PcOf(s, t) == LoginPoll(device)
    requires s2.vault.records.Keys == s.vault.records.Keys + {u} && s2.vault.ui == s.vault.ui
    requires s2.threads == s.threads[t := WantMu(Login(u, device))]
    ensures Refs(s2)
  {
    assert t in s.threads;
    forall t1 | t1 in s2.threads && t1 != t && PendingRef(s2.threads[t1]).Some?
      ensures PendingRef(s2.threads[t1]).value in s.vault.records && PendingRef(s2.threads[t1]).value != u
    {
      assert t1 in s.threads;
    }
    forall t1, t2 | t1 in s2.threads && t2 in s2.threads && t1 != t2 && PendingRef(s2.threads[t1]).Some?
      ensures PendingRef(s2.threads[t1]) != PendingRef(s2.threads[t2])
    {
      assert t1 in s.threads && t2 in s.threads;
    }
  }

  /** Another program rewrites the file of a read-only manager. */
  lemma ExternalKeeps(s: State, file: Option<UserInfo>)
    requires Inv(s) && s.readOnly
    ensures Inv(s.(vault := s.vault.(file := file)))
  {
    hide Guarded;
    var s2 := s.(vault := s.vault.(file := file));
    assert Locks(s2) && Refs(s2) && Closers(s2);
    ContextsSame(s, s2);
    GuardedAgrees(s, s2);
  }

  lemma LockMuKeeps(s: State, t: Tid, op: Op, ch: Choice)
    requires Inv(s) && PcOf(s, t) == WantMu(op) && s.mu.None?
    ensures Inv(OutStep(s, t, WantMu(op), ch))
  {
    hide Contexts, Refs;
    var s2 := OutStep(s, t, WantMu(op), ch);
    assert Locks(s2);
    LockMuClosers(s, s2, t, op);
    ContextsSame(s, s2);
    LockMuRefs(s, s2, t, op);
  }

  lemma LockMuClosers(s: State, s2: State, t: Tid, op: Op)
    requires Locks(s) && Closers(s) && PcOf(s, t) == WantMu(op) && s.mu.None?
    requires s2 == s.(mu := Some(t), hist := s2.hist, threads := s.threads[t := Crit(op, Entry)])
    ensures Closers(s2) && Held(s2) == Held(s) && ClosingNow(s2) == ClosingNow(s)
  {
  }

  lemma LockMuRefs(s: State, s2: State, t: Tid, op: Op)
    requires Refs(s) && PcOf(s, t) == WantMu(op)
    requires s2.vault == s.vault && s2.threads == s.threads[t := Crit(op, Entry)]
    ensures Refs(s2)
  {
    assert t in s.threads;
    forall t1, t2 | t1 in s2.threads && t2 in s2.threads && t1 != t2 && PendingRef(s2.threads[t1]).Some?
      ensures PendingRef(s2.threads[t1]) != PendingRef(s2.threads[t2])
    {
      assert t1 in s.threads && t2 in s.threads;
    }
  }

  lemma StartCloseKeeps(s: State, t: Tid)
    requires Inv(s) && PcOf(s, t) == Idle && s.once.NotRun?
    ensures Inv(Go(s.(boot := Ready, once := Running(t)), t, WantMu(CloseManager)))
  {
    hide Contexts, Refs, Guarded;
    var s2 := Go(s.(boot := Ready, once := Running(t)), t, WantMu(CloseManager));
    LocksOutside(s, s2, t, WantMu(CloseManager));
    RefsOutside(s, s2, t, WantMu(CloseManager));
    assert Closers(s2);
    ContextsSame(s, s2);
    GuardedAgrees(s, s2);
  }

  /** The half of Close after both locks are free: close the context that was current. */
  lemma CloseCurrentKeeps(s: State, t: Tid, c: CtxId, begun: bool, f: bool, ch: Choice)
    requires Inv(s) && PcOf(s, t) == CloseCurrent(Some(c), begun, f)
    requires c in s.contexts && (begun ==> NobodyUses(s, c))
    ensures Inv(OutStep(s, t, CloseCurrent(Some(c), begun, f), ch))
  {
    hide Refs, Guarded, Contexts, Locks, Closers;
    var pc2 := if begun then CloseCurrent(None, false, f || !ch.ok) else CloseCurrent(Some(c), true, f);
    var s2 := OutStep(s, t, CloseCurrent(Some(c), begun, f), ch);
    LocksOutside(s, s2, t, pc2);
    RefsOutside(s, s2, t, pc2);
    GuardedAgrees(s, s2);
    CloserAlone(s, t, c, begun, f);
    CloserMoves(s, s2, t, CloseCurrent(Some(c), begun, f), pc2);
    CloseCurrentContexts(s, s2, c, begun);
  }

  lemma CloserMoves(s: State, s2: State, t: Tid, pc: Pc, pc2: Pc)
    requires Closers(s) && PcOf(s, t) == pc && pc.CloseCurrent? && pc2.CloseCurrent?
    requires Outside(s, s2, t, pc2) && s2.once == s.once && s2.vault == s.vault
    requires !pc2.failed ==> !pc.failed
    ensures Closers(s2) && s.once == Running(t) && Closer(s) == pc && Closer(s2) == pc2
  {
  }

  /** Once the manager is closed no critical section holds a context. */
  lemma CloserAlone(s: State, t: Tid, c: CtxId, begun: bool, f: bool)
    requires Inv(s) && PcOf(s, t) == CloseCurrent(Some(c), begun, f)
    ensures s.closed && s.once == Running(t) && s.protoCtx == None
    ensures Holder(s).Crit? ==> HeldAt(Holder(s).at) == None && ClosingAt(Holder(s).at) == None
  {
  }

  lemma CloseCurrentContexts(s: State, s2: State, c: CtxId, begun: bool)
    requires Contexts(s) && s.protoCtx == None && s2.protoCtx == None && c in s.contexts
    requires s2.contexts == if begun then s.contexts[c := Ctx(s.contexts[c].begun, s.contexts[c].ended + 1)]
                            else s.contexts[c := Ctx(s.contexts[c].begun + 1, s.contexts[c].ended)]
    requires if begun then Held(s) == None && ClosingNow(s) == Some(c) && Held(s2) == None && ClosingNow(s2) == None
             else Held(s) == Some(c) && ClosingNow(s) == None && Held(s2) == None && ClosingNow(s2) == Some(c)
    ensures Contexts(s2)
  {
    forall d | d in s2.contexts ensures s2.contexts[d] == ExpectedCtx(s2, d) {
      assert s.contexts[d] == ExpectedCtx(s, d);
    }
  }

  lemma CloseDoneKeeps(s: State, t: Tid, begun: bool, f: bool)
    requires Inv(s) && PcOf(s, t) == CloseCurrent(None, begun, f)
    ensures Inv(Go(s.(once := Done(f)), t, Idle))
  {
    hide Contexts, Refs, Guarded;
    var s2 := Go(s.(once := Done(f)), t, Idle);
    LocksOutside(s, s2, t, Idle);
    RefsOutside(s, s2, t, Idle);
    GuardedAgrees(s, s2);
    assert Closers(s2);
    ContextsSame(s, s2);
  }

  lemma StartKeeps(s: State, t: Tid, ch: Choice)
    requires Inv(s) && PcOf(s, t) == Idle
    ensures Inv(StartStep(s, t, ch))
  {
    hide Inv;
    var s2 := StartStep(s, t, ch);
    if ch.start.ExternalWrite? {
      if s.readOnly { ExternalKeeps(s, if ch.ok then Some(ch.info) else None); }
    } else if s.boot.Loading? && !s.readOnly {
    } else if ch.start.StartLoad? {
      if s.readOnly || s.boot.Fresh? { PlainKeeps(s, s2, t, WantMu(Load(false))); }
    } else if ch.start.StartClose? {
      if s.once.NotRun? { StartCloseKeeps(s, t); }
    } else {
      PlainKeeps(s, s2, t, PcOf(s2, t));
    }
  }

  lemma ReaderKnows(s: State, t: Tid)
    requires Inv(s) && Reading(PcOf(s, t))
    ensures s.ctxWriter.None?
  {
  }

  lemma OutStepKeeps(s: State, t: Tid, pc: Pc, ch: Choice)
    requires Inv(s) && PcOf(s, t) == pc && !pc.Crit?
    ensures Inv(OutStep(s, t, pc, ch))
  {
    hide Inv;
    var s2 := OutStep(s, t, pc, ch);
    match pc
    case Idle => StartKeeps(s, t, ch);
    case PrepareEntry => if s.ctxWriter.None? { PlainKeeps(s, s2, t, PcOf(s2, t)); }
    case LoginPoll(d) =>
      if !ch.ok { PlainKeeps(s, s2, t, Idle); }
      else if ch.name !in s.vault.records { PollKeeps(s, t, d, ch); }
    case WantMu(op) => if s.mu.None? { LockMuKeeps(s, t, op, ch); }
    case ProfileCall(u) => PlainKeeps(s, s2, t, PcOf(s2, t));
    case WantRead => if s.ctxWriter.None? { PlainKeeps(s, s2, t, ReadCheck); }
    case ReadCheck => ReaderKnows(s, t); PlainKeeps(s, s2, t, PcOf(s2, t));
    case Using(_) => ReaderKnows(s, t); PlainKeeps(s, s2, t, EndRead);
    case EndRead => PlainKeeps(s, s2, t, Idle);
    case CloseCurrent(None, begun, f) => CloseDoneKeeps(s, t, begun, f);
    case CloseCurrent(Some(c), begun, f) =>
      if c in s.contexts && (begun ==> NobodyUses(s, c)) { CloseCurrentKeeps(s, t, c, begun, f, ch); }
  }

  lemma NextKeeps(s: State, t: Tid, ch: Choice)
    requires Inv(s)
    ensures Inv(Next(s, t, ch))
  {
    hide Inv;
    var pc := PcOf(s, t);
    if !pc.Crit? {
      OutStepKeeps(s, t, pc, ch);
    } else if IsWork(pc.at) {
      WorkKeeps(s, t, pc.op, pc.at, ch);
    } else {
      LockStepKeeps(s, t, pc.op, pc.at, ch);
    }
  }

  /** The invariant holds in every state of every run. */
  lemma {:induction false} RunKeeps(s: State, moves: Schedule)
    requires Inv(s)
    ensures Inv(Run(s, moves))
    decreases |moves|
  {
    hide Inv;
    if moves != [] {
      NextKeeps(s, moves[0].0, moves[0].1);
      RunKeeps(Next(s, moves[0].0, moves[0].1), moves[1..]);
    }
  }
}
