/**
 * The locks of the authentication manager never block each other for good, and every
 * operation comes to an end: mu, ctxMu with its readers, and a context's Close waiting
 * for the calls that use it (auth.go:197-298, native_context.go:189-263).
 */
module AuthProgress {
  import opened Basics
  import opened AuthModel
  import opened AuthInvariant
  import opened AuthThreads
  import opened AuthTheorems

  /** A name no record, staged file or context has. */
  predicate FreshName(s: State, name: nat) {
    name !in s.vault.records && name !in s.vault.temps && name !in s.contexts
  }

  /** The thread gets on, whatever the network, files, clock and scheduler answer. */
  ghost predicate Moves(s: State, t: Tid) {
    forall ch: Choice :: FreshName(s, ch.name) ==> PcOf(Next(s, t, ch), t) != PcOf(s, t)
  }

  predicate UnderWay(s: State, t: Tid) { t in s.threads && s.threads[t] != Idle }

  // ---------- a critical section is never stuck on itself ----------

  lemma RefreshMoves(s: State, op: Op, r: RefreshAt, ch: Choice)
    requires FreshName(s, ch.name)
    ensures RefreshWork(s, op, r, ch).next != Refreshing(r)
  {}

  lemma BuildMoves(s: State, op: Op, u: UiRef, j: Job, b: BuildAt, ch: Choice)
    requires b.BuildCheck? || b.BuildFields? || b.Replaced?
    ensures BuildWork(s, op, u, j, b, ch).next != Building(u, j, b)
  {}

  lemma SaveMoves(s: State, k: SaveFor, a: SaveAt, ch: Choice)
    requires FreshName(s, ch.name)
    ensures SaveWork(s, k, a, ch).next != Saving(k, a)
  {}

  lemma LoginMoves(s: State, op: Op, c: CtxId, l: LoginAt, ch: Choice)
    requires op.Login? && !(l.LoginLock? || l.LoginAbort? || l.LoginSwap?) && FreshName(s, ch.name)
    ensures LoginWork(s, op, c, l, ch).next != LoggingIn(c, l)
  {}

  lemma EntryMoves(s: State, op: Op, ch: Choice)
    ensures EntryWork(s, op, ch).next != Entry
  {}

  lemma WorkMoves(s: State, op: Op, at: Label, ch: Choice)
    requires IsWork(at) && (at.LoggingIn? ==> op.Login?) && FreshName(s, ch.name)
    ensures WorkAt(s, op, at, ch).next != at
  {
    hide RefreshWork, BuildWork, SaveWork, LoginWork, EntryWork;
    match at
    case Entry => EntryMoves(s, op, ch);
    case Refreshing(r) => RefreshMoves(s, op, r, ch);
    case Building(u, j, b) => BuildMoves(s, op, u, j, b, ch);
    case Saving(k, a) => SaveMoves(s, k, a, ch);
    case LoggingIn(c, l) => LoginMoves(s, op, c, l, ch);
    case _ =>
  }

  /** A point that waits for the readers of ctxMu, or for the calls on a context. */
  predicate NeedsWriteLock(at: Label) {
    match at
    case Building(_, _, b) => b.ReplaceLock?
    case LoggingIn(_, l) => l.LoginLock?
    case ClosingDown(_, c) => c.CloseLock?
    case _ => false
  }

  predicate Clear(s: State, at: Label) {
    && (NeedsWriteLock(at) ==> WriteLockFree(s))
    && (at.Closing? ==> at.ctx in s.contexts && (at.begun ==> NobodyUses(s, at.ctx)))
  }

  lemma LockMoves(s: State, t: Tid, op: Op, at: Label, ch: Choice)
    requires !IsWork(at) && PcOf(s, t) == Crit(op, at)
    requires (at.LoggingIn? ==> op.Login?) && Clear(s, at) && FreshName(s, ch.name)
    ensures PcOf(LockStep(s, t, op, at, ch), t) != Crit(op, at)
  {
    hide LoginLockStep, CloseDownStep, ClosingStep;
    match at
    case Building(u, j, b) =>
    case Closing(c, begun, k) => ClosingMoves(s, t, op, c, begun, k);
    case LoggingIn(c, l) => LoginLockMoves(s, t, op, c, l);
    case ClosingDown(f, c) => CloseDownMoves(s, t, op, f, c);
    case Exit(ok) =>
  }

  lemma ClosingMoves(s: State, t: Tid, op: Op, c: CtxId, begun: bool, k: Then)
    requires c in s.contexts && (begun ==> NobodyUses(s, c))
    ensures PcOf(ClosingStep(s, t, op, c, begun, k), t) != Crit(op, Closing(c, begun, k))
  {}

  lemma LoginLockMoves(s: State, t: Tid, op: Op, c: CtxId, l: LoginAt)
    requires op.Login? && (l.LoginLock? || l.LoginAbort? || l.LoginSwap?) && (l.LoginLock? ==> WriteLockFree(s))
    ensures PcOf(LoginLockStep(s, t, op, c, l), t) != Crit(op, LoggingIn(c, l))
  {}

  lemma CloseDownMoves(s: State, t: Tid, op: Op, f: bool, c: CloseAt)
    requires c.CloseLock? ==> WriteLockFree(s)
    ensures PcOf(CloseDownStep(s, t, op, f, c), t) != Crit(op, ClosingDown(f, c))
  {}

  /** What the invariant says of the holder of mu. */
  lemma HolderFacts(s: State, t: Tid, op: Op, at: Label)
    requires Inv(s) && PcOf(s, t) == Crit(op, at)
    ensures s.mu == Some(t) && (s.ctxWriter.Some? ==> HoldsWriteLock(at))
    ensures at.LoggingIn? ==> op.Login?
    ensures at.Closing? ==> at.ctx in s.contexts
  {}

  lemma HolderMoves(s: State, t: Tid, op: Op, at: Label)
    requires Inv(s) && PcOf(s, t) == Crit(op, at) && Clear(s, at)
    ensures Moves(s, t)
  {
    hide Inv, Clear, WorkAt, LockStep;
    HolderFacts(s, t, op, at);
    WriterWorks(op, at);
    forall ch: Choice | FreshName(s, ch.name)
      ensures PcOf(Next(s, t, ch), t) != PcOf(s, t)
    {
      if IsWork(at) {
        WorkMoves(s, op, at, ch);
      } else {
        LockMoves(s, t, op, at, ch);
      }
    }
  }

  /** Who holds ctxMu for writing does not ask for it again. */
  lemma WriterWorks(op: Op, at: Label)
    ensures HoldsWriteLock(at) ==> !ReadsClosed(op, at)
  {}

  // ---------- outside mu ----------

  lemma ReaderMoves(s: State, t: Tid)
    requires Reading(PcOf(s, t))
    ensures Moves(s, t) && UnderWay(s, t)
  {}

  lemma FreeMoves(s: State, t: Tid)
    requires Inv(s) && s.mu.None? && UnderWay(s, t)
    ensures exists u :: UnderWay(s, u) && Moves(s, u)
  {
    FreeFacts(s, t);
    var pc := PcOf(s, t);
    if pc.CloseCurrent? && pc.current.Some? && pc.begun && !NobodyUses(s, pc.current.value) {
      var u :| u in s.threads && s.threads[u] == Using(pc.current.value);
      ReaderMoves(s, u);
    } else {
      hide Inv;
      OutsideMoves(s, t);
    }
  }

  lemma FreeFacts(s: State, t: Tid)
    requires Inv(s) && s.mu.None?
    ensures s.ctxWriter.None? && !PcOf(s, t).Crit?
    ensures PcOf(s, t).CloseCurrent? && PcOf(s, t).current.Some? ==> PcOf(s, t).current.value in s.contexts
  {}

  lemma OutsideMoves(s: State, t: Tid)
    requires s.mu.None? && s.ctxWriter.None? && UnderWay(s, t) && !PcOf(s, t).Crit?
    requires var pc := PcOf(s, t); pc.CloseCurrent? && pc.current.Some? ==>
      pc.current.value in s.contexts && (pc.begun ==> NobodyUses(s, pc.current.value))
    ensures Moves(s, t)
  {}

  lemma HeldMoves(s: State, t: Tid)
    requires Inv(s) && s.mu == Some(t)
    ensures exists u :: UnderWay(s, u) && Moves(s, u)
  {
    var pc := Holder(s);
    MuHolder(s, t);
    HolderFacts(s, t, pc.op, pc.at);
    if NeedsWriteLock(pc.at) && !WriteLockFree(s) {
      assert s.ctxWriter.None? by { NeedsMeansNot(pc.at); }
      var u :| u in s.threads && Reading(s.threads[u]);
      ReaderMoves(s, u);
    } else if pc.at.Closing? && !NobodyUses(s, pc.at.ctx) {
      var u :| u in s.threads && s.threads[u] == Using(pc.at.ctx);
      ReaderMoves(s, u);
    } else {
      HolderMoves(s, t, pc.op, pc.at);
      assert UnderWay(s, t);
    }
  }

  lemma NeedsMeansNot(at: Label)
    ensures NeedsWriteLock(at) ==> !HoldsWriteLock(at)
  {}

  lemma MuHolder(s: State, t: Tid)
    requires Inv(s) && s.mu == Some(t)
    ensures PcOf(s, t) == Holder(s) && Holder(s).Crit?
  {}

  /**
   * No deadlock: as long as any operation is under way, some goroutine that is inside
   * one can take its next step, whatever the network, files and clock answer.
   */
  lemma NoDeadlock(s: State, t: Tid)
    requires Reachable(s) && UnderWay(s, t)
    ensures exists u :: UnderWay(s, u) && Moves(s, u)
  {
    hide Inv, Moves, Reachable;
    ReachableInv(s);
    if s.mu.Some? {
      HeldMoves(s, s.mu.value);
    } else {
      FreeMoves(s, t);
    }
  }

  // ---------- every operation comes to an end ----------

  function SaveRank(k: SaveFor): nat {
    match k
    case Pending => 26
    case ForClose => 4
    case _ => 1
  }

  /** An upper bound on the steps left inside the critical section. */
  function LabelRank(at: Label): nat {
    match at
    case Entry => 40
    case LoadRead => 22
    case Refreshing(r) => (match r case Decide => 25 case RefreshCheck => 24 case RefreshCall => 23
                                   case RefreshFields(_, _) => 22 case Preserve(_) => 8)
    case Building(_, _, b) => (match b case BuildCheck => 21 case BuildFields => 20 case BuildNew => 19
                                       case ReplaceLock(_) => 14 case ReplaceSwap(_) => 13 case Replaced => 10)
    case Closing(_, begun, k) => (if k.AfterReplace? then 11 else 9) + (if begun then 0 else 1)
    case Saving(k, a) => SaveRank(k) + (match a case SaveCheck => 5 case SaveStage => 4 case SaveWrite(_) => 3
                                                case SavePublish(_) => 2 case SaveDiscard(_) => 1)
    case LoggingIn(_, l) => (match l case LoginCheck => 18 case LoginStage => 17 case LoginWrite(_) => 16
                                     case LoginLock(_) => 15 case LoginPublish(_) => 14 case LoginAbort(_) => 13
                                     case LoginSwap => 13 case LoginUnstage(_) => 12)
    case Discarding(_) => 1
    case ClosingDown(_, c) => (match c case CloseLock => 3 case CloseTake => 2 case CloseRelease(_) => 1)
    case Exit(_) => 0
  }

  /** An upper bound on the steps left once mu is released. */
  function AfterRank(op: Op): nat {
    match op
    case FetchApply(_, _) => 0
    case FetchStart(_) => 44
    case Login(_, _) => 87
    case _ => 5
  }

  /** An upper bound on the steps a goroutine still takes before it is idle again. */
  function Rank(pc: Pc): nat {
    match pc
    case Idle => 0
    case EndRead => 1
    case Using(_) => 2
    case ReadCheck => 3
    case WantRead => 4
    case CloseCurrent(c, begun, _) => if c.None? then 1 else if begun then 2 else 3
    case Crit(op, at) => AfterRank(op) + 1 + LabelRank(at)
    case WantMu(op) => AfterRank(op) + 42
    case ProfileCall(_) => 43
    case PrepareEntry => 48
    case LoginPoll(_) => 130
  }

  lemma RefreshDescends(s: State, op: Op, r: RefreshAt, ch: Choice)
    ensures var next := RefreshWork(s, op, r, ch).next;
      next == Refreshing(r) || LabelRank(next) < LabelRank(Refreshing(r))
  {}

  lemma BuildDescends(s: State, op: Op, u: UiRef, j: Job, b: BuildAt, ch: Choice)
    requires b.BuildCheck? || b.BuildFields? || b.Replaced?
    ensures LabelRank(BuildWork(s, op, u, j, b, ch).next) < LabelRank(Building(u, j, b))
  {}

  lemma SaveDescends(s: State, k: SaveFor, a: SaveAt, ch: Choice)
    ensures var next := SaveWork(s, k, a, ch).next;
      next == Saving(k, a) || LabelRank(next) < LabelRank(Saving(k, a))
  {}

  lemma LoginDescends(s: State, op: Op, c: CtxId, l: LoginAt, ch: Choice)
    requires op.Login? && !(l.LoginLock? || l.LoginAbort? || l.LoginSwap?)
    ensures var next := LoginWork(s, op, c, l, ch).next;
      next == LoggingIn(c, l) || LabelRank(next) < LabelRank(LoggingIn(c, l))
  {}

  lemma EntryDescends(s: State, op: Op, ch: Choice)
    ensures LabelRank(EntryWork(s, op, ch).next) < LabelRank(Entry)
  {}

  lemma WorkDescends(s: State, op: Op, at: Label, ch: Choice)
    requires IsWork(at)
    ensures var next := WorkAt(s, op, at, ch).next; next == at || LabelRank(next) < LabelRank(at)
  {
    hide RefreshWork, BuildWork, SaveWork, LoginWork, EntryWork, LabelRank;
    match at
    case Entry => EntryDescends(s, op, ch);
    case Refreshing(r) => RefreshDescends(s, op, r, ch);
    case Building(u, j, b) => BuildDescends(s, op, u, j, b, ch);
    case Saving(k, a) => SaveDescends(s, k, a, ch);
    case LoggingIn(c, l) => if op.Login? { LoginDescends(s, op, c, l, ch); }
    case Discarding(tmp) => RestDescends(s, op, at, ch);
    case LoadRead => RestDescends(s, op, at, ch);
  }

  lemma RestDescends(s: State, op: Op, at: Label, ch: Choice)
    requires at.Discarding? || at.LoadRead?
    ensures var next := WorkAt(s, op, at, ch).next; next == at || LabelRank(next) < LabelRank(at)
  {}

  lemma LockDescends(s: State, t: Tid, op: Op, at: Label, ch: Choice)
    requires !IsWork(at) && PcOf(s, t) == Crit(op, at) && (at.ClosingDown? ==> op.CloseManager?)
    ensures var pc := PcOf(LockStep(s, t, op, at, ch), t); pc == Crit(op, at) || Rank(pc) < Rank(Crit(op, at))
  {
    hide LoginLockStep, CloseDownStep, ExitStep, ClosingStep, Rank;
    match at
    case Building(u, j, b) => BuildingDescends(s, t, op, at, ch);
    case Closing(c, begun, k) => ClosingDescends(s, t, op, c, begun, k);
    case LoggingIn(c, l) => LoginLockDescends(s, t, op, c, l);
    case ClosingDown(f, c) => CloseDownDescends(s, t, op, f, c);
    case Exit(ok) => ExitDescends(s, t, op, ok);
  }

  lemma LoginLockDescends(s: State, t: Tid, op: Op, c: CtxId, l: LoginAt)
    requires (l.LoginLock? || l.LoginAbort? || l.LoginSwap?) && PcOf(s, t) == Crit(op, LoggingIn(c, l))
    ensures var pc := PcOf(LoginLockStep(s, t, op, c, l), t);
      pc == Crit(op, LoggingIn(c, l)) || Rank(pc) < Rank(Crit(op, LoggingIn(c, l)))
  {}

  lemma CloseDownDescends(s: State, t: Tid, op: Op, f: bool, c: CloseAt)
    requires op.CloseManager? && PcOf(s, t) == Crit(op, ClosingDown(f, c))
    ensures var pc := PcOf(CloseDownStep(s, t, op, f, c), t);
      pc == Crit(op, ClosingDown(f, c)) || Rank(pc) < Rank(Crit(op, ClosingDown(f, c)))
  {}

  lemma ExitDescends(s: State, t: Tid, op: Op, ok: bool)
    ensures Rank(PcOf(ExitStep(s, t, op, ok), t)) < Rank(Crit(op, Exit(ok)))
  {}

  lemma BuildingDescends(s: State, t: Tid, op: Op, at: Label, ch: Choice)
    requires at.Building? && !IsWork(at) && PcOf(s, t) == Crit(op, at)
    ensures var pc := PcOf(LockStep(s, t, op, at, ch), t); pc == Crit(op, at) || Rank(pc) < Rank(Crit(op, at))
  {
    match at.b
    case BuildNew =>
    case ReplaceLock(c) =>
    case ReplaceSwap(c) =>
  }

  lemma ClosingDescends(s: State, t: Tid, op: Op, c: CtxId, begun: bool, k: Then)
    requires PcOf(s, t) == Crit(op, Closing(c, begun, k))
    ensures var pc := PcOf(ClosingStep(s, t, op, c, begun, k), t);
      pc == Crit(op, Closing(c, begun, k)) || Rank(pc) < Rank(Crit(op, Closing(c, begun, k)))
  {
    AfterCloseRank(op, k);
    hide AfterClose, AfterRank;
  }

  lemma AfterCloseRank(op: Op, k: Then)
    ensures LabelRank(AfterClose(op, k)) < (if k.AfterReplace? then 11 else 9)
  {}

  lemma OutDescends(s: State, t: Tid, pc: Pc, ch: Choice)
    requires PcOf(s, t) == pc && !pc.Crit? && pc != Idle
    ensures var next := PcOf(OutStep(s, t, pc, ch), t); next == pc || Rank(next) < Rank(pc)
  {}

  /** No goroutine but `t` has moved. */
  ghost predicate OnlyMoved(s: State, s2: State, t: Tid) {
    && (forall u | u in s.threads || u in s2.threads :: u != t ==> PcOf(s2, u) == PcOf(s, u))
    && s2.threads.Keys <= s.threads.Keys + {t} && s.threads.Keys <= s2.threads.Keys
  }

  lemma CritAlone(s: State, t: Tid, op: Op, at: Label, ch: Choice)
    ensures OnlyMoved(s, CritStep(s, t, op, at, ch), t)
  {
    hide WorkAt, LockStep, OnlyMoved;
    if !IsWork(at) {
      LockAlone(s, t, op, at, ch);
    } else {
      StayAlone(s, t);
      GoneAlone(s, Do(s, t, op, WorkAt(s, op, at, ch)), t);
    }
  }

  lemma StayAlone(s: State, t: Tid)
    ensures OnlyMoved(s, s, t)
  {}

  lemma GoneAlone(s: State, s2: State, t: Tid)
    requires t in s2.threads && s2.threads == s.threads[t := s2.threads[t]]
    ensures OnlyMoved(s, s2, t)
  {}

  lemma LockAlone(s: State, t: Tid, op: Op, at: Label, ch: Choice)
    requires !IsWork(at)
    ensures OnlyMoved(s, LockStep(s, t, op, at, ch), t)
  {
    hide OnlyMoved, AfterExit, ClosingStep, LoginLockStep, CloseDownStep;
    match at
    case Building(u, j, b) => BuildingAlone(s, t, op, at, ch);
    case Closing(c, begun, k) => ClosingAlone(s, t, op, c, begun, k);
    case LoggingIn(c, l) => LoginAlone(s, t, op, c, l);
    case ClosingDown(f, c) => CloseDownAlone(s, t, op, f, c);
    case Exit(ok) => GoneAlone(s, ExitStep(s, t, op, ok), t);
  }

  lemma BuildingAlone(s: State, t: Tid, op: Op, at: Label, ch: Choice)
    requires at.Building? && !IsWork(at)
    ensures OnlyMoved(s, LockStep(s, t, op, at, ch), t)
  {
    hide OnlyMoved, BuildFailed;
    StayAlone(s, t);
    match at.b
    case BuildNew => if !ch.ok || !ch.due || ch.name !in s.contexts { GoneAlone(s, LockStep(s, t, op, at, ch), t); }
    case ReplaceLock(c) => AcquireAlone(s, t, op, Building(at.user, at.job, ReplaceSwap(c)));
    case ReplaceSwap(c) => GoneAlone(s, LockStep(s, t, op, at, ch), t);
  }

  lemma AcquireAlone(s: State, t: Tid, op: Op, next: Label)
    ensures OnlyMoved(s, AcquireStep(s, t, op, next), t)
  {
    hide OnlyMoved, WriteLockFree;
    StayAlone(s, t);
    if WriteLockFree(s) { GoneAlone(s, AcquireStep(s, t, op, next), t); }
  }

  lemma ClosingAlone(s: State, t: Tid, op: Op, c: CtxId, begun: bool, k: Then)
    ensures OnlyMoved(s, ClosingStep(s, t, op, c, begun, k), t)
  {
    hide OnlyMoved, NobodyUses, AfterClose;
    StayAlone(s, t);
    if c in s.contexts && (!begun || NobodyUses(s, c)) { GoneAlone(s, ClosingStep(s, t, op, c, begun, k), t); }
  }

  lemma LoginAlone(s: State, t: Tid, op: Op, c: CtxId, l: LoginAt)
    requires l.LoginLock? || l.LoginAbort? || l.LoginSwap?
    ensures OnlyMoved(s, LoginLockStep(s, t, op, c, l), t)
  {
    hide OnlyMoved;
    StayAlone(s, t);
    match l
    case LoginLock(tmp) => AcquireAlone(s, t, op, LoggingIn(c, LoginPublish(tmp)));
    case LoginAbort(_) => GoneAlone(s, LoginLockStep(s, t, op, c, l), t);
    case LoginSwap => if op.Login? { GoneAlone(s, LoginLockStep(s, t, op, c, l), t); }
  }

  lemma CloseDownAlone(s: State, t: Tid, op: Op, f: bool, c: CloseAt)
    ensures OnlyMoved(s, CloseDownStep(s, t, op, f, c), t)
  {
    hide OnlyMoved;
    match c
    case CloseLock => AcquireAlone(s, t, op, ClosingDown(f, CloseTake));
    case CloseTake => GoneAlone(s, CloseDownStep(s, t, op, f, c), t);
    case CloseRelease(_) => GoneAlone(s, CloseDownStep(s, t, op, f, c), t);
  }

  /** A step outside mu leaves the threads as they are or puts `t` somewhere. */
  predicate Put(s: State, s2: State, t: Tid) {
    s2.threads == s.threads || (t in s2.threads && s2.threads == s.threads[t := s2.threads[t]])
  }

  lemma PutAlone(s: State, s2: State, t: Tid)
    requires Put(s, s2, t)
    ensures OnlyMoved(s, s2, t)
  {}

  lemma StartPuts(s: State, t: Tid, ch: Choice)
    ensures Put(s, StartStep(s, t, ch), t)
  {}

  lemma CloseCurrentPuts(s: State, t: Tid, pc: Pc, ch: Choice)
    requires pc.CloseCurrent?
    ensures Put(s, OutStep(s, t, pc, ch), t)
  {
    hide NobodyUses;
  }

  lemma OutAlone(s: State, t: Tid, pc: Pc, ch: Choice)
    requires !pc.Crit?
    ensures OnlyMoved(s, OutStep(s, t, pc, ch), t)
  {
    hide OnlyMoved, StartStep;
    StartPuts(s, t, ch);
    if pc.CloseCurrent? {
      CloseCurrentPuts(s, t, pc, ch);
    }
    PutAlone(s, OutStep(s, t, pc, ch), t);
  }

  /** A step changes the program counter of the thread that takes it and of no other. */
  lemma OthersStay(s: State, t: Tid, u: Tid, ch: Choice)
    requires t != u
    ensures PcOf(Next(s, t, ch), u) == PcOf(s, u)
  {
    hide CritStep, OutStep;
    var pc := PcOf(s, t);
    if pc.Crit? {
      CritAlone(s, t, pc.op, pc.at, ch);
    } else {
      OutAlone(s, t, pc, ch);
    }
  }

  /**
   * Every step of an operation that does not wait brings it nearer to its end: no
   * operation takes more than 130 steps of its own before its goroutine is idle.
   */
  lemma StepsDescend(s: State, t: Tid, ch: Choice)
    requires Reachable(s) && UnderWay(s, t)
    ensures var pc := PcOf(Next(s, t, ch), t); pc == PcOf(s, t) || Rank(pc) < Rank(PcOf(s, t)) <= 130
  {
    hide Inv, Reachable, Next, Rank;
    ReachableInv(s);
    InvDescends(s, t, ch);
  }

  lemma InvDescends(s: State, t: Tid, ch: Choice)
    requires Inv(s) && UnderWay(s, t)
    ensures var pc := PcOf(Next(s, t, ch), t); pc == PcOf(s, t) || Rank(pc) < Rank(PcOf(s, t)) <= 130
  {
    hide Inv, WorkAt, LockStep, LabelRank;
    var pc := PcOf(s, t);
    RankBound(pc);
    if pc.Crit? {
      ClosingOp(s, t, pc.op, pc.at);
      if IsWork(pc.at) {
        WorkDescends(s, pc.op, pc.at, ch);
      } else {
        LockDescends(s, t, pc.op, pc.at, ch);
      }
    } else {
      OutDescends(s, t, pc, ch);
    }
  }

  /** No thread comes or goes. */
  lemma SameThreads(s: State, t: Tid, ch: Choice)
    requires UnderWay(s, t)
    ensures Next(s, t, ch).threads.Keys == s.threads.Keys
  {
    hide CritStep, OutStep;
    var pc := PcOf(s, t);
    if pc.Crit? {
      CritAlone(s, t, pc.op, pc.at, ch);
    } else {
      OutAlone(s, t, pc, ch);
    }
  }

  lemma ClosingOp(s: State, t: Tid, op: Op, at: Label)
    requires Inv(s) && PcOf(s, t) == Crit(op, at)
    ensures at.ClosingDown? ==> op.CloseManager?
  {}

  lemma RankBound(pc: Pc)
    ensures Rank(pc) <= 130
  {}

  // ---------- whole runs ----------

  /** The ranks of some threads added up. */
  ghost function TotalRank(threads: map<Tid, Pc>, keys: set<Tid>): nat
    requires keys <= threads.Keys
  {
    if keys == {} then 0
    else
      var t :| t in keys;
      Rank(threads[t]) + TotalRank(threads, keys - {t})
  }

  lemma {:induction false} TotalSplit(threads: map<Tid, Pc>, keys: set<Tid>, t: Tid)
    requires keys <= threads.Keys && t in keys
    ensures TotalRank(threads, keys) == Rank(threads[t]) + TotalRank(threads, keys - {t})
    decreases keys
  {
    hide Rank;
    var u :| u in keys && TotalRank(threads, keys) == Rank(threads[u]) + TotalRank(threads, keys - {u});
    if u != t {
      TotalSplit(threads, keys - {u}, t);
      TotalSplit(threads, keys - {t}, u);
      assert keys - {u} - {t} == keys - {t} - {u};
    }
  }

  lemma {:induction false} TotalSame(threads: map<Tid, Pc>, threads2: map<Tid, Pc>, keys: set<Tid>)
    requires keys <= threads.Keys && keys <= threads2.Keys
    requires forall t | t in keys :: threads2[t] == threads[t]
    ensures TotalRank(threads2, keys) == TotalRank(threads, keys)
    decreases keys
  {
    hide Rank;
    if keys != {} {
      var t :| t in keys;
      TotalSplit(threads, keys, t);
      TotalSplit(threads2, keys, t);
      TotalSame(threads, threads2, keys - {t});
    }
  }

  /** Every move is a step of an operation under way that does not wait; the outcomes are arbitrary. */
  ghost predicate Effective(s: State, moves: Schedule)
    decreases |moves|
  {
    moves != [] ==>
      var (t, ch) := moves[0];
      && UnderWay(s, t) && PcOf(Next(s, t, ch), t) != PcOf(s, t)
      && Effective(Next(s, t, ch), moves[1..])
  }

  lemma MoveCosts(s: State, t: Tid, ch: Choice)
    requires Inv(s) && UnderWay(s, t) && PcOf(Next(s, t, ch), t) != PcOf(s, t)
    ensures var s2 := Next(s, t, ch);
      s2.threads.Keys == s.threads.Keys
      && TotalRank(s2.threads, s2.threads.Keys) < TotalRank(s.threads, s.threads.Keys)
  {
    hide Inv, Next, Rank;
    var s2, keys := Next(s, t, ch), s.threads.Keys;
    SameThreads(s, t, ch);
    InvDescends(s, t, ch);
    TotalSplit(s.threads, keys, t);
    TotalSplit(s2.threads, keys, t);
    forall u | u in keys - {t}
      ensures s2.threads[u] == s.threads[u]
    {
      OthersStay(s, t, u, ch);
    }
    TotalSame(s.threads, s2.threads, keys - {t});
  }

  /**
   * Every operation comes to an end: once no new one is started, a run of steps that
   * do not wait is no longer than the ranks of the threads added up, whatever the
   * outcomes; and as long as it can be continued, NoDeadlock says how.
   */
  lemma {:induction false} RunsEnd(s: State, moves: Schedule)
    requires Inv(s) && Effective(s, moves)
    ensures |moves| <= TotalRank(s.threads, s.threads.Keys)
    decreases |moves|
  {
    hide Inv, Next, TotalRank;
    if moves != [] {
      var (t, ch) := moves[0];
      MoveCosts(s, t, ch);
      NextKeeps(s, t, ch);
      RunsEnd(Next(s, t, ch), moves[1..]);
    }
  }
}
