/**
 * An operation of the authentication manager fails for a cause: where the network, files,
 * factory and runtime fields have answered well throughout its critical section and nothing about
 * the manager forbids it, it succeeds, and what it changed is in the file.
 */
module AuthGoodRuns {
  import opened Basics
  import opened AuthModel
  import opened AuthInvariant
  import opened AuthSteps
  import opened AuthThreads
  import opened AuthTheorems
  import opened AuthProgress
  import opened AuthLog
  import opened AuthVisits
  import opened AuthLogRuns

  /** The outside answers well: actions succeed, a context is made, runtime fields and an access token come. */
  predicate GoodChoice(s: State, ch: Choice) {
    ch.ok && ch.due && FreshName(s, ch.name) && ch.encryptUserInfo != "" && ch.key != "" && ch.reply.token != ""
  }

  /** Whether all answers in the critical section under way were good, after one more step. */
  predicate StillGood(good: bool, s: State, s2: State, t: Tid, ch: Choice) {
    match PcOf(s, t)
    case WantMu(_) => PcOf(s2, t).Crit? || good
    case Crit(_, _) => good && (PcOf(s2, t) != PcOf(s, t) ==> GoodChoice(s, ch))
    case _ => good
  }

  predicate GoodOf(good: bool, s: State, moves: Schedule)
    decreases |moves|
  {
    if moves == [] then good
    else
      var (t, ch) := moves[0];
      GoodOf(StillGood(good, s, Next(s, t, ch), t, ch), Next(s, t, ch), moves[1..])
  }

  /** What forbids the operation: a closed or read-only manager, no user, no token to refresh with, no file. */
  predicate Excused(l: Log, s: State, op: Op) {
    match op
    case EnsureFresh(_) =>
      s.closed || s.readOnly || Before(s).None? || Before(s).value.refreshToken == ""
      || (l.clock.Some? && !Refreshable(Before(s).value, l.clock.value))
    case ForceRefresh => s.closed || s.readOnly || Before(s).None? || Before(s).value.refreshToken == ""
    case Load(_) => s.closed || (l.loaded.None? && (s.readOnly || s.hist.entry.file.None?))
    case Login(_, _) => s.closed || s.readOnly
    case FetchStart(u) => s.closed || s.vault.ui != Some(u)
    case FetchApply(u, _) => s.closed || s.vault.ui != Some(u)
    case CloseManager => false
  }

  /** The points on the way to success. */
  predicate OnWay(at: Label) {
    match at
    case Refreshing(r) => !r.Preserve?
    case Closing(_, _, k) => k.AfterReplace? || k.AfterLogin?
    case Saving(k, a) => !k.Rotation? && !a.SaveDiscard?
    case LoggingIn(_, a) => !a.LoginUnstage? && !a.LoginAbort?
    case Discarding(_) => false
    case ClosingDown(f, _) => !f
    case Exit(ok) => ok
    case _ => true
  }

  /** Nothing is left to write. */
  predicate AllSaved(s: State) { !s.vault.dirty || s.vault.ui.None? }

  predicate SavedBy(l: Log, s: State, op: Op, at: Label) {
    match at
    case Refreshing(Decide) => Pending in l.saves ==> AllSaved(s)
    case Exit(_) =>
      && (RefreshOp(op) && l.accepted.Some? && !s.readOnly ==> AllSaved(s))
      && (op.FetchApply? && !s.readOnly ==> AllSaved(s))
    case ClosingDown(_, _) => AllSaved(s)
    case _ => true
  }

  predicate WayAt(l: Log, s: State, op: Op, at: Label) {
    !Excused(l, s, op) ==> OnWay(at) && SavedBy(l, s, op, at)
  }

  // ---------- the work of a section ----------

  predicate WayFits(l: Log, s: State, t: Tid, op: Op, at: Label, w: Work, ch: Choice) {
    var l2 := if w.next == at then l else NotedAt(l, s, at, t, ch, Crit(op, w.next));
    WayAt(l2, Do(s, t, op, w), op, w.next)
  }

  lemma EntryWay(l: Log, s: State, t: Tid, op: Op, ch: Choice)
    requires CanWork(s, op, Entry) && VisitAt(l, s, op, Entry) && GoodChoice(s, ch)
    ensures WayFits(l, s, t, op, Entry, EntryWork(s, op, ch), ch)
  {}

  lemma LoadWay(l: Log, s: State, t: Tid, op: Op, ch: Choice)
    requires CanWork(s, op, LoadRead) && VisitAt(l, s, op, LoadRead) && GoodChoice(s, ch)
    ensures WayFits(l, s, t, op, LoadRead, LoadWork(s, ch), ch)
  {}

  lemma RefreshWay(l: Log, s: State, t: Tid, op: Op, r: RefreshAt, ch: Choice)
    requires CanWork(s, op, Refreshing(r)) && VisitAt(l, s, op, Refreshing(r)) && GoodChoice(s, ch) && RefreshOp(op)
    requires WayAt(l, s, op, Refreshing(r)) && !r.Preserve?
    ensures WayFits(l, s, t, op, Refreshing(r), RefreshWork(s, op, r, ch), ch)
  {}

  /** Who is excused once stays so. */
  lemma PreserveWay(l: Log, s: State, t: Tid, op: Op, r: Reply, ch: Choice)
    requires CanWork(s, op, Refreshing(Preserve(r))) && RefreshOp(op) && WayAt(l, s, op, Refreshing(Preserve(r)))
    ensures WayFits(l, s, t, op, Refreshing(Preserve(r)), PreserveWork(s, r), ch)
  {}

  lemma BuildWay(l: Log, s: State, t: Tid, op: Op, u: UiRef, j: Job, b: BuildAt, ch: Choice)
    requires b.BuildCheck? || b.BuildFields? || b.Replaced?
    requires CanWork(s, op, Building(u, j, b)) && VisitAt(l, s, op, Building(u, j, b)) && GoodChoice(s, ch)
    requires WayAt(l, s, op, Building(u, j, b))
    ensures WayFits(l, s, t, op, Building(u, j, b), BuildWork(s, op, u, j, b, ch), ch)
  {}

  lemma SaveWay(l: Log, s: State, t: Tid, op: Op, k: SaveFor, a: SaveAt, ch: Choice)
    requires CanWork(s, op, Saving(k, a)) && VisitAt(l, s, op, Saving(k, a)) && GoodChoice(s, ch)
    requires WayAt(l, s, op, Saving(k, a))
    ensures WayFits(l, s, t, op, Saving(k, a), SaveWork(s, k, a, ch), ch)
  {}

  lemma LoginWay(l: Log, s: State, t: Tid, op: Op, c: CtxId, a: LoginAt, ch: Choice)
    requires op.Login? && !(a.LoginLock? || a.LoginAbort? || a.LoginSwap?)
    requires CanWork(s, op, LoggingIn(c, a)) && VisitAt(l, s, op, LoggingIn(c, a)) && GoodChoice(s, ch)
    requires WayAt(l, s, op, LoggingIn(c, a))
    ensures WayFits(l, s, t, op, LoggingIn(c, a), LoginWork(s, op, c, a, ch), ch)
  {}

  /** A login in good order never discards its staged file. */
  lemma NeverDiscards(l: Log, s: State, op: Op, tmp: TempId)
    requires CanWork(s, op, Discarding(tmp)) && op.Login?
    ensures !WayAt(l, s, op, Discarding(tmp))
  {}

  lemma RefreshingWay(l: Log, s: State, t: Tid, op: Op, r: RefreshAt, ch: Choice)
    requires CanWork(s, op, Refreshing(r)) && VisitAt(l, s, op, Refreshing(r)) && GoodChoice(s, ch) && RefreshOp(op)
    requires WayAt(l, s, op, Refreshing(r))
    ensures WayFits(l, s, t, op, Refreshing(r), RefreshWork(s, op, r, ch), ch)
  {
    PreserveIs(s, op, r, ch);
    hide CanWork, VisitAt, WayAt, WayFits, RefreshWork, PreserveWork, GoodChoice;
    if r.Preserve? {
      PreserveWay(l, s, t, op, r.reply, ch);
    } else {
      RefreshWay(l, s, t, op, r, ch);
    }
  }

  lemma WorkWay(l: Log, s: State, t: Tid, op: Op, at: Label, ch: Choice)
    requires IsWork(at) && CanWork(s, op, at) && VisitAt(l, s, op, at) && WayAt(l, s, op, at) && GoodChoice(s, ch)
    ensures WayFits(l, s, t, op, at, WorkAt(s, op, at, ch), ch)
  {
    OpOf(s, op, at);
    hide WayFits, WayAt, VisitAt, CanWork, EntryWork, LoadWork, RefreshWork, BuildWork, SaveWork, LoginWork, GoodChoice,
      RefreshOp;
    match at
    case Entry => EntryWay(l, s, t, op, ch);
    case LoadRead => LoadWay(l, s, t, op, ch);
    case Refreshing(r) => RefreshingWay(l, s, t, op, r, ch);
    case Building(u, j, b) => BuildWay(l, s, t, op, u, j, b, ch);
    case Saving(k, a) => SaveWay(l, s, t, op, k, a, ch);
    case LoggingIn(c, a) => LoginWay(l, s, t, op, c, a, ch);
    case Discarding(tmp) => NeverDiscards(l, s, op, tmp);
  }

  // ---------- locks and contexts ----------

  /** After a step of the holder that keeps mu. */
  predicate WayKept(l: Log, s: State, s2: State, t: Tid, ch: Choice) {
    s2.mu.None? || (PcOf(s2, t).Crit? && WayAt(Noted(l, s, s2, t, ch), s2, PcOf(s2, t).op, PcOf(s2, t).at))
  }

  lemma BuildNewWay(l: Log, s: State, t: Tid, op: Op, u: UiRef, j: Job, ch: Choice)
    requires PcOf(s, t) == Crit(op, Building(u, j, BuildNew)) && WayAt(l, s, op, Building(u, j, BuildNew))
    requires GoodChoice(s, ch)
    ensures WayKept(l, s, BuildNewStep(s, t, op, u, j, ch), t, ch)
  {}

  lemma ReplaceLockWay(l: Log, s: State, t: Tid, op: Op, u: UiRef, j: Job, c: CtxId, ch: Choice)
    requires PcOf(s, t) == Crit(op, Building(u, j, ReplaceLock(c))) && WayAt(l, s, op, Building(u, j, ReplaceLock(c)))
    ensures WayKept(l, s, AcquireStep(s, t, op, Building(u, j, ReplaceSwap(c))), t, ch)
  {
    hide WriteLockFree;
  }

  lemma ReplaceSwapWay(l: Log, s: State, t: Tid, op: Op, u: UiRef, j: Job, c: CtxId, ch: Choice)
    requires PcOf(s, t) == Crit(op, Building(u, j, ReplaceSwap(c))) && WayAt(l, s, op, Building(u, j, ReplaceSwap(c)))
    requires !s.closed
    ensures WayKept(l, s, ReplaceSwapStep(s, t, op, u, j, c), t, ch)
  {}

  lemma BuildingWay(l: Log, s: State, t: Tid, op: Op, u: UiRef, j: Job, b: BuildAt, ch: Choice)
    requires WayAt(l, s, op, Building(u, j, b)) && !s.closed && (b.BuildNew? ==> GoodChoice(s, ch))
    requires !IsWork(Building(u, j, b)) && PcOf(s, t) == Crit(op, Building(u, j, b))
    ensures WayKept(l, s, LockStep(s, t, op, Building(u, j, b), ch), t, ch)
  {
    hide WayAt, WayKept, GoodChoice, BuildNewStep, AcquireStep, ReplaceSwapStep;
    match b
    case BuildNew => BuildNewWay(l, s, t, op, u, j, ch);
    case ReplaceLock(c) => ReplaceLockWay(l, s, t, op, u, j, c, ch);
    case ReplaceSwap(c) => ReplaceSwapWay(l, s, t, op, u, j, c, ch);
  }

  lemma ClosingWay(l: Log, s: State, t: Tid, op: Op, c: CtxId, begun: bool, k: Then, ch: Choice)
    requires CanWork(s, op, Closing(c, begun, k)) && WayAt(l, s, op, Closing(c, begun, k))
    requires PcOf(s, t) == Crit(op, Closing(c, begun, k))
    ensures WayKept(l, s, ClosingStep(s, t, op, c, begun, k), t, ch)
  {
    hide NobodyUses;
  }

  lemma LoginLockWay(l: Log, s: State, t: Tid, op: Op, c: CtxId, a: LoginAt, ch: Choice)
    requires op.Login? && (a.LoginLock? || a.LoginAbort? || a.LoginSwap?)
    requires CanWork(s, op, LoggingIn(c, a)) && WayAt(l, s, op, LoggingIn(c, a))
    requires PcOf(s, t) == Crit(op, LoggingIn(c, a))
    ensures WayKept(l, s, LoginLockStep(s, t, op, c, a), t, ch)
  {
    hide WriteLockFree;
  }

  lemma CloseDownWay(l: Log, s: State, t: Tid, op: Op, f: bool, c: CloseAt, ch: Choice)
    requires CanWork(s, op, ClosingDown(f, c)) && WayAt(l, s, op, ClosingDown(f, c)) && op.CloseManager?
    requires PcOf(s, t) == Crit(op, ClosingDown(f, c))
    ensures WayKept(l, s, CloseDownStep(s, t, op, f, c), t, ch)
  {
    hide WriteLockFree;
  }

  lemma LockWay(l: Log, s: State, t: Tid, op: Op, at: Label, ch: Choice)
    requires Inv(s) && PcOf(s, t) == Crit(op, at) && !IsWork(at) && VisitAt(l, s, op, at) && WayAt(l, s, op, at)
    requires at.Building? && at.b.BuildNew? ==> PcOf(LockStep(s, t, op, at, ch), t) == Crit(op, at) || GoodChoice(s, ch)
    ensures WayKept(l, s, LockStep(s, t, op, at, ch), t, ch)
  {
    HolderTells(s, t, op, at);
    if PcOf(LockStep(s, t, op, at, ch), t) == Crit(op, at) && at.Building? {
      StuckWay(l, s, t, op, at, ch);
    } else {
      hide CanWork, VisitAt, WayAt, WayKept, ClosingStep, LoginLockStep, CloseDownStep, ExitStep, Inv, GoodChoice;
      match at
      case Building(u, j, b) => BuildingWay(l, s, t, op, u, j, b, ch);
      case Closing(c, begun, k) => ClosingWay(l, s, t, op, c, begun, k, ch);
      case LoggingIn(c, a) => LoginLockWay(l, s, t, op, c, a, ch);
      case ClosingDown(f, c) => CloseDownWay(l, s, t, op, f, c, ch);
      case Exit(ok) => ExitFrees(l, s, t, op, ok, ch);
    }
  }

  lemma ExitFrees(l: Log, s: State, t: Tid, op: Op, ok: bool, ch: Choice)
    ensures WayKept(l, s, ExitStep(s, t, op, ok), t, ch)
  {}

  /** A step that waits, or finds its new name taken, changes nothing. */
  lemma StuckWay(l: Log, s: State, t: Tid, op: Op, at: Label, ch: Choice)
    requires PcOf(s, t) == Crit(op, at) && at.Building? && !IsWork(at) && WayAt(l, s, op, at)
    requires PcOf(LockStep(s, t, op, at, ch), t) == Crit(op, at)
    ensures WayKept(l, s, LockStep(s, t, op, at, ch), t, ch)
  {
    hide WriteLockFree;
    match at.b
    case BuildNew =>
    case ReplaceLock(c) =>
    case ReplaceSwap(c) =>
  }

  // ---------- every run ----------

  ghost predicate WayInv(good: bool, l: Log, s: State) {
    good && s.mu.Some? ==> Holder(s).Crit? && WayAt(l, s, Holder(s).op, Holder(s).at)
  }

  /** Work that does not get on, its new name being taken, does nothing. */
  lemma WorkStutters(s: State, op: Op, at: Label, ch: Choice)
    requires IsWork(at) && WorkAt(s, op, at, ch).next == at
    ensures WorkAt(s, op, at, ch).vault == s.vault && WorkAt(s, op, at, ch).hist == s.hist
  {
    hide BuildFailed, AfterSave;
    match at
    case Building(u, j, b) => BuildMoves(s, op, u, j, b, ch);
    case Saving(k, a) => SaveStutters(s, k, a, ch);
    case Entry => EntryMoves(s, op, ch);
    case _ =>
  }

  lemma SaveStutters(s: State, k: SaveFor, a: SaveAt, ch: Choice)
    requires SaveWork(s, k, a, ch).next == Saving(k, a)
    ensures SaveWork(s, k, a, ch).vault == s.vault && SaveWork(s, k, a, ch).hist == s.hist
  {}

  lemma SameState(s: State, t: Tid, op: Op, at: Label, w: Work)
    requires PcOf(s, t) == Crit(op, at) && w == Work(s.vault, s.hist, at)
    ensures Do(s, t, op, w) == s
  {}

  lemma DoWay(l: Log, s: State, t: Tid, op: Op, at: Label, ch: Choice)
    requires IsWork(at) && CanWork(s, op, at) && VisitAt(l, s, op, at) && WayAt(l, s, op, at)
    requires PcOf(s, t) == Crit(op, at)
    requires PcOf(Do(s, t, op, WorkAt(s, op, at, ch)), t) != Crit(op, at) ==> GoodChoice(s, ch)
    ensures WayKept(l, s, Do(s, t, op, WorkAt(s, op, at, ch)), t, ch)
  {
    var w := WorkAt(s, op, at, ch);
    if w.next == at {
      WorkStutters(s, op, at, ch);
      SameState(s, t, op, at, w);
    } else {
      WorkWay(l, s, t, op, at, ch);
    }
    hide CanWork, VisitAt, WayAt, WorkAt, NotedAt;
  }

  lemma CritWay(l: Log, s: State, t: Tid, op: Op, at: Label, ch: Choice)
    requires Inv(s) && PcOf(s, t) == Crit(op, at) && VisitAt(l, s, op, at) && WayAt(l, s, op, at)
    requires PcOf(CritStep(s, t, op, at, ch), t) != Crit(op, at) ==> GoodChoice(s, ch)
    ensures WayKept(l, s, CritStep(s, t, op, at, ch), t, ch)
  {
    HolderTells(s, t, op, at);
    CritIs(s, t, op, at, ch);
    StayWay(l, s, t, op, at, ch);
    hide Inv, CanWork, VisitAt, WayAt, WayKept, WorkAt, LockStep, Do, CritStep, GoodChoice;
    if !IsWork(at) {
      LockWay(l, s, t, op, at, ch);
    } else if !(ReadsClosed(op, at) && s.ctxWriter.Some?) {
      DoWay(l, s, t, op, at, ch);
    }
  }

  lemma CritIs(s: State, t: Tid, op: Op, at: Label, ch: Choice)
    ensures CritStep(s, t, op, at, ch)
         == if !IsWork(at) then LockStep(s, t, op, at, ch)
            else if ReadsClosed(op, at) && s.ctxWriter.Some? then s
            else Do(s, t, op, WorkAt(s, op, at, ch))
  {
    hide LockStep, WorkAt;
  }

  lemma StayWay(l: Log, s: State, t: Tid, op: Op, at: Label, ch: Choice)
    requires PcOf(s, t) == Crit(op, at) && WayAt(l, s, op, at)
    ensures WayKept(l, s, s, t, ch)
  {}

  lemma WayAgrees(l: Log, l2: Log, s: State, s2: State, op: Op, at: Label)
    requires Agrees(s, s2) && l2 == l.(passed := l2.passed, closeFailed := l2.closeFailed) && WayAt(l, s, op, at)
    ensures WayAt(l2, s2, op, at)
  {}

  lemma EnterWay(l: Log, s: State, t: Tid, op: Op, ch: Choice)
    requires PcOf(s, t) == WantMu(op) && s.mu.None?
    ensures var s2 := OutStep(s, t, WantMu(op), ch);
      s2.mu == Some(t) && PcOf(s2, t) == Crit(op, Entry) && WayAt(Noted(l, s, s2, t, ch), s2, op, Entry)
  {}

  lemma OutWay(good: bool, l: Log, s: State, t: Tid, ch: Choice)
    requires Inv(s) && WayInv(good, l, s) && !PcOf(s, t).Crit?
    ensures var s2 := Next(s, t, ch); WayInv(StillGood(good, s, s2, t, ch), Noted(l, s, s2, t, ch), s2)
  {
    NextOut(s, t, ch);
    InvParts(s);
    var pc := PcOf(s, t);
    if pc.WantMu? {
      if s.mu.None? {
        EnterWay(l, s, t, pc.op, ch);
      } else {
        StaysPut(s, t, pc.op, ch);
      }
    } else {
      OutAgrees(s, t, pc, ch);
      OutNotes(l, s, t, pc, ch);
      OutAlone(s, t, pc, ch);
      hide OutStep, Agrees, WayAt, Noted, Inv, OnlyMoved;
      var s2 := OutStep(s, t, pc, ch);
      if s.mu.Some? {
        HolderStays(s, s2, t);
        if good {
          WayAgrees(l, Noted(l, s, s2, t, ch), s, s2, Holder(s).op, Holder(s).at);
        }
      }
    }
  }

  /** The holder keeps mu or frees it. */
  lemma HolderMu(s: State, t: Tid, op: Op, at: Label, ch: Choice)
    requires PcOf(s, t) == Crit(op, at) && s.mu == Some(t)
    ensures var s2 := CritStep(s, t, op, at, ch); s2.mu.None? || s2.mu == Some(t)
  {
    hide WorkAt, LockStep;
    if !IsWork(at) {
      if at.Exit? || (at.ClosingDown? && at.c.CloseRelease?) {
        FreesMu(s, t, op, at, ch);
      } else {
        MuStays(s, t, op, at, ch);
      }
    }
  }

  lemma FreesMu(s: State, t: Tid, op: Op, at: Label, ch: Choice)
    requires at.Exit? || (at.ClosingDown? && at.c.CloseRelease?)
    ensures LockStep(s, t, op, at, ch).mu.None?
  {}

  lemma WayStep(good: bool, l: Log, s: State, t: Tid, ch: Choice)
    requires Inv(s) && VisitLogged(l, s) && WayInv(good, l, s)
    ensures var s2 := Next(s, t, ch); WayInv(StillGood(good, s, s2, t, ch), Noted(l, s, s2, t, ch), s2)
  {
    if PcOf(s, t).Crit? {
      var op, at := PcOf(s, t).op, PcOf(s, t).at;
      HolderTells(s, t, op, at);
      HolderIs(s, t);
      NextOut(s, t, ch);
      HolderMu(s, t, op, at, ch);
      var s2 := Next(s, t, ch);
      if s2.mu == Some(t) {
        HolderIs(s2, t);
      }
      if StillGood(good, s, s2, t, ch) {
        CritWay(l, s, t, op, at, ch);
      }
      hide Inv, VisitAt, WayAt, Noted, Next, CritStep, CanWork, GoodChoice;
    } else {
      OutWay(good, l, s, t, ch);
    }
  }

  lemma {:induction false} RunWay(good: bool, l: Log, s: State, moves: Schedule)
    requires Inv(s) && LogInv(l, s) && WayInv(good, l, s)
    ensures Inv(Run(s, moves)) && LogInv(LogOf(l, s, moves), Run(s, moves))
    ensures WayInv(GoodOf(good, s, moves), LogOf(l, s, moves), Run(s, moves))
    decreases |moves|
  {
    hide Inv, VisitLogged, BuiltLogged, PassedLogged, OpsAllowed, ReportLogged, WayInv, Next, Noted, StillGood;
    if moves != [] {
      var (t, ch) := moves[0];
      NextKeeps(s, t, ch);
      LogStep(l, s, t, ch);
      WayStep(good, l, s, t, ch);
      RunWay(StillGood(good, s, Next(s, t, ch), t, ch), Noted(l, s, Next(s, t, ch), t, ch), Next(s, t, ch), moves[1..]);
    }
  }

  /** A state some run leads to, with the log of the run, in which all answers in the present section were good. */
  ghost predicate WellReached(s: State, l: Log) {
    exists readOnly: bool, file: Option<UserInfo>, moves: Schedule ::
      && s == Run(Init(readOnly, file), moves) && l == LogOf(BLANK, Init(readOnly, file), moves)
      && GoodOf(true, Init(readOnly, file), moves)
  }

  lemma WellReachedInv(s: State, l: Log)
    requires WellReached(s, l)
    ensures Inv(s) && LogInv(l, s) && WayInv(true, l, s)
  {
    hide Inv, LogInv, WayInv;
    var readOnly: bool, file: Option<UserInfo>, moves: Schedule :|
      && s == Run(Init(readOnly, file), moves) && l == LogOf(BLANK, Init(readOnly, file), moves)
      && GoodOf(true, Init(readOnly, file), moves);
    InvInit(readOnly, file);
    LogInvInit(readOnly, file);
    NoWay(readOnly, file);
    RunWay(true, BLANK, Init(readOnly, file), moves);
  }

  lemma NoWay(readOnly: bool, file: Option<UserInfo>)
    ensures WayInv(true, BLANK, Init(readOnly, file))
  {}

  // ---------- theorems ----------

  /**
   * A section that only met good answers ends well, unless the manager is closed or read-only, no
   * user or refresh token is there, the refresh token has expired, there is no file to load, or the
   * login asked about is no longer in force.
   */
  lemma GoodSectionSucceeds(s: State, l: Log, t: Tid, op: Op, ok: bool)
    requires WellReached(s, l) && PcOf(s, t) == Crit(op, Exit(ok)) && !Excused(l, s, op)
    ensures ok
    ensures (RefreshOp(op) && l.accepted.Some?) || op.FetchApply? ==>
              s.readOnly || s.vault.ui.None? || (!s.vault.dirty && s.vault.file == s.vault.Info())
  {
    WellReachedInv(s, l);
    InvParts(s);
    HolderIs(s, t);
    HolderTells(s, t, op, Exit(ok));
    hide WellReached, VisitLogged, BuiltLogged, PassedLogged, OpsAllowed, ReportLogged;
  }

  /** Close, meeting good answers only, leaves nothing unsaved and has no error of its own by the time it frees mu. */
  lemma GoodCloseSaves(s: State, l: Log, t: Tid, f: bool, c: CloseAt)
    requires WellReached(s, l) && PcOf(s, t) == Crit(CloseManager, ClosingDown(f, c))
    ensures !f && (s.vault.dirty ==> s.vault.ui.None?)
  {
    WellReachedInv(s, l);
    InvParts(s);
    HolderIs(s, t);
    hide WellReached, VisitLogged, BuiltLogged, PassedLogged, OpsAllowed, ReportLogged, Inv;
  }
}
