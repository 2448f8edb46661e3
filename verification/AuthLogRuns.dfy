/** The log of the authentication manager is right in every state of every run. */
module AuthLogRuns {
  import opened Basics
  import opened AuthModel
  import opened AuthInvariant
  import opened AuthSteps
  import opened AuthRuns
  import opened AuthThreads
  import opened AuthTheorems
  import opened AuthProgress
  import opened AuthLog
  import opened AuthVisits

  // ---------- the log is right in every state ----------

  ghost predicate VisitLogged(l: Log, s: State) {
    s.mu.Some? ==> Holder(s).Crit? && VisitAt(l, s, Holder(s).op, Holder(s).at)
  }

  /** Every context was made from a record with its runtime fields. */
  predicate BuiltLogged(l: Log, s: State) {
    l.built.Keys == s.contexts.Keys && forall c :: c in l.built ==> HasFields(l.built[c])
  }

  predicate Preparing(pc: Pc) { pc.WantRead? || Reading(pc) }

  /** Only after a section that ended well does a goroutine go on to prepare a request. */
  predicate PassedLogged(l: Log, s: State) {
    forall t | t in s.threads :: Preparing(s.threads[t]) ==> t in l.passed
  }

  lemma SameAgrees(s: State, s2: State)
    requires s2.hist == s.hist && s2.readOnly == s.readOnly && s2.closed == s.closed && s2.protoCtx == s.protoCtx
    requires s2.vault == s.vault || (s.readOnly && s2.vault == s.vault.(file := s2.vault.file))
    ensures Agrees(s, s2)
  {}

  lemma PollAgrees(s: State, t: Tid, d: bool, ch: Choice)
    requires Refs(s) && PcOf(s, t) == LoginPoll(d)
    ensures var s2 := OutStep(s, t, LoginPoll(d), ch);
      Agrees(s, s2) && s2.mu == s.mu && s2.contexts == s.contexts && !PcOf(s2, t).Crit?
  {}

  lemma StartSame(s: State, t: Tid, ch: Choice)
    requires PcOf(s, t) == Idle
    ensures var s2 := StartStep(s, t, ch);
      && s2.hist == s.hist && s2.readOnly == s.readOnly && s2.closed == s.closed && s2.protoCtx == s.protoCtx
      && (s2.vault == s.vault || (s.readOnly && s2.vault == s.vault.(file := s2.vault.file)))
      && s2.mu == s.mu && s2.contexts == s.contexts && !PcOf(s2, t).Crit?
  {}

  lemma OutSame(s: State, t: Tid, pc: Pc, ch: Choice)
    requires PcOf(s, t) == pc && !pc.Crit? && !pc.WantMu? && !pc.LoginPoll? && !pc.Idle?
    ensures var s2 := OutStep(s, t, pc, ch);
      && s2.hist == s.hist && s2.readOnly == s.readOnly && s2.closed == s.closed && s2.protoCtx == s.protoCtx
      && s2.vault == s.vault && s2.mu == s.mu && s2.contexts.Keys == s.contexts.Keys && !PcOf(s2, t).Crit?
  {}

  lemma OutAgrees(s: State, t: Tid, pc: Pc, ch: Choice)
    requires Refs(s) && PcOf(s, t) == pc && !pc.Crit? && !pc.WantMu?
    ensures var s2 := OutStep(s, t, pc, ch);
      Agrees(s, s2) && s2.mu == s.mu && s2.contexts.Keys == s.contexts.Keys && !PcOf(s2, t).Crit?
  {
    if pc.Idle? {
      OutIs(s, t, pc, ch);
    }
    hide Agrees, Refs, OutStep, StartStep;
    if pc.LoginPoll? {
      PollAgrees(s, t, pc.device, ch);
    } else if pc.Idle? {
      StartSame(s, t, ch);
      SameAgrees(s, StartStep(s, t, ch));
    } else {
      OutSame(s, t, pc, ch);
      SameAgrees(s, OutStep(s, t, pc, ch));
    }
  }

  lemma OutIs(s: State, t: Tid, pc: Pc, ch: Choice)
    requires pc.Idle?
    ensures OutStep(s, t, pc, ch) == StartStep(s, t, ch)
  {}

  lemma FactsAgreeLog(l: Log, l2: Log, s: State, s2: State, op: Op)
    requires Agrees(s, s2) && l2 == l.(passed := l2.passed, closeFailed := l2.closeFailed)
    ensures CalledFor(l2, s2, op) == CalledFor(l, s, op) && SavedFirst(l2, s2) == SavedFirst(l, s)
    ensures FoundFresh(l2, s2, op) == FoundFresh(l, s, op) && RefusedRightly(l2, s2, op) == RefusedRightly(l, s, op)
    ensures Granted(l2, s2, op) == Granted(l, s, op)
  {
    hide TookReply;
  }

  lemma RenewingAgrees(l: Log, l2: Log, s: State, s2: State, op: Op, u: UiRef, r: Reply, b: BuildAt)
    requires Agrees(s, s2) && l2 == l.(passed := l2.passed, closeFailed := l2.closeFailed)
    ensures Renewing(l, s, op, u, r) ==> Renewing(l2, s2, op, u, r)
    ensures BuiltAt(l, s, u, b) ==> BuiltAt(l2, s2, u, b)
  {
    hide TookReply;
  }

  lemma RefreshAgreesLog(l: Log, l2: Log, s: State, s2: State, op: Op, at: Label)
    requires Agrees(s, s2) && l2 == l.(passed := l2.passed, closeFailed := l2.closeFailed)
    requires RefreshVisit(l, s, op, at)
    ensures RefreshVisit(l2, s2, op, at)
  {
    FactsAgreeLog(l, l2, s, s2, op);
    match at
    case Building(u, j, b) => RenewingAgrees(l, l2, s, s2, op, u, j.reply, b);
    case Refreshing(RefreshFields(u, r)) => RenewingAgrees(l, l2, s, s2, op, u, r, BuildCheck);
    case Closing(_, _, AfterReplace(u, j)) => RenewingAgrees(l, l2, s, s2, op, u, j.reply, Replaced);
    case _ =>
    hide CalledFor, SavedFirst, FoundFresh, RefusedRightly, Granted, Renewing, BuiltAt;
  }

  lemma LoadAgreesLog(l: Log, l2: Log, s: State, s2: State, at: Label)
    requires Agrees(s, s2) && l2 == l.(passed := l2.passed, closeFailed := l2.closeFailed) && LoadVisit(l, s, at)
    ensures LoadVisit(l2, s2, at)
  {
    hide TookFile;
  }

  lemma ApplyAgreesLog(l: Log, l2: Log, s: State, s2: State, op: Op, at: Label)
    requires Agrees(s, s2) && l2 == l.(passed := l2.passed, closeFailed := l2.closeFailed)
    requires op.FetchApply? && ApplyVisit(l, s, op, at)
    ensures ApplyVisit(l2, s2, op, at)
  {
    hide TookProfile;
  }

  lemma VisitAgrees(l: Log, l2: Log, s: State, s2: State, op: Op, at: Label)
    requires Agrees(s, s2) && l2 == l.(passed := l2.passed, closeFailed := l2.closeFailed) && VisitAt(l, s, op, at)
    ensures VisitAt(l2, s2, op, at)
  {
    hide RefreshVisit, LoadVisit, ApplyVisit;
    match op
    case EnsureFresh(_) => RefreshAgreesLog(l, l2, s, s2, op, at);
    case ForceRefresh => RefreshAgreesLog(l, l2, s, s2, op, at);
    case Load(_) => LoadAgreesLog(l, l2, s, s2, at);
    case FetchApply(_, _) => ApplyAgreesLog(l, l2, s, s2, op, at);
    case _ =>
  }

  lemma OutNotes(l: Log, s: State, t: Tid, pc: Pc, ch: Choice)
    requires PcOf(s, t) == pc && !pc.Crit? && !pc.WantMu?
    ensures var l2 := Noted(l, s, OutStep(s, t, pc, ch), t, ch);
      l2 == l.(closeFailed := l2.closeFailed)
  {
    hide OutStep;
  }

  lemma InvParts(s: State)
    requires Inv(s)
    ensures Refs(s) && Contexts(s) && Locks(s)
    ensures s.mu.Some? ==> Holder(s).Crit?
    ensures forall t: Tid :: PcOf(s, t).Crit? ==> s.mu == Some(t)
  {}

  // ---------- what the holder of mu does ----------

  /** After a step of the holder: mu is free, or the log is right at the point reached. */
  predicate HolderLogged(l2: Log, s: State, s2: State, t: Tid) {
    s2.mu.None? || (s2.mu == s.mu && PcOf(s2, t).Crit? && VisitAt(l2, s2, PcOf(s2, t).op, PcOf(s2, t).at))
  }

  lemma DoLogs(l: Log, s: State, t: Tid, op: Op, at: Label, ch: Choice)
    requires CanWork(s, op, at) && IsWork(at) && PcOf(s, t) == Crit(op, at) && VisitAt(l, s, op, at)
    ensures var s2 := Do(s, t, op, WorkAt(s, op, at, ch)); HolderLogged(Noted(l, s, s2, t, ch), s, s2, t)
  {
    hide CanWork, VisitAt, WorkAt, NotedAt;
    WorkLogs(l, s, t, op, at, ch);
  }

  lemma StayLogs(l: Log, s: State, t: Tid, op: Op, at: Label, ch: Choice)
    requires PcOf(s, t) == Crit(op, at) && VisitAt(l, s, op, at)
    ensures Noted(l, s, s, t, ch) == l && HolderLogged(l, s, s, t)
  {}

  lemma KeptIs(l: Log, s: State, s2: State, t: Tid, op: Op, at: Label, ch: Choice)
    requires LogKept(l, s, s2, t, op, at, ch) && s2.mu == s.mu
    ensures HolderLogged(Noted(l, s, s2, t, ch), s, s2, t)
  {}

  lemma MuStays(s: State, t: Tid, op: Op, at: Label, ch: Choice)
    requires !IsWork(at) && !at.Exit? && !(at.ClosingDown? && at.c.CloseRelease?)
    ensures LockStep(s, t, op, at, ch).mu == s.mu
  {
    hide AfterClose, BuildFailed, NobodyUses, WriteLockFree;
    match at
    case Building(u, j, b) => BuildingMu(s, t, op, at, ch);
    case Closing(c, begun, k) =>
    case LoggingIn(c, a) => LoginMu(s, t, op, c, a);
    case ClosingDown(f, c) =>
  }

  lemma BuildingMu(s: State, t: Tid, op: Op, at: Label, ch: Choice)
    requires at.Building? && !IsWork(at)
    ensures LockStep(s, t, op, at, ch).mu == s.mu
  {
    hide BuildFailed, WriteLockFree;
    match at.b
    case BuildNew =>
    case ReplaceLock(c) =>
    case ReplaceSwap(c) =>
  }

  lemma LoginMu(s: State, t: Tid, op: Op, c: CtxId, a: LoginAt)
    requires a.LoginLock? || a.LoginAbort? || a.LoginSwap?
    ensures LoginLockStep(s, t, op, c, a).mu == s.mu
  {
    hide WriteLockFree;
  }

  lemma BuildingLogs(l: Log, s: State, t: Tid, op: Op, u: UiRef, j: Job, b: BuildAt, ch: Choice)
    requires CanWork(s, op, Building(u, j, b)) && VisitAt(l, s, op, Building(u, j, b))
    requires !IsWork(Building(u, j, b)) && PcOf(s, t) == Crit(op, Building(u, j, b)) && NamesKnown(l, s)
    requires b.ReplaceSwap? ==> s.protoCtx != Some(b.next)
    ensures var s2 := LockStep(s, t, op, Building(u, j, b), ch); HolderLogged(Noted(l, s, s2, t, ch), s, s2, t)
  {
    MuStays(s, t, op, Building(u, j, b), ch);
    hide CanWork, VisitAt, LogKept, HolderLogged, NamesKnown, Noted, BuildNewStep, ReplaceSwapStep, AcquireStep;
    var at := Building(u, j, b);
    match b
    case BuildNew =>
      BuildNewLogs(l, s, t, op, u, j, ch);
      KeptIs(l, s, BuildNewStep(s, t, op, u, j, ch), t, op, at, ch);
    case ReplaceLock(c) =>
      ReplaceLockLogs(l, s, t, op, u, j, c, ch);
      KeptIs(l, s, AcquireStep(s, t, op, Building(u, j, ReplaceSwap(c))), t, op, at, ch);
    case ReplaceSwap(c) =>
      ReplaceSwapLogs(l, s, t, op, u, j, c, ch);
      KeptIs(l, s, ReplaceSwapStep(s, t, op, u, j, c), t, op, at, ch);
  }

  lemma LoginLockLog(l: Log, s: State, t: Tid, op: Op, c: CtxId, a: LoginAt, ch: Choice)
    requires CanWork(s, op, LoggingIn(c, a)) && VisitAt(l, s, op, LoggingIn(c, a)) && op.Login?
    requires (a.LoginLock? || a.LoginAbort? || a.LoginSwap?) && PcOf(s, t) == Crit(op, LoggingIn(c, a))
    ensures var s2 := LoginLockStep(s, t, op, c, a); HolderLogged(Noted(l, s, s2, t, ch), s, s2, t)
  {
    MuStays(s, t, op, LoggingIn(c, a), ch);
    if a.LoginLock? {
      hide CanWork, VisitAt, LogKept, HolderLogged, Noted, AcquireStep;
      LoginLockTakes(l, s, t, op, c, a.temp, ch);
      KeptIs(l, s, AcquireStep(s, t, op, LoggingIn(c, LoginPublish(a.temp))), t, op, LoggingIn(c, a), ch);
    } else {
      hide CanWork, VisitAt, LogKept, HolderLogged, Noted, LoginLockStep;
      LoginLockLogs(l, s, t, op, c, a, ch);
      KeptIs(l, s, LoginLockStep(s, t, op, c, a), t, op, LoggingIn(c, a), ch);
    }
  }

  lemma CloseDownLogs(l: Log, s: State, t: Tid, op: Op, f: bool, c: CloseAt, ch: Choice)
    requires CanWork(s, op, ClosingDown(f, c)) && VisitAt(l, s, op, ClosingDown(f, c)) && op.CloseManager?
    requires PcOf(s, t) == Crit(op, ClosingDown(f, c))
    ensures var s2 := CloseDownStep(s, t, op, f, c); HolderLogged(Noted(l, s, s2, t, ch), s, s2, t)
  {
    if c.CloseTake? {
      hide CanWork, VisitAt;
      CloseTakeLogs(l, s, t, op, f, ch);
    } else if c.CloseLock? {
      hide CanWork, VisitAt;
      CloseLockLogs(l, s, t, op, f, ch);
    }
  }

  /** What the whole invariant tells of the holder. */
  lemma HolderTells(s: State, t: Tid, op: Op, at: Label)
    requires Inv(s) && PcOf(s, t) == Crit(op, at)
    ensures CanWork(s, op, at) && s.mu == Some(t)
    ensures s.protoCtx.Some? ==> s.protoCtx.value in s.contexts
    ensures at.Building? && at.b.ReplaceSwap? && !s.closed ==> s.protoCtx != Some(at.b.next)
    ensures at.LoggingIn? ==> op.Login?
    ensures at.ClosingDown? ==> op.CloseManager?
    ensures at.Building? ==> !s.closed
  {
    HolderKnows(s, t, op, at);
  }

  lemma LockStepLogs(l: Log, s: State, t: Tid, op: Op, at: Label, ch: Choice)
    requires Inv(s) && PcOf(s, t) == Crit(op, at) && !IsWork(at) && VisitAt(l, s, op, at)
    requires l.built.Keys == s.contexts.Keys
    ensures var s2 := LockStep(s, t, op, at, ch); HolderLogged(Noted(l, s, s2, t, ch), s, s2, t)
  {
    HolderTells(s, t, op, at);
    if at.Closing? {
      MuStays(s, t, op, at, ch);
      hide CanWork, VisitAt, LogKept, HolderLogged, Noted, ClosingStep, Inv;
      ClosingLogs(l, s, t, op, at.ctx, at.begun, at.then_, ch);
      KeptIs(l, s, ClosingStep(s, t, op, at.ctx, at.begun, at.then_), t, op, at, ch);
    } else {
      hide CanWork, VisitAt, Noted, LoginLockStep, CloseDownStep, Inv;
      match at
      case Building(u, j, b) => BuildingLogs(l, s, t, op, u, j, b, ch);
      case LoggingIn(c, a) => LoginLockLog(l, s, t, op, c, a, ch);
      case ClosingDown(f, c) => CloseDownLogs(l, s, t, op, f, c, ch);
      case Exit(ok) =>
    }
  }

  lemma CritLogs(l: Log, s: State, t: Tid, op: Op, at: Label, ch: Choice)
    requires Inv(s) && PcOf(s, t) == Crit(op, at) && VisitAt(l, s, op, at) && l.built.Keys == s.contexts.Keys
    ensures var s2 := CritStep(s, t, op, at, ch); HolderLogged(Noted(l, s, s2, t, ch), s, s2, t)
  {
    HolderTells(s, t, op, at);
    hide Inv, CanWork, VisitAt, HolderLogged, Noted, WorkAt, LockStep, Do;
    if !IsWork(at) {
      LockStepLogs(l, s, t, op, at, ch);
    } else if ReadsClosed(op, at) && s.ctxWriter.Some? {
      StayLogs(l, s, t, op, at, ch);
    } else {
      DoLogs(l, s, t, op, at, ch);
    }
  }

  // ---------- every step keeps the log right ----------

  lemma LockMuLogs(l: Log, s: State, t: Tid, op: Op, ch: Choice)
    requires PcOf(s, t) == WantMu(op) && s.mu.None?
    ensures var s2 := OutStep(s, t, WantMu(op), ch);
      var l2 := Noted(l, s, s2, t, ch);
      s2.mu == Some(t) && PcOf(s2, t) == Crit(op, Entry) && VisitAt(l2, s2, op, Entry)
  {}

  lemma StaysPut(s: State, t: Tid, op: Op, ch: Choice)
    requires PcOf(s, t) == WantMu(op) && s.mu.Some?
    ensures OutStep(s, t, WantMu(op), ch) == s
  {}

  /** A goroutine without mu leaves the holder where it is. */
  lemma HolderStays(s: State, s2: State, t: Tid)
    requires OnlyMoved(s, s2, t) && s2.mu == s.mu && s.mu != Some(t)
    ensures Holder(s2) == Holder(s)
  {}

  lemma NextOut(s: State, t: Tid, ch: Choice)
    ensures !PcOf(s, t).Crit? ==> Next(s, t, ch) == OutStep(s, t, PcOf(s, t), ch)
    ensures PcOf(s, t).Crit? ==> Next(s, t, ch) == CritStep(s, t, PcOf(s, t).op, PcOf(s, t).at, ch)
  {}

  lemma OutLogs(l: Log, s: State, t: Tid, ch: Choice)
    requires Inv(s) && VisitLogged(l, s) && !PcOf(s, t).Crit?
    ensures var s2 := Next(s, t, ch); VisitLogged(Noted(l, s, s2, t, ch), s2)
  {
    NextOut(s, t, ch);
    InvParts(s);
    var pc := PcOf(s, t);
    if pc.WantMu? {
      if s.mu.None? {
        LockMuLogs(l, s, t, pc.op, ch);
      } else {
        StaysPut(s, t, pc.op, ch);
      }
    } else {
      OutAgrees(s, t, pc, ch);
      OutNotes(l, s, t, pc, ch);
      OutAlone(s, t, pc, ch);
      hide OutStep, Agrees, VisitAt, Noted, Inv, OnlyMoved;
      var s2 := OutStep(s, t, pc, ch);
      if s.mu.Some? {
        HolderStays(s, s2, t);
        VisitAgrees(l, Noted(l, s, s2, t, ch), s, s2, Holder(s).op, Holder(s).at);
      }
    }
  }

  lemma HolderIs(s: State, t: Tid)
    requires s.mu == Some(t)
    ensures Holder(s) == PcOf(s, t)
  {}

  lemma VisitStep(l: Log, s: State, t: Tid, ch: Choice)
    requires Inv(s) && VisitLogged(l, s) && l.built.Keys == s.contexts.Keys
    ensures var s2 := Next(s, t, ch); VisitLogged(Noted(l, s, s2, t, ch), s2)
  {
    if PcOf(s, t).Crit? {
      var op, at := PcOf(s, t).op, PcOf(s, t).at;
      HolderTells(s, t, op, at);
      HolderIs(s, t);
      NextOut(s, t, ch);
      CritLogs(l, s, t, op, at, ch);
      if Next(s, t, ch).mu == s.mu {
        HolderIs(Next(s, t, ch), t);
      }
      hide Inv, VisitAt, Noted, Next, CritStep, CanWork;
    } else {
      OutLogs(l, s, t, ch);
    }
  }

  // ---------- contexts, prepares, operations, the report of Close ----------

  lemma NoNewContext(s: State, t: Tid, op: Op, at: Label, ch: Choice)
    requires !(at.Building? && at.b.BuildNew?)
    ensures CritStep(s, t, op, at, ch).contexts.Keys == s.contexts.Keys
  {
    hide WorkAt, AfterExit, AfterClose, BuildFailed, NobodyUses, WriteLockFree, LoginLockStep, CloseDownStep;
    if !IsWork(at) {
      match at
      case Building(u, j, b) => SameContexts(s, t, op, at, ch);
      case Closing(c, begun, k) =>
      case LoggingIn(c, a) => LoginContexts(s, t, op, c, a);
      case ClosingDown(f, c) => CloseDownContexts(s, t, op, f, c);
      case Exit(ok) =>
    }
  }

  lemma LoginContexts(s: State, t: Tid, op: Op, c: CtxId, a: LoginAt)
    requires a.LoginLock? || a.LoginAbort? || a.LoginSwap?
    ensures LoginLockStep(s, t, op, c, a).contexts == s.contexts
  {
    hide WriteLockFree;
  }

  lemma CloseDownContexts(s: State, t: Tid, op: Op, f: bool, c: CloseAt)
    ensures CloseDownStep(s, t, op, f, c).contexts == s.contexts
  {
    hide WriteLockFree;
  }

  lemma SameContexts(s: State, t: Tid, op: Op, at: Label, ch: Choice)
    requires at.Building? && !IsWork(at) && !at.b.BuildNew?
    ensures LockStep(s, t, op, at, ch).contexts.Keys == s.contexts.Keys
  {
    hide WriteLockFree;
    match at.b
    case ReplaceLock(c) =>
    case ReplaceSwap(c) =>
  }

  lemma NewContextNoted(l: Log, s: State, t: Tid, op: Op, u: UiRef, j: Job, ch: Choice)
    requires PcOf(s, t) == Crit(op, Building(u, j, BuildNew)) && u in s.vault.records
    ensures var s2 := BuildNewStep(s, t, op, u, j, ch);
      var l2 := Noted(l, s, s2, t, ch);
      || (s2.contexts == s.contexts && l2.built == l.built)
      || (s2.contexts == s.contexts[ch.name := Ctx(0, 0)] && l2.built == l.built[ch.name := s.vault.records[u]])
  {}

  lemma NewContextLogged(l: Log, s: State, t: Tid, op: Op, u: UiRef, j: Job, ch: Choice)
    requires PcOf(s, t) == Crit(op, Building(u, j, BuildNew)) && BuiltLogged(l, s)
    requires u in s.vault.records && HasFields(s.vault.records[u])
    ensures var s2 := BuildNewStep(s, t, op, u, j, ch); BuiltLogged(Noted(l, s, s2, t, ch), s2)
  {
    NewContextNoted(l, s, t, op, u, j, ch);
    hide HasFields, BuildNewStep, Noted;
  }

  lemma OldContextsLogged(l: Log, s: State, s2: State, t: Tid, ch: Choice)
    requires BuiltLogged(l, s) && s2.contexts.Keys == s.contexts.Keys
    requires !(PcOf(s, t).Crit? && PcOf(s, t).at.Building? && PcOf(s, t).at.b.BuildNew?)
    ensures BuiltLogged(Noted(l, s, s2, t, ch), s2)
  {
    hide HasFields;
  }

  lemma BuildNewIs(s: State, t: Tid, op: Op, u: UiRef, j: Job, ch: Choice)
    ensures CritStep(s, t, op, Building(u, j, BuildNew), ch) == BuildNewStep(s, t, op, u, j, ch)
  {
    hide BuildNewStep;
  }

  /** At BuildNew the record has its fields, whatever the operation. */
  lemma FieldsFirst(l: Log, s: State, op: Op, u: UiRef, j: Job)
    requires VisitAt(l, s, op, Building(u, j, BuildNew)) && CanWork(s, op, Building(u, j, BuildNew))
    ensures u in s.vault.records && HasFields(s.vault.records[u])
  {
    OpOf(s, op, Building(u, j, BuildNew));
    hide CanWork;
  }

  lemma BuiltStep(l: Log, s: State, t: Tid, ch: Choice)
    requires Inv(s) && VisitLogged(l, s) && BuiltLogged(l, s)
    ensures var s2 := Next(s, t, ch); BuiltLogged(Noted(l, s, s2, t, ch), s2)
  {
    NextOut(s, t, ch);
    InvParts(s);
    var pc := PcOf(s, t);
    if pc.Crit? && pc.at.Building? && pc.at.b.BuildNew? {
      HolderTells(s, t, pc.op, pc.at);
      HolderIs(s, t);
      FieldsFirst(l, s, pc.op, pc.at.user, pc.at.job);
      BuildNewIs(s, t, pc.op, pc.at.user, pc.at.job, ch);
      NewContextLogged(l, s, t, pc.op, pc.at.user, pc.at.job, ch);
    } else {
      if pc.Crit? {
        NoNewContext(s, t, pc.op, pc.at, ch);
      } else if pc.WantMu? {
        WantKeeps(s, t, pc.op, ch);
      } else {
        OutAgrees(s, t, pc, ch);
      }
      OldContextsLogged(l, s, Next(s, t, ch), t, ch);
    }
    hide Inv, Next, CritStep, OutStep, BuildNewStep, VisitAt, BuiltLogged, Noted, CanWork, Agrees;
  }

  lemma WantKeeps(s: State, t: Tid, op: Op, ch: Choice)
    ensures OutStep(s, t, WantMu(op), ch).contexts == s.contexts
  {}

  /** Where the goroutine goes from outside mu: to a prepare only from one that had passed. */
  lemma OutPasses(s: State, t: Tid, pc: Pc, ch: Choice)
    requires !pc.Crit? && PcOf(s, t) == pc
    ensures Preparing(PcOf(OutStep(s, t, pc, ch), t)) ==> Preparing(pc)
  {}

  lemma CritPasses(s: State, t: Tid, op: Op, at: Label, ch: Choice)
    requires PcOf(s, t) == Crit(op, at)
    ensures Preparing(PcOf(CritStep(s, t, op, at, ch), t)) ==> at == Exit(true)
  {
    hide WorkAt, AfterClose, BuildFailed, NobodyUses, WriteLockFree;
    if !IsWork(at) {
      match at
      case Building(u, j, b) => BuildingStays(s, t, op, at, ch);
      case Closing(c, begun, k) =>
      case LoggingIn(c, a) =>
      case ClosingDown(f, c) =>
      case Exit(ok) =>
    }
  }

  lemma BuildingStays(s: State, t: Tid, op: Op, at: Label, ch: Choice)
    requires PcOf(s, t) == Crit(op, at) && at.Building? && !IsWork(at)
    ensures PcOf(LockStep(s, t, op, at, ch), t).Crit?
  {
    hide WriteLockFree, BuildFailed;
    match at.b
    case BuildNew =>
    case ReplaceLock(c) =>
    case ReplaceSwap(c) =>
  }

  lemma PassedNoted(l: Log, s: State, s2: State, t: Tid, ch: Choice)
    ensures var l2 := Noted(l, s, s2, t, ch);
      && (forall u: Tid :: u != t ==> (u in l2.passed <==> u in l.passed))
      && (PcOf(s, t).Crit? && PcOf(s, t).at == Exit(true) && PcOf(s2, t) != PcOf(s, t) ==> t in l2.passed)
      && (!PcOf(s, t).Crit? ==> l2.passed == l.passed)
  {}

  lemma PassedStep(l: Log, s: State, t: Tid, ch: Choice)
    requires PassedLogged(l, s)
    ensures var s2 := Next(s, t, ch); PassedLogged(Noted(l, s, s2, t, ch), s2)
  {
    NextOut(s, t, ch);
    var pc, s2 := PcOf(s, t), Next(s, t, ch);
    PassedNoted(l, s, s2, t, ch);
    if pc.Crit? {
      CritPasses(s, t, pc.op, pc.at, ch);
    } else {
      OutPasses(s, t, pc, ch);
    }
    hide Next, CritStep, OutStep, Noted;
    forall u | u in s2.threads && Preparing(s2.threads[u])
      ensures u in Noted(l, s, s2, t, ch).passed
    {
      if u != t {
        OthersStay(s, t, u, ch);
        assert PcOf(s2, u) == PcOf(s, u);
      }
    }
  }

  // ---------- which operations a manager has ----------

  predicate Allowed(readOnly: bool, op: Op) {
    if readOnly then op.Load? || op.CloseManager? else op != Load(true)
  }

  predicate PcAllowed(readOnly: bool, pc: Pc) {
    match pc
    case WantMu(op) => Allowed(readOnly, op)
    case Crit(op, _) => Allowed(readOnly, op)
    case LoginPoll(_) => !readOnly
    case ProfileCall(_) => !readOnly
    case _ => true
  }

  predicate OpsAllowed(s: State) {
    forall t | t in s.threads :: PcAllowed(s.readOnly, s.threads[t])
  }

  lemma OutAllowed(s: State, t: Tid, pc: Pc, ch: Choice)
    requires !pc.Crit? && PcOf(s, t) == pc && PcAllowed(s.readOnly, pc)
    ensures var s2 := OutStep(s, t, pc, ch); s2.readOnly == s.readOnly && PcAllowed(s.readOnly, PcOf(s2, t))
  {}

  lemma CritAllowed(s: State, t: Tid, op: Op, at: Label, ch: Choice)
    requires PcOf(s, t) == Crit(op, at) && Allowed(s.readOnly, op)
    ensures var s2 := CritStep(s, t, op, at, ch); s2.readOnly == s.readOnly && PcAllowed(s.readOnly, PcOf(s2, t))
  {
    hide WorkAt, AfterClose, BuildFailed, NobodyUses, WriteLockFree, LoginLockStep, CloseDownStep;
    if !IsWork(at) {
      match at
      case Building(u, j, b) => BuildingAllowed(s, t, op, at, ch);
      case Closing(c, begun, k) =>
      case LoggingIn(c, a) => LoginAllowed(s, t, op, c, a);
      case ClosingDown(f, c) => CloseDownAllowed(s, t, op, f, c);
      case Exit(ok) =>
    }
  }

  lemma BuildingAllowed(s: State, t: Tid, op: Op, at: Label, ch: Choice)
    requires PcOf(s, t) == Crit(op, at) && at.Building? && !IsWork(at)
    ensures var s2 := LockStep(s, t, op, at, ch);
      s2.readOnly == s.readOnly && PcOf(s2, t).Crit? && PcOf(s2, t).op == op
  {
    hide WriteLockFree, BuildFailed;
    match at.b
    case BuildNew =>
    case ReplaceLock(c) =>
    case ReplaceSwap(c) =>
  }

  lemma LoginAllowed(s: State, t: Tid, op: Op, c: CtxId, a: LoginAt)
    requires PcOf(s, t) == Crit(op, LoggingIn(c, a)) && (a.LoginLock? || a.LoginAbort? || a.LoginSwap?)
    ensures var s2 := LoginLockStep(s, t, op, c, a);
      s2.readOnly == s.readOnly && PcOf(s2, t).Crit? && PcOf(s2, t).op == op
  {
    hide WriteLockFree;
  }

  lemma CloseDownAllowed(s: State, t: Tid, op: Op, f: bool, c: CloseAt)
    requires PcOf(s, t) == Crit(op, ClosingDown(f, c))
    ensures var s2 := CloseDownStep(s, t, op, f, c);
      s2.readOnly == s.readOnly && (PcOf(s2, t).CloseCurrent? || (PcOf(s2, t).Crit? && PcOf(s2, t).op == op))
  {
    hide WriteLockFree;
  }

  lemma AllowedStep(s: State, t: Tid, ch: Choice)
    requires OpsAllowed(s)
    ensures OpsAllowed(Next(s, t, ch)) && Next(s, t, ch).readOnly == s.readOnly
  {
    NextOut(s, t, ch);
    var pc, s2 := PcOf(s, t), Next(s, t, ch);
    assert PcAllowed(s.readOnly, pc);
    if pc.Crit? {
      CritAllowed(s, t, pc.op, pc.at, ch);
    } else {
      OutAllowed(s, t, pc, ch);
    }
    hide Next, CritStep, OutStep, PcAllowed;
    forall u | u in s2.threads
      ensures PcAllowed(s2.readOnly, s2.threads[u])
    {
      if u != t {
        OthersStay(s, t, u, ch);
        assert PcOf(s2, u) == PcOf(s, u);
        IdleAllowed(s.readOnly);
      }
    }
  }

  lemma IdleAllowed(readOnly: bool)
    ensures PcAllowed(readOnly, Idle)
  {}

  // ---------- what Close reports ----------

  predicate Failed(s: State) { s.once == Done(true) || (Closer(s).CloseCurrent? && Closer(s).failed) }

  /** Close fails only if something is left unsaved or a context's Close failed, and does in the latter case. */
  predicate ReportLogged(l: Log, s: State) {
    (Failed(s) ==> s.vault.dirty || l.closeFailed) && (l.closeFailed ==> Failed(s))
  }

  /** Before Close has taken the context it reports nothing. */
  lemma NotYet(s: State)
    requires Inv(s) && !s.closed
    ensures !s.once.Done? && !Closer(s).CloseCurrent?
  {}

  lemma CloseFailedSame(l: Log, s: State, s2: State, t: Tid, ch: Choice)
    requires !PcOf(s, t).CloseCurrent?
    ensures Noted(l, s, s2, t, ch).closeFailed == l.closeFailed
  {}

  /** Once the manager is closed the dirty flag stays. */
  lemma DirtyStays(s: State, t: Tid, ch: Choice)
    requires Inv(s) && s.closed
    ensures Next(s, t, ch).vault.dirty == s.vault.dirty
  {
    NextOut(s, t, ch);
    InvParts(s);
    var pc := PcOf(s, t);
    if pc.Crit? {
      HolderIs(s, t);
      HolderTells(s, t, pc.op, pc.at);
      ClosedPoints(s, pc.op, pc.at);
      ClosedWork(s, t, pc.op, pc.at, ch);
    } else if pc.WantMu? {
      WantVault(s, t, pc.op, ch);
    } else {
      OutAgrees(s, t, pc, ch);
    }
    hide Inv, Next, CritStep, OutStep, CanWork;
  }

  lemma WantVault(s: State, t: Tid, op: Op, ch: Choice)
    ensures OutStep(s, t, WantMu(op), ch).vault == s.vault
  {}

  lemma ClosedWork(s: State, t: Tid, op: Op, at: Label, ch: Choice)
    requires s.closed && (at.Entry? || at.Exit? || Releasing(at))
    ensures CritStep(s, t, op, at, ch).vault.dirty == s.vault.dirty
  {
    hide AfterExit;
  }

  lemma Reports(l: Log, s: State, t: Tid, c: Option<CtxId>, begun: bool, f: bool, ch: Choice)
    requires PcOf(s, t) == CloseCurrent(c, begun, f) && s.once == Running(t)
    requires (f ==> s.vault.dirty || l.closeFailed) && (l.closeFailed ==> f)
    ensures var s2 := OutStep(s, t, CloseCurrent(c, begun, f), ch); ReportLogged(Noted(l, s, s2, t, ch), s2)
  {
    hide NobodyUses;
  }

  /** Only a step out of CloseCurrent ends Close, and only the release of mu leads there. */
  lemma OutOnce(s: State, t: Tid, pc: Pc, ch: Choice)
    requires !pc.Crit? && !pc.CloseCurrent? && PcOf(s, t) == pc
    ensures var s2 := OutStep(s, t, pc, ch);
      && (s2.once == s.once || (s2.once == Running(t) && s.once.NotRun?))
      && !PcOf(s2, t).CloseCurrent?
  {}

  lemma CritOnce(s: State, t: Tid, op: Op, at: Label, ch: Choice)
    requires PcOf(s, t) == Crit(op, at) && !Releasing(at)
    ensures var s2 := CritStep(s, t, op, at, ch); s2.once == s.once && !PcOf(s2, t).CloseCurrent?
  {
    hide WorkAt, AfterClose, BuildFailed, NobodyUses, WriteLockFree, LoginLockStep;
    if !IsWork(at) {
      match at
      case Building(u, j, b) => BuildingOnce(s, t, op, at, ch);
      case Closing(c, begun, k) =>
      case LoggingIn(c, a) => LoginOnce(s, t, op, c, a);
      case ClosingDown(f, c) =>
      case Exit(ok) =>
    }
  }

  lemma BuildingOnce(s: State, t: Tid, op: Op, at: Label, ch: Choice)
    requires PcOf(s, t) == Crit(op, at) && at.Building? && !IsWork(at)
    ensures LockStep(s, t, op, at, ch).once == s.once
    ensures PcOf(LockStep(s, t, op, at, ch), t).Crit?
  {
    hide WriteLockFree, BuildFailed;
    match at.b
    case BuildNew =>
    case ReplaceLock(c) =>
    case ReplaceSwap(c) =>
  }

  lemma LoginOnce(s: State, t: Tid, op: Op, c: CtxId, a: LoginAt)
    requires PcOf(s, t) == Crit(op, LoggingIn(c, a)) && (a.LoginLock? || a.LoginAbort? || a.LoginSwap?)
    ensures LoginLockStep(s, t, op, c, a).once == s.once && PcOf(LoginLockStep(s, t, op, c, a), t).Crit?
  {
    hide WriteLockFree;
  }

  lemma ReleaseReports(l: Log, s: State, t: Tid, op: Op, f: bool, c: Option<CtxId>, ch: Choice)
    requires PcOf(s, t) == Crit(op, ClosingDown(f, CloseRelease(c))) && s.once == Running(t)
    requires (f ==> s.vault.dirty) && !l.closeFailed
    ensures var s2 := CritStep(s, t, op, ClosingDown(f, CloseRelease(c)), ch); ReportLogged(Noted(l, s, s2, t, ch), s2)
  {}

  lemma CloserTells(s: State, t: Tid)
    requires Inv(s)
    ensures PcOf(s, t).CloseCurrent? ==> s.once == Running(t)
    ensures PcOf(s, t).Crit? && Releasing(PcOf(s, t).at) ==> s.once == Running(t) && PcOf(s, t).op.CloseManager?
    ensures s.once == Done(true) || Closer(s).CloseCurrent? ==> s.closed
  {}

  lemma StillReports(l: Log, l2: Log, s: State, s2: State, t: Tid)
    requires ReportLogged(l, s) && l2.closeFailed == l.closeFailed
    requires s2.once == s.once || (s2.once == Running(t) && s.once.NotRun?)
    requires !PcOf(s2, t).CloseCurrent? && !PcOf(s, t).CloseCurrent?
    requires forall u: Tid :: u != t ==> PcOf(s2, u) == PcOf(s, u)
    requires s.once == Done(true) || Closer(s).CloseCurrent? ==> s2.vault.dirty == s.vault.dirty
    ensures ReportLogged(l2, s2)
  {}

  lemma ReportStep(l: Log, s: State, t: Tid, ch: Choice)
    requires Inv(s) && VisitLogged(l, s) && ReportLogged(l, s)
    ensures var s2 := Next(s, t, ch); ReportLogged(Noted(l, s, s2, t, ch), s2)
  {
    NextOut(s, t, ch);
    CloserTells(s, t);
    var pc, s2 := PcOf(s, t), Next(s, t, ch);
    if pc.CloseCurrent? {
      Reports(l, s, t, pc.current, pc.begun, pc.failed, ch);
    } else if pc.Crit? && Releasing(pc.at) {
      InvParts(s);
      HolderIs(s, t);
      ReleaseReports(l, s, t, pc.op, pc.at.failed, pc.at.c.current, ch);
    } else {
      if pc.Crit? {
        CritOnce(s, t, pc.op, pc.at, ch);
      } else {
        OutOnce(s, t, pc, ch);
      }
      if s.closed {
        DirtyStays(s, t, ch);
      }
      CloseFailedSame(l, s, s2, t, ch);
      forall u: Tid | u != t
        ensures PcOf(s2, u) == PcOf(s, u)
      {
        OthersStay(s, t, u, ch);
      }
      StillReports(l, Noted(l, s, s2, t, ch), s, s2, t);
    }
    hide Inv, Next, CritStep, OutStep, Noted, ReportLogged;
  }

  // ---------- every run ----------

  ghost predicate LogInv(l: Log, s: State) {
    VisitLogged(l, s) && BuiltLogged(l, s) && PassedLogged(l, s) && OpsAllowed(s) && ReportLogged(l, s)
  }

  lemma LogInvInit(readOnly: bool, file: Option<UserInfo>)
    ensures LogInv(BLANK, Init(readOnly, file))
  {}

  lemma LogStep(l: Log, s: State, t: Tid, ch: Choice)
    requires Inv(s) && LogInv(l, s)
    ensures var s2 := Next(s, t, ch); LogInv(Noted(l, s, s2, t, ch), s2)
  {
    hide Inv, VisitLogged, PassedLogged, OpsAllowed, ReportLogged, Next, Noted;
    VisitStep(l, s, t, ch);
    BuiltStep(l, s, t, ch);
    PassedStep(l, s, t, ch);
    AllowedStep(s, t, ch);
    ReportStep(l, s, t, ch);
  }

  lemma {:induction false} RunLogs(l: Log, s: State, moves: Schedule)
    requires Inv(s) && LogInv(l, s)
    ensures Inv(Run(s, moves)) && LogInv(LogOf(l, s, moves), Run(s, moves))
    decreases |moves|
  {
    hide Inv, LogInv, Next, Noted;
    if moves != [] {
      var (t, ch) := moves[0];
      NextKeeps(s, t, ch);
      LogStep(l, s, t, ch);
      RunLogs(Noted(l, s, Next(s, t, ch), t, ch), Next(s, t, ch), moves[1..]);
    }
  }

  /** A state some run leads to, and the log of that run. */
  ghost predicate Logged(s: State, l: Log) {
    exists readOnly: bool, file: Option<UserInfo>, moves: Schedule ::
      s == Run(Init(readOnly, file), moves) && l == LogOf(BLANK, Init(readOnly, file), moves)
  }

  lemma LoggedInv(s: State, l: Log)
    requires Logged(s, l)
    ensures Inv(s) && LogInv(l, s)
  {
    hide Inv, LogInv;
    var readOnly: bool, file: Option<UserInfo>, moves: Schedule :|
      s == Run(Init(readOnly, file), moves) && l == LogOf(BLANK, Init(readOnly, file), moves);
    InvInit(readOnly, file);
    LogInvInit(readOnly, file);
    RunLogs(BLANK, Init(readOnly, file), moves);
  }

  /** Every reachable state has a log. */
  lemma ReachableLogged(s: State)
    requires Reachable(s)
    ensures exists l :: Logged(s, l)
  {
    hide Run, LogOf, Init;
    var readOnly: bool, file: Option<UserInfo>, moves: Schedule :| s == Run(Init(readOnly, file), moves);
    assert Logged(s, LogOf(BLANK, Init(readOnly, file), moves));
  }
}
