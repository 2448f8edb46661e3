/** Every step keeps the log right. */
module AuthVisits {
  import opened Basics
  import opened AuthModel
  import opened AuthInvariant
  import opened AuthSteps
  import opened AuthLog

  /** What the log says after a piece of work. */
  predicate LogFits(l: Log, s: State, t: Tid, op: Op, at: Label, w: Work, ch: Choice) {
    var l2 := if w.next == at then l else NotedAt(l, s, at, t, ch, Crit(op, w.next));
    VisitAt(l2, Do(s, t, op, w), op, w.next)
  }

  // ---------- refresh ----------

  lemma RefreshEntryLogs(l: Log, s: State, t: Tid, op: Op, ch: Choice)
    requires CanWork(s, op, Entry) && RefreshOp(op) && VisitAt(l, s, op, Entry)
    ensures LogFits(l, s, t, op, Entry, EntryWork(s, op, ch), ch)
  {}

  lemma DecideLogs(l: Log, s: State, t: Tid, op: Op, ch: Choice)
    requires CanWork(s, op, Refreshing(Decide)) && RefreshOp(op) && VisitAt(l, s, op, Refreshing(Decide))
    ensures LogFits(l, s, t, op, Refreshing(Decide), RefreshWork(s, op, Decide, ch), ch)
  {}

  lemma RefreshCheckLogs(l: Log, s: State, t: Tid, op: Op, ch: Choice)
    requires CanWork(s, op, Refreshing(RefreshCheck)) && RefreshOp(op) && VisitAt(l, s, op, Refreshing(RefreshCheck))
    ensures LogFits(l, s, t, op, Refreshing(RefreshCheck), RefreshWork(s, op, RefreshCheck, ch), ch)
  {}

  lemma RefreshRefusedLogs(l: Log, s: State, t: Tid, op: Op, ch: Choice)
    requires CanWork(s, op, Refreshing(RefreshCall)) && RefreshOp(op) && VisitAt(l, s, op, Refreshing(RefreshCall))
    requires !ch.ok || ch.reply.token == "" || ch.name in s.vault.records
    ensures LogFits(l, s, t, op, Refreshing(RefreshCall), RefreshWork(s, op, RefreshCall, ch), ch)
  {
    hide TookReply, TookFields, BuiltAt, Granted;
  }

  lemma RefreshAcceptedLogs(l: Log, s: State, t: Tid, op: Op, ch: Choice)
    requires CanWork(s, op, Refreshing(RefreshCall)) && RefreshOp(op) && VisitAt(l, s, op, Refreshing(RefreshCall))
    requires ch.ok && ch.reply.token != "" && ch.name !in s.vault.records
    ensures LogFits(l, s, t, op, Refreshing(RefreshCall), RefreshWork(s, op, RefreshCall, ch), ch)
  {
    hide TookFields, BuiltAt, Granted, RefusedRightly, FoundFresh;
  }

  lemma RefreshCallLogs(l: Log, s: State, t: Tid, op: Op, ch: Choice)
    requires CanWork(s, op, Refreshing(RefreshCall)) && RefreshOp(op) && VisitAt(l, s, op, Refreshing(RefreshCall))
    ensures LogFits(l, s, t, op, Refreshing(RefreshCall), RefreshWork(s, op, RefreshCall, ch), ch)
  {
    hide LogFits, VisitAt, CanWork, RefreshWork, RefreshOp;
    if !ch.ok || ch.reply.token == "" || ch.name in s.vault.records {
      RefreshRefusedLogs(l, s, t, op, ch);
    } else {
      RefreshAcceptedLogs(l, s, t, op, ch);
    }
  }

  lemma RefreshFieldsLogs(l: Log, s: State, t: Tid, op: Op, u: UiRef, r: Reply, ch: Choice)
    requires CanWork(s, op, Refreshing(RefreshFields(u, r))) && RefreshOp(op)
    requires VisitAt(l, s, op, Refreshing(RefreshFields(u, r)))
    ensures LogFits(l, s, t, op, Refreshing(RefreshFields(u, r)), RefreshWork(s, op, RefreshFields(u, r), ch), ch)
  {}

  lemma PreserveLogs(l: Log, s: State, t: Tid, op: Op, r: Reply, ch: Choice)
    requires CanWork(s, op, Refreshing(Preserve(r))) && RefreshOp(op) && VisitAt(l, s, op, Refreshing(Preserve(r)))
    ensures LogFits(l, s, t, op, Refreshing(Preserve(r)), PreserveWork(s, r), ch)
  {}

  lemma RefreshBuildChecks(l: Log, s: State, t: Tid, op: Op, u: UiRef, j: Job, ch: Choice)
    requires CanWork(s, op, Building(u, j, BuildCheck)) && RefreshOp(op)
    requires VisitAt(l, s, op, Building(u, j, BuildCheck))
    ensures LogFits(l, s, t, op, Building(u, j, BuildCheck), BuildWork(s, op, u, j, BuildCheck, ch), ch)
  {
    hide TookReply, ReplacedInv, Candidate;
  }

  lemma RefreshBuildFields(l: Log, s: State, t: Tid, op: Op, u: UiRef, j: Job, ch: Choice)
    requires CanWork(s, op, Building(u, j, BuildFields)) && RefreshOp(op)
    requires VisitAt(l, s, op, Building(u, j, BuildFields))
    ensures LogFits(l, s, t, op, Building(u, j, BuildFields), BuildWork(s, op, u, j, BuildFields, ch), ch)
  {
    hide ReplacedInv, Candidate;
  }

  lemma RefreshBuildReplaced(l: Log, s: State, t: Tid, op: Op, u: UiRef, j: Job, ch: Choice)
    requires CanWork(s, op, Building(u, j, Replaced)) && RefreshOp(op) && VisitAt(l, s, op, Building(u, j, Replaced))
    ensures LogFits(l, s, t, op, Building(u, j, Replaced), BuildWork(s, op, u, j, Replaced, ch), ch)
  {
    hide TookReply, TookFields, JobInv;
  }

  lemma RefreshBuildLogs(l: Log, s: State, t: Tid, op: Op, u: UiRef, j: Job, b: BuildAt, ch: Choice)
    requires b.BuildCheck? || b.BuildFields? || b.Replaced?
    requires CanWork(s, op, Building(u, j, b)) && RefreshOp(op) && VisitAt(l, s, op, Building(u, j, b))
    ensures LogFits(l, s, t, op, Building(u, j, b), BuildWork(s, op, u, j, b, ch), ch)
  {
    hide LogFits, VisitAt, CanWork, BuildWork, RefreshOp;
    if b.BuildCheck? {
      RefreshBuildChecks(l, s, t, op, u, j, ch);
    } else if b.BuildFields? {
      RefreshBuildFields(l, s, t, op, u, j, ch);
    } else {
      RefreshBuildReplaced(l, s, t, op, u, j, ch);
    }
  }

  lemma PendingLogs(l: Log, s: State, t: Tid, op: Op, a: SaveAt, ch: Choice)
    requires CanWork(s, op, Saving(Pending, a)) && RefreshOp(op) && VisitAt(l, s, op, Saving(Pending, a))
    ensures LogFits(l, s, t, op, Saving(Pending, a), SaveWork(s, Pending, a, ch), ch)
  {
    hide TookReply, BuiltFromUser;
  }

  lemma RefreshedLogs(l: Log, s: State, t: Tid, op: Op, a: SaveAt, ch: Choice)
    requires CanWork(s, op, Saving(AfterRefresh, a)) && RefreshOp(op) && VisitAt(l, s, op, Saving(AfterRefresh, a))
    ensures LogFits(l, s, t, op, Saving(AfterRefresh, a), SaveWork(s, AfterRefresh, a, ch), ch)
  {
    SaveLeaves(s, t, op, AfterRefresh, a, ch);
    GrantedStays(l, s, t, op, SaveWork(s, AfterRefresh, a, ch), if a.SaveCheck? then {AfterRefresh} else {});
    hide Granted, LabelInv;
  }

  /** A save leaves the user, the context and the notes of the entry alone. */
  lemma SaveLeaves(s: State, t: Tid, op: Op, k: SaveFor, a: SaveAt, ch: Choice)
    ensures var w := SaveWork(s, k, a, ch);
      w.vault.ui == s.vault.ui && w.vault.records == s.vault.records && w.hist.entry == s.hist.entry
  {
    hide AfterSave;
  }

  lemma GrantedStays(l: Log, s: State, t: Tid, op: Op, w: Work, more: set<SaveFor>)
    requires w.vault.ui == s.vault.ui && w.vault.records == s.vault.records && w.hist.entry == s.hist.entry
    requires Granted(l, s, op)
    ensures Granted(l, Do(s, t, op, w), op) && Granted(l.(saves := l.saves + more), Do(s, t, op, w), op)
  {
    hide TookReply, HasFields;
  }

  lemma RotationLogs(l: Log, s: State, t: Tid, op: Op, a: SaveAt, ch: Choice)
    requires CanWork(s, op, Saving(Rotation, a)) && RefreshOp(op) && VisitAt(l, s, op, Saving(Rotation, a))
    ensures LogFits(l, s, t, op, Saving(Rotation, a), SaveWork(s, Rotation, a, ch), ch)
  {
    hide TookReply, BuiltFromUser;
  }

  // ---------- load ----------

  lemma LoadEntryLogs(l: Log, s: State, t: Tid, op: Op, ch: Choice)
    requires CanWork(s, op, Entry) && op.Load? && VisitAt(l, s, op, Entry)
    ensures LogFits(l, s, t, op, Entry, EntryWork(s, op, ch), ch)
  {}

  lemma LoadReadLogs(l: Log, s: State, t: Tid, op: Op, ch: Choice)
    requires CanWork(s, op, LoadRead) && op.Load? && VisitAt(l, s, op, LoadRead)
    ensures LogFits(l, s, t, op, LoadRead, LoadWork(s, ch), ch)
  {}

  lemma LoadBuildLogs(l: Log, s: State, t: Tid, op: Op, u: UiRef, j: Job, b: BuildAt, ch: Choice)
    requires b.BuildCheck? || b.BuildFields? || b.Replaced?
    requires CanWork(s, op, Building(u, j, b)) && op.Load? && VisitAt(l, s, op, Building(u, j, b))
    ensures LogFits(l, s, t, op, Building(u, j, b), BuildWork(s, op, u, j, b, ch), ch)
  {}

  // ---------- login and profile ----------

  lemma LoginLogs(l: Log, s: State, t: Tid, op: Op, at: Label, ch: Choice)
    requires IsWork(at) && CanWork(s, op, at) && op.Login? && VisitAt(l, s, op, at)
    ensures LogFits(l, s, t, op, at, WorkAt(s, op, at, ch), ch)
  {}

  lemma FetchStartLogs(l: Log, s: State, t: Tid, op: Op, at: Label, ch: Choice)
    requires IsWork(at) && CanWork(s, op, at) && op.FetchStart? && VisitAt(l, s, op, at)
    ensures LogFits(l, s, t, op, at, WorkAt(s, op, at, ch), ch)
  {}

  lemma ApplyEntryLogs(l: Log, s: State, t: Tid, op: Op, ch: Choice)
    requires CanWork(s, op, Entry) && op.FetchApply? && VisitAt(l, s, op, Entry)
    ensures LogFits(l, s, t, op, Entry, EntryWork(s, op, ch), ch)
  {}

  lemma ApplyBuildLogs(l: Log, s: State, t: Tid, op: Op, u: UiRef, j: Job, b: BuildAt, ch: Choice)
    requires b.BuildCheck? || b.BuildFields? || b.Replaced?
    requires CanWork(s, op, Building(u, j, b)) && op.FetchApply? && VisitAt(l, s, op, Building(u, j, b))
    ensures LogFits(l, s, t, op, Building(u, j, b), BuildWork(s, op, u, j, b, ch), ch)
  {}

  lemma ApplySaveLogs(l: Log, s: State, t: Tid, op: Op, k: SaveFor, a: SaveAt, ch: Choice)
    requires CanWork(s, op, Saving(k, a)) && op.FetchApply? && VisitAt(l, s, op, Saving(k, a))
    ensures LogFits(l, s, t, op, Saving(k, a), SaveWork(s, k, a, ch), ch)
  {}

  lemma CloseLogs(l: Log, s: State, t: Tid, op: Op, at: Label, ch: Choice)
    requires IsWork(at) && CanWork(s, op, at) && op.CloseManager? && VisitAt(l, s, op, at)
    ensures LogFits(l, s, t, op, at, WorkAt(s, op, at, ch), ch)
  {}

  // ---------- all of them ----------

  lemma BuildLogs(l: Log, s: State, t: Tid, op: Op, u: UiRef, j: Job, b: BuildAt, ch: Choice)
    requires b.BuildCheck? || b.BuildFields? || b.Replaced?
    requires CanWork(s, op, Building(u, j, b)) && VisitAt(l, s, op, Building(u, j, b))
    ensures LogFits(l, s, t, op, Building(u, j, b), BuildWork(s, op, u, j, b, ch), ch)
  {
    OpOf(s, op, Building(u, j, b));
    hide LogFits, VisitAt, CanWork, BuildWork, LabelInv;
    match op
    case EnsureFresh(_) => RefreshBuildLogs(l, s, t, op, u, j, b, ch);
    case ForceRefresh => RefreshBuildLogs(l, s, t, op, u, j, b, ch);
    case Load(_) => LoadBuildLogs(l, s, t, op, u, j, b, ch);
    case Login(_, _) => LoginLogs(l, s, t, op, Building(u, j, b), ch);
    case FetchApply(_, _) => ApplyBuildLogs(l, s, t, op, u, j, b, ch);
  }

  /** Which operations have which points. */
  lemma OpOf(s: State, op: Op, at: Label)
    requires CanWork(s, op, at)
    ensures at.Building? ==> !op.FetchStart? && !op.CloseManager?
    ensures at.Saving? ==> RefreshOp(op) || op.FetchApply? || op.CloseManager?
    ensures at.Saving? && RefreshOp(op) ==> at.save in {Pending, AfterRefresh, Rotation}
    ensures at.Refreshing? ==> RefreshOp(op)
    ensures at.LoadRead? ==> op.Load?
    ensures at.LoggingIn? || at.Discarding? ==> op.Login?
  {}

  lemma SaveLogs(l: Log, s: State, t: Tid, op: Op, k: SaveFor, a: SaveAt, ch: Choice)
    requires CanWork(s, op, Saving(k, a)) && VisitAt(l, s, op, Saving(k, a))
    ensures LogFits(l, s, t, op, Saving(k, a), SaveWork(s, k, a, ch), ch)
  {
    OpOf(s, op, Saving(k, a));
    hide LogFits, VisitAt, CanWork, SaveWork;
    if op.FetchApply? {
      ApplySaveLogs(l, s, t, op, k, a, ch);
    } else if op.CloseManager? {
      CloseLogs(l, s, t, op, Saving(k, a), ch);
    } else if k.Pending? {
      PendingLogs(l, s, t, op, a, ch);
    } else if k.AfterRefresh? {
      RefreshedLogs(l, s, t, op, a, ch);
    } else {
      RotationLogs(l, s, t, op, a, ch);
    }
  }

  lemma EntryLogs(l: Log, s: State, t: Tid, op: Op, ch: Choice)
    requires CanWork(s, op, Entry) && VisitAt(l, s, op, Entry)
    ensures LogFits(l, s, t, op, Entry, EntryWork(s, op, ch), ch)
  {
    EntryIs(s, op, ch);
    hide LogFits, VisitAt, CanWork, EntryWork, WorkAt;
    if RefreshOp(op) {
      RefreshEntryLogs(l, s, t, op, ch);
    } else if op.Load? {
      LoadEntryLogs(l, s, t, op, ch);
    } else if op.Login? {
      LoginLogs(l, s, t, op, Entry, ch);
    } else if op.FetchStart? {
      FetchStartLogs(l, s, t, op, Entry, ch);
    } else if op.FetchApply? {
      ApplyEntryLogs(l, s, t, op, ch);
    } else {
      CloseLogs(l, s, t, op, Entry, ch);
    }
  }

  lemma EntryIs(s: State, op: Op, ch: Choice)
    ensures WorkAt(s, op, Entry, ch) == EntryWork(s, op, ch)
  {
    hide EntryWork;
  }

  lemma RefreshLogs(l: Log, s: State, t: Tid, op: Op, r: RefreshAt, ch: Choice)
    requires CanWork(s, op, Refreshing(r)) && VisitAt(l, s, op, Refreshing(r))
    ensures LogFits(l, s, t, op, Refreshing(r), RefreshWork(s, op, r, ch), ch)
  {
    OpOf(s, op, Refreshing(r));
    PreserveIs(s, op, r, ch);
    hide LogFits, VisitAt, CanWork, RefreshWork, PreserveWork;
    match r
    case Decide => DecideLogs(l, s, t, op, ch);
    case RefreshCheck => RefreshCheckLogs(l, s, t, op, ch);
    case RefreshCall => RefreshCallLogs(l, s, t, op, ch);
    case RefreshFields(u, reply) => RefreshFieldsLogs(l, s, t, op, u, reply, ch);
    case Preserve(reply) => PreserveLogs(l, s, t, op, reply, ch);
  }

  lemma PreserveIs(s: State, op: Op, r: RefreshAt, ch: Choice)
    ensures r.Preserve? ==> RefreshWork(s, op, r, ch) == PreserveWork(s, r.reply)
  {}

  lemma WorkLogs(l: Log, s: State, t: Tid, op: Op, at: Label, ch: Choice)
    requires IsWork(at) && CanWork(s, op, at) && VisitAt(l, s, op, at)
    ensures LogFits(l, s, t, op, at, WorkAt(s, op, at, ch), ch)
  {
    OpOf(s, op, at);
    hide LogFits, VisitAt, CanWork, EntryWork, LoadWork, RefreshWork, BuildWork, SaveWork;
    match at
    case Entry => EntryLogs(l, s, t, op, ch);
    case LoadRead => LoadReadLogs(l, s, t, op, ch);
    case Refreshing(r) => RefreshLogs(l, s, t, op, r, ch);
    case Building(u, j, b) => BuildLogs(l, s, t, op, u, j, b, ch);
    case Saving(k, a) => SaveLogs(l, s, t, op, k, a, ch);
    case LoggingIn(_, _) => LoginLogs(l, s, t, op, at, ch);
    case Discarding(_) => LoginLogs(l, s, t, op, at, ch);
  }

  // ---------- steps that take locks or touch contexts ----------

  /** What the log says after a step of the holder of mu that keeps it. */
  predicate LogKept(l: Log, s: State, s2: State, t: Tid, op: Op, at: Label, ch: Choice) {
    PcOf(s2, t).Crit? && PcOf(s2, t).op == op
    && VisitAt(Noted(l, s, s2, t, ch), s2, op, PcOf(s2, t).at)
  }

  /** A new context has a name of its own. */
  predicate NamesKnown(l: Log, s: State) {
    l.built.Keys <= s.contexts.Keys && (s.protoCtx.Some? ==> s.protoCtx.value in s.contexts)
  }

  lemma RefreshNewFails(l: Log, s: State, t: Tid, op: Op, u: UiRef, j: Job, ch: Choice)
    requires CanWork(s, op, Building(u, j, BuildNew)) && VisitAt(l, s, op, Building(u, j, BuildNew))
    requires PcOf(s, t) == Crit(op, Building(u, j, BuildNew)) && NamesKnown(l, s) && RefreshOp(op)
    requires !ch.ok || !ch.due || ch.name in s.contexts
    ensures LogKept(l, s, BuildNewStep(s, t, op, u, j, ch), t, op, Building(u, j, BuildNew), ch)
  {
    hide TookReply, HasFields, ReplacedInv, Candidate, Granted, FoundFresh, RefusedRightly;
  }

  lemma RefreshNewMade(l: Log, s: State, t: Tid, op: Op, u: UiRef, j: Job, ch: Choice)
    requires CanWork(s, op, Building(u, j, BuildNew)) && VisitAt(l, s, op, Building(u, j, BuildNew))
    requires PcOf(s, t) == Crit(op, Building(u, j, BuildNew)) && NamesKnown(l, s) && RefreshOp(op)
    requires ch.ok && ch.due && ch.name !in s.contexts
    ensures LogKept(l, s, BuildNewStep(s, t, op, u, j, ch), t, op, Building(u, j, BuildNew), ch)
  {
    hide TookReply, HasFields, ReplacedInv, Candidate, Granted, FoundFresh, RefusedRightly;
  }

  lemma RefreshNewLogs(l: Log, s: State, t: Tid, op: Op, u: UiRef, j: Job, ch: Choice)
    requires CanWork(s, op, Building(u, j, BuildNew)) && VisitAt(l, s, op, Building(u, j, BuildNew))
    requires PcOf(s, t) == Crit(op, Building(u, j, BuildNew)) && NamesKnown(l, s) && RefreshOp(op)
    ensures LogKept(l, s, BuildNewStep(s, t, op, u, j, ch), t, op, Building(u, j, BuildNew), ch)
  {
    hide LogKept, VisitAt, CanWork, BuildNewStep, NamesKnown, RefreshOp;
    if !ch.ok || !ch.due || ch.name in s.contexts {
      RefreshNewFails(l, s, t, op, u, j, ch);
    } else {
      RefreshNewMade(l, s, t, op, u, j, ch);
    }
  }

  lemma LoadNewLogs(l: Log, s: State, t: Tid, op: Op, u: UiRef, j: Job, ch: Choice)
    requires CanWork(s, op, Building(u, j, BuildNew)) && VisitAt(l, s, op, Building(u, j, BuildNew))
    requires PcOf(s, t) == Crit(op, Building(u, j, BuildNew)) && NamesKnown(l, s) && op.Load?
    ensures LogKept(l, s, BuildNewStep(s, t, op, u, j, ch), t, op, Building(u, j, BuildNew), ch)
  {}

  lemma LoginNewLogs(l: Log, s: State, t: Tid, op: Op, u: UiRef, j: Job, ch: Choice)
    requires CanWork(s, op, Building(u, j, BuildNew)) && VisitAt(l, s, op, Building(u, j, BuildNew))
    requires PcOf(s, t) == Crit(op, Building(u, j, BuildNew)) && NamesKnown(l, s) && op.Login?
    ensures LogKept(l, s, BuildNewStep(s, t, op, u, j, ch), t, op, Building(u, j, BuildNew), ch)
  {}

  lemma ApplyNewLogs(l: Log, s: State, t: Tid, op: Op, u: UiRef, j: Job, ch: Choice)
    requires CanWork(s, op, Building(u, j, BuildNew)) && VisitAt(l, s, op, Building(u, j, BuildNew))
    requires PcOf(s, t) == Crit(op, Building(u, j, BuildNew)) && NamesKnown(l, s) && op.FetchApply?
    ensures LogKept(l, s, BuildNewStep(s, t, op, u, j, ch), t, op, Building(u, j, BuildNew), ch)
  {}

  lemma BuildNewLogs(l: Log, s: State, t: Tid, op: Op, u: UiRef, j: Job, ch: Choice)
    requires CanWork(s, op, Building(u, j, BuildNew)) && VisitAt(l, s, op, Building(u, j, BuildNew))
    requires PcOf(s, t) == Crit(op, Building(u, j, BuildNew)) && NamesKnown(l, s)
    ensures LogKept(l, s, BuildNewStep(s, t, op, u, j, ch), t, op, Building(u, j, BuildNew), ch)
  {
    OpOf(s, op, Building(u, j, BuildNew));
    hide LogKept, VisitAt, CanWork, BuildNewStep, NamesKnown;
    match op
    case EnsureFresh(_) => RefreshNewLogs(l, s, t, op, u, j, ch);
    case ForceRefresh => RefreshNewLogs(l, s, t, op, u, j, ch);
    case Load(_) => LoadNewLogs(l, s, t, op, u, j, ch);
    case Login(_, _) => LoginNewLogs(l, s, t, op, u, j, ch);
    case FetchApply(_, _) => ApplyNewLogs(l, s, t, op, u, j, ch);
  }

  lemma ReplaceLockLogs(l: Log, s: State, t: Tid, op: Op, u: UiRef, j: Job, c: CtxId, ch: Choice)
    requires VisitAt(l, s, op, Building(u, j, ReplaceLock(c))) && PcOf(s, t) == Crit(op, Building(u, j, ReplaceLock(c)))
    ensures LogKept(l, s, AcquireStep(s, t, op, Building(u, j, ReplaceSwap(c))), t, op, Building(u, j, ReplaceLock(c)),
                    ch)
  {
    hide TookReply, TookFields, TookFile, TookProfile, WriteLockFree, Granted, FoundFresh, RefusedRightly;
  }

  lemma LoginLockTakes(l: Log, s: State, t: Tid, op: Op, c: CtxId, tmp: TempId, ch: Choice)
    requires op.Login? && VisitAt(l, s, op, LoggingIn(c, LoginLock(tmp)))
    requires PcOf(s, t) == Crit(op, LoggingIn(c, LoginLock(tmp)))
    ensures LogKept(l, s, AcquireStep(s, t, op, LoggingIn(c, LoginPublish(tmp))), t, op, LoggingIn(c, LoginLock(tmp)),
                    ch)
  {}

  lemma CloseLockLogs(l: Log, s: State, t: Tid, op: Op, f: bool, ch: Choice)
    requires op.CloseManager? && VisitAt(l, s, op, ClosingDown(f, CloseLock))
    requires PcOf(s, t) == Crit(op, ClosingDown(f, CloseLock))
    ensures LogKept(l, s, AcquireStep(s, t, op, ClosingDown(f, CloseTake)), t, op, ClosingDown(f, CloseLock), ch)
  {}

  lemma RefreshSwapLogs(l: Log, s: State, t: Tid, op: Op, u: UiRef, j: Job, c: CtxId, ch: Choice)
    requires CanWork(s, op, Building(u, j, ReplaceSwap(c))) && VisitAt(l, s, op, Building(u, j, ReplaceSwap(c)))
    requires PcOf(s, t) == Crit(op, Building(u, j, ReplaceSwap(c))) && s.protoCtx != Some(c) && RefreshOp(op)
    ensures LogKept(l, s, ReplaceSwapStep(s, t, op, u, j, c), t, op, Building(u, j, ReplaceSwap(c)), ch)
  {
    hide TookReply, TookFields, ReplacedInv, Granted, FoundFresh, RefusedRightly;
  }

  lemma LoadSwapLogs(l: Log, s: State, t: Tid, op: Op, u: UiRef, j: Job, c: CtxId, ch: Choice)
    requires CanWork(s, op, Building(u, j, ReplaceSwap(c))) && VisitAt(l, s, op, Building(u, j, ReplaceSwap(c)))
    requires PcOf(s, t) == Crit(op, Building(u, j, ReplaceSwap(c))) && s.protoCtx != Some(c) && op.Load?
    ensures LogKept(l, s, ReplaceSwapStep(s, t, op, u, j, c), t, op, Building(u, j, ReplaceSwap(c)), ch)
  {
    hide TookFile, ReplacedInv;
  }

  lemma ApplySwapLogs(l: Log, s: State, t: Tid, op: Op, u: UiRef, j: Job, c: CtxId, ch: Choice)
    requires CanWork(s, op, Building(u, j, ReplaceSwap(c))) && VisitAt(l, s, op, Building(u, j, ReplaceSwap(c)))
    requires PcOf(s, t) == Crit(op, Building(u, j, ReplaceSwap(c))) && s.protoCtx != Some(c) && op.FetchApply?
    ensures LogKept(l, s, ReplaceSwapStep(s, t, op, u, j, c), t, op, Building(u, j, ReplaceSwap(c)), ch)
  {
    hide TookProfile, ReplacedInv;
  }

  lemma ReplaceSwapLogs(l: Log, s: State, t: Tid, op: Op, u: UiRef, j: Job, c: CtxId, ch: Choice)
    requires CanWork(s, op, Building(u, j, ReplaceSwap(c))) && VisitAt(l, s, op, Building(u, j, ReplaceSwap(c)))
    requires PcOf(s, t) == Crit(op, Building(u, j, ReplaceSwap(c))) && s.protoCtx != Some(c)
    ensures LogKept(l, s, ReplaceSwapStep(s, t, op, u, j, c), t, op, Building(u, j, ReplaceSwap(c)), ch)
  {
    SwapOf(s, op, u, j, c);
    hide LogKept, VisitAt, CanWork, ReplaceSwapStep, RefreshOp;
    if op.Load? {
      LoadSwapLogs(l, s, t, op, u, j, c, ch);
    } else if op.FetchApply? {
      ApplySwapLogs(l, s, t, op, u, j, c, ch);
    } else {
      RefreshSwapLogs(l, s, t, op, u, j, c, ch);
    }
  }

  lemma SwapOf(s: State, op: Op, u: UiRef, j: Job, c: CtxId)
    requires CanWork(s, op, Building(u, j, ReplaceSwap(c)))
    ensures RefreshOp(op) || op.Load? || op.FetchApply?
  {}

  lemma RefreshClosingLogs(l: Log, s: State, t: Tid, op: Op, c: CtxId, begun: bool, k: Then, ch: Choice)
    requires CanWork(s, op, Closing(c, begun, k)) && VisitAt(l, s, op, Closing(c, begun, k)) && RefreshOp(op)
    requires PcOf(s, t) == Crit(op, Closing(c, begun, k))
    ensures LogKept(l, s, ClosingStep(s, t, op, c, begun, k), t, op, Closing(c, begun, k), ch)
  {
    hide TookReply, TookFields, NobodyUses, LabelInv;
  }

  lemma LoadClosingLogs(l: Log, s: State, t: Tid, op: Op, c: CtxId, begun: bool, k: Then, ch: Choice)
    requires CanWork(s, op, Closing(c, begun, k)) && VisitAt(l, s, op, Closing(c, begun, k)) && op.Load?
    requires PcOf(s, t) == Crit(op, Closing(c, begun, k))
    ensures LogKept(l, s, ClosingStep(s, t, op, c, begun, k), t, op, Closing(c, begun, k), ch)
  {
    hide TookFile, NobodyUses, LabelInv;
  }

  lemma LoginClosingLogs(l: Log, s: State, t: Tid, op: Op, c: CtxId, begun: bool, k: Then, ch: Choice)
    requires CanWork(s, op, Closing(c, begun, k)) && VisitAt(l, s, op, Closing(c, begun, k)) && op.Login?
    requires PcOf(s, t) == Crit(op, Closing(c, begun, k))
    ensures LogKept(l, s, ClosingStep(s, t, op, c, begun, k), t, op, Closing(c, begun, k), ch)
  {
    hide NobodyUses;
  }

  lemma ApplyClosingLogs(l: Log, s: State, t: Tid, op: Op, c: CtxId, begun: bool, k: Then, ch: Choice)
    requires CanWork(s, op, Closing(c, begun, k)) && VisitAt(l, s, op, Closing(c, begun, k)) && op.FetchApply?
    requires PcOf(s, t) == Crit(op, Closing(c, begun, k))
    ensures LogKept(l, s, ClosingStep(s, t, op, c, begun, k), t, op, Closing(c, begun, k), ch)
  {
    hide TookProfile, NobodyUses, LabelInv;
  }

  lemma ClosingLogs(l: Log, s: State, t: Tid, op: Op, c: CtxId, begun: bool, k: Then, ch: Choice)
    requires CanWork(s, op, Closing(c, begun, k)) && VisitAt(l, s, op, Closing(c, begun, k))
    requires PcOf(s, t) == Crit(op, Closing(c, begun, k))
    ensures LogKept(l, s, ClosingStep(s, t, op, c, begun, k), t, op, Closing(c, begun, k), ch)
  {
    ClosingOf(s, op, c, begun, k);
    hide LogKept, VisitAt, CanWork, ClosingStep;
    if op.Load? {
      LoadClosingLogs(l, s, t, op, c, begun, k, ch);
    } else if op.Login? {
      LoginClosingLogs(l, s, t, op, c, begun, k, ch);
    } else if op.FetchApply? {
      ApplyClosingLogs(l, s, t, op, c, begun, k, ch);
    } else {
      RefreshClosingLogs(l, s, t, op, c, begun, k, ch);
    }
  }

  lemma ClosingOf(s: State, op: Op, c: CtxId, begun: bool, k: Then)
    requires CanWork(s, op, Closing(c, begun, k))
    ensures RefreshOp(op) || op.Load? || op.Login? || op.FetchApply?
  {}

  lemma LoginLockLogs(l: Log, s: State, t: Tid, op: Op, c: CtxId, a: LoginAt, ch: Choice)
    requires a.LoginAbort? || a.LoginSwap?
    requires CanWork(s, op, LoggingIn(c, a)) && VisitAt(l, s, op, LoggingIn(c, a)) && op.Login?
    requires PcOf(s, t) == Crit(op, LoggingIn(c, a))
    ensures LogKept(l, s, LoginLockStep(s, t, op, c, a), t, op, LoggingIn(c, a), ch)
  {}

  lemma CloseTakeLogs(l: Log, s: State, t: Tid, op: Op, f: bool, ch: Choice)
    requires CanWork(s, op, ClosingDown(f, CloseTake)) && VisitAt(l, s, op, ClosingDown(f, CloseTake))
    requires PcOf(s, t) == Crit(op, ClosingDown(f, CloseTake)) && op.CloseManager?
    ensures LogKept(l, s, CloseDownStep(s, t, op, f, CloseTake), t, op, ClosingDown(f, CloseTake), ch)
  {}
}
