/** Every step keeps what `mu` guards in order, and so the whole invariant. */
module AuthSteps {
  import opened Basics
  import opened AuthModel
  import opened AuthInvariant
  import opened AuthShape

  /** What a piece of work may rely on. */
  predicate CanWork(s: State, op: Op, at: Label) {
    && LabelInv(s, op, at) && ReadOnlyKept(s)
    && (s.vault.ui.Some? ==> s.vault.ui.value in s.vault.records)
    && (PendingRef(Crit(op, at)).Some? ==>
          PendingRef(Crit(op, at)).value in s.vault.records && s.vault.ui != PendingRef(Crit(op, at)))
    && (op.CloseManager? ==> s.closed == Releasing(at))
  }

  /** The work done at `at` keeps the invariant of the point it leads to. */
  predicate Fits(s: State, t: Tid, op: Op, at: Label, w: Work) {
    WorkFits(s, op, at, w) && LabelInv(Do(s, t, op, w), op, w.next) && ReadOnlyKept(Do(s, t, op, w))
  }

  lemma EntryFits(s: State, t: Tid, op: Op, ch: Choice)
    requires CanWork(s, op, Entry)
    requires !op.FetchApply? && !RefreshOp(op)
    ensures Fits(s, t, op, Entry, EntryWork(s, op, ch))
  {
    hide ReplacedInv, ClosingInv, LoginPoint, LoginDone, Accepted, Candidate, Swapped;
  }

  lemma RefreshEntryFits(s: State, t: Tid, op: Op, ch: Choice)
    requires CanWork(s, op, Entry)
    requires RefreshOp(op)
    ensures Fits(s, t, op, Entry, EntryWork(s, op, ch))
  {
  }

  lemma ApplyFits(s: State, t: Tid, op: Op, ch: Choice)
    requires CanWork(s, op, Entry)
    requires op.FetchApply?
    ensures Fits(s, t, op, Entry, EntryWork(s, op, ch))
  {
    hide ReplacedInv, ClosingInv, LoginPoint, LoginDone, LoginInv, Accepted, Candidate, Swapped;
  }

  lemma LoadFits(s: State, t: Tid, op: Op, ch: Choice)
    requires CanWork(s, op, LoadRead)
    ensures Fits(s, t, op, LoadRead, LoadWork(s, ch))
  {
    hide ReplacedInv, ClosingInv, LoginPoint, LoginDone, LoginInv, Accepted, Candidate, Swapped;
  }

  lemma DecideFits(s: State, t: Tid, op: Op, ch: Choice)
    requires CanWork(s, op, Refreshing(Decide))
    ensures Fits(s, t, op, Refreshing(Decide), RefreshWork(s, op, Decide, ch))
  {
  }

  lemma RefreshCheckFits(s: State, t: Tid, op: Op, ch: Choice)
    requires CanWork(s, op, Refreshing(RefreshCheck))
    ensures Fits(s, t, op, Refreshing(RefreshCheck), RefreshWork(s, op, RefreshCheck, ch))
  {
  }

  /** The reply is refused, or its record's name is taken. */
  lemma RefreshRefusedFits(s: State, t: Tid, op: Op, ch: Choice)
    requires CanWork(s, op, Refreshing(RefreshCall))
    requires !ch.ok || ch.reply.token == "" || ch.name in s.vault.records
    ensures Fits(s, t, op, Refreshing(RefreshCall), RefreshWork(s, op, RefreshCall, ch))
  {
    hide ReplacedInv, ClosingInv, LoginPoint, LoginDone, LoginInv, JobInv, Accepted, Candidate, RefsFit;
    SameRefs(s.vault, RefreshWork(s, op, RefreshCall, ch).vault);
  }

  lemma RefreshCallFits(s: State, t: Tid, op: Op, ch: Choice)
    requires CanWork(s, op, Refreshing(RefreshCall))
    requires ch.ok && ch.reply.token != "" && ch.name !in s.vault.records
    ensures Fits(s, t, op, Refreshing(RefreshCall), RefreshWork(s, op, RefreshCall, ch))
  {
    hide ReplacedInv, ClosingInv, LoginPoint, LoginDone, LoginInv, Swapped, Rebuilding;
  }

  lemma RefreshFieldsFits(s: State, t: Tid, op: Op, u: UiRef, r: Reply, ch: Choice)
    requires CanWork(s, op, Refreshing(RefreshFields(u, r)))
    ensures Fits(s, t, op, Refreshing(RefreshFields(u, r)), RefreshWork(s, op, RefreshFields(u, r), ch))
  {
  }

  lemma PreserveFits(s: State, t: Tid, op: Op, r: Reply)
    requires CanWork(s, op, Refreshing(Preserve(r)))
    ensures Fits(s, t, op, Refreshing(Preserve(r)), PreserveWork(s, r))
  {
  }

  lemma BuildCheckFits(s: State, t: Tid, op: Op, u: UiRef, j: Job, ch: Choice)
    requires CanWork(s, op, Building(u, j, BuildCheck))
    ensures Fits(s, t, op, Building(u, j, BuildCheck), BuildWork(s, op, u, j, BuildCheck, ch))
  {
  }

  lemma RebuildFieldsFits(s: State, t: Tid, op: Op, u: UiRef, ch: Choice)
    requires CanWork(s, op, Building(u, Rebuild, BuildFields))
    ensures Fits(s, t, op, Building(u, Rebuild, BuildFields), BuildWork(s, op, u, Rebuild, BuildFields, ch))
  {
    hide ReplacedInv, ClosingInv, LoginPoint, LoginInv, LoginDone, Accepted, Candidate, Swapped;
  }

  lemma RefreshedFieldsFits(s: State, t: Tid, op: Op, u: UiRef, r: Reply, ch: Choice)
    requires CanWork(s, op, Building(u, ForRefresh(r), BuildFields))
    ensures Fits(s, t, op, Building(u, ForRefresh(r), BuildFields),
                 BuildWork(s, op, u, ForRefresh(r), BuildFields, ch))
  {
    hide ReplacedInv, ClosingInv, LoginPoint, LoginInv, LoginDone, Swapped, Rebuilding;
  }

  lemma LoginFieldsFits(s: State, t: Tid, op: Op, u: UiRef, ch: Choice)
    requires CanWork(s, op, Building(u, ForLogin, BuildFields))
    ensures Fits(s, t, op, Building(u, ForLogin, BuildFields), BuildWork(s, op, u, ForLogin, BuildFields, ch))
  {
    hide ReplacedInv, ClosingInv, LoginPoint, LoginDone, Accepted, Candidate, Swapped, Rebuilding;
  }

  lemma ReplacedFits(s: State, t: Tid, op: Op, u: UiRef, j: Job)
    requires CanWork(s, op, Building(u, j, Replaced))
    ensures Fits(s, t, op, Building(u, j, Replaced), ReplacedWork(s, op, u, j))
  {
    hide JobInv, ClosingInv, LoginPoint, LoginDone, LoginInv, Accepted;
  }

  lemma SaveCheckFits(s: State, t: Tid, op: Op, k: SaveFor, ch: Choice)
    requires CanWork(s, op, Saving(k, SaveCheck))
    requires !s.readOnly && s.vault.ui.Some?
    ensures Fits(s, t, op, Saving(k, SaveCheck), SaveWork(s, k, SaveCheck, ch))
  {
    hide JobInv, ReplacedInv, ClosingInv, LoginPoint, LoginInv, LoginDone, Accepted, Candidate;
  }

  lemma SaveRefusedFits(s: State, t: Tid, op: Op, k: SaveFor, ch: Choice)
    requires CanWork(s, op, Saving(k, SaveCheck)) && s.readOnly
    ensures Fits(s, t, op, Saving(k, SaveCheck), SaveWork(s, k, SaveCheck, ch))
  {
    hide JobInv, ReplacedInv, ClosingInv, LoginPoint, LoginInv, LoginDone, Accepted, Candidate, RefsFit;
    SameRefs(s.vault, SaveWork(s, k, SaveCheck, ch).vault);
  }

  lemma SaveNobodyFits(s: State, t: Tid, op: Op, k: SaveFor, ch: Choice)
    requires CanWork(s, op, Saving(k, SaveCheck))
    requires !s.readOnly && s.vault.ui.None?
    ensures Fits(s, t, op, Saving(k, SaveCheck), SaveWork(s, k, SaveCheck, ch))
  {
    hide JobInv, ReplacedInv, ClosingInv, LoginPoint, LoginInv, LoginDone, Accepted, Candidate, RefsFit;
    SameRefs(s.vault, SaveWork(s, k, SaveCheck, ch).vault);
  }

  lemma SaveStageFits(s: State, t: Tid, op: Op, k: SaveFor, ch: Choice)
    requires CanWork(s, op, Saving(k, SaveStage)) && ch.ok
    ensures Fits(s, t, op, Saving(k, SaveStage), SaveWork(s, k, SaveStage, ch))
  {
    hide JobInv, ReplacedInv, ClosingInv, LoginPoint, LoginInv, LoginDone, Accepted, Candidate, RefsFit;
    SameRefs(s.vault, SaveWork(s, k, SaveStage, ch).vault);
  }

  lemma SaveStageFails(s: State, t: Tid, op: Op, k: SaveFor, ch: Choice)
    requires CanWork(s, op, Saving(k, SaveStage)) && !ch.ok
    ensures Fits(s, t, op, Saving(k, SaveStage), SaveWork(s, k, SaveStage, ch))
  {
    hide JobInv, ReplacedInv, ClosingInv, LoginPoint, LoginInv, LoginDone, Accepted, Candidate, RefsFit;
    SameRefs(s.vault, SaveWork(s, k, SaveStage, ch).vault);
  }

  lemma SaveWriteFits(s: State, t: Tid, op: Op, k: SaveFor, tmp: TempId, ch: Choice)
    requires CanWork(s, op, Saving(k, SaveWrite(tmp)))
    ensures Fits(s, t, op, Saving(k, SaveWrite(tmp)), SaveWork(s, k, SaveWrite(tmp), ch))
  {
    hide JobInv, ReplacedInv, ClosingInv, LoginPoint, LoginInv, LoginDone, Accepted, Candidate, RefsFit;
    SameRefs(s.vault, SaveWork(s, k, SaveWrite(tmp), ch).vault);
  }

  lemma SavePublishFits(s: State, t: Tid, op: Op, k: SaveFor, tmp: TempId, ch: Choice)
    requires CanWork(s, op, Saving(k, SavePublish(tmp))) && ch.ok
    ensures Fits(s, t, op, Saving(k, SavePublish(tmp)), SaveWork(s, k, SavePublish(tmp), ch))
  {
    hide JobInv, ReplacedInv, ClosingInv, LoginPoint, LoginInv, LoginDone, Accepted, Candidate, RefsFit;
    SameRefs(s.vault, SaveWork(s, k, SavePublish(tmp), ch).vault);
  }

  lemma SavePublishFails(s: State, t: Tid, op: Op, k: SaveFor, tmp: TempId, ch: Choice)
    requires CanWork(s, op, Saving(k, SavePublish(tmp))) && !ch.ok
    ensures Fits(s, t, op, Saving(k, SavePublish(tmp)), SaveWork(s, k, SavePublish(tmp), ch))
  {
    hide JobInv, ReplacedInv, ClosingInv, LoginPoint, LoginInv, LoginDone, Accepted, Candidate, RefsFit;
    SameRefs(s.vault, SaveWork(s, k, SavePublish(tmp), ch).vault);
  }

  /** No record is made or given up. */
  lemma SameRefs(v: Vault, w: Vault)
    requires w.records == v.records && w.ui == v.ui
    ensures RefsFit(v, w, None, None)
  {
  }

  lemma SaveDiscardFits(s: State, t: Tid, op: Op, k: SaveFor, tmp: TempId, ch: Choice)
    requires CanWork(s, op, Saving(k, SaveDiscard(tmp)))
    ensures Fits(s, t, op, Saving(k, SaveDiscard(tmp)), SaveWork(s, k, SaveDiscard(tmp), ch))
  {
    hide JobInv, ReplacedInv, ClosingInv, LoginPoint, LoginInv, LoginDone, Accepted, Candidate, RefsFit;
    SameRefs(s.vault, SaveWork(s, k, SaveDiscard(tmp), ch).vault);
  }

  lemma LoginStartFits(s: State, t: Tid, op: Op, c: CtxId, l: LoginAt, ch: Choice)
    requires CanWork(s, op, LoggingIn(c, l))
    requires op.Login? && (l.LoginCheck? || l.LoginUnstage?)
    ensures Fits(s, t, op, LoggingIn(c, l), LoginWork(s, op, c, l, ch))
  {
    hide JobInv, ReplacedInv, Accepted, Candidate, SaveInv, RefreshPoint, LoginDone;
  }

  lemma LoginStageFits(s: State, t: Tid, op: Op, c: CtxId, ch: Choice)
    requires CanWork(s, op, LoggingIn(c, LoginStage)) && op.Login?
    ensures Fits(s, t, op, LoggingIn(c, LoginStage), LoginWork(s, op, c, LoginStage, ch))
  {
    hide JobInv, ReplacedInv, Accepted, Candidate, SaveInv, RefreshPoint, LoginDone;
  }

  lemma LoginWriteFits(s: State, t: Tid, op: Op, c: CtxId, tmp: TempId, ch: Choice)
    requires CanWork(s, op, LoggingIn(c, LoginWrite(tmp))) && op.Login?
    ensures Fits(s, t, op, LoggingIn(c, LoginWrite(tmp)), LoginWork(s, op, c, LoginWrite(tmp), ch))
  {
    hide JobInv, ReplacedInv, Accepted, Candidate, SaveInv, RefreshPoint, LoginDone;
  }

  lemma LoginPublishFits(s: State, t: Tid, op: Op, c: CtxId, tmp: TempId, ch: Choice)
    requires CanWork(s, op, LoggingIn(c, LoginPublish(tmp))) && op.Login?
    ensures Fits(s, t, op, LoggingIn(c, LoginPublish(tmp)), LoginWork(s, op, c, LoginPublish(tmp), ch))
  {
    hide JobInv, ReplacedInv, Accepted, Candidate, SaveInv, RefreshPoint, LoginDone;
  }

  lemma WorkAtFits(s: State, t: Tid, op: Op, at: Label, ch: Choice)
    requires CanWork(s, op, at) && IsWork(at)
    ensures Fits(s, t, op, at, WorkAt(s, op, at, ch))
  {
    match at
    case Entry =>
      if op.FetchApply? { ApplyFits(s, t, op, ch); }
      else if RefreshOp(op) { RefreshEntryFits(s, t, op, ch); }
      else { EntryFits(s, t, op, ch); }
    case LoadRead => LoadFits(s, t, op, ch);
    case Refreshing(Decide) => DecideFits(s, t, op, ch);
    case Refreshing(RefreshCheck) => RefreshCheckFits(s, t, op, ch);
    case Refreshing(RefreshCall) =>
      if !ch.ok || ch.reply.token == "" || ch.name in s.vault.records { RefreshRefusedFits(s, t, op, ch); }
      else { RefreshCallFits(s, t, op, ch); }
    case Refreshing(RefreshFields(u, r)) => RefreshFieldsFits(s, t, op, u, r, ch);
    case Refreshing(Preserve(r)) => PreserveFits(s, t, op, r);
    case Building(u, j, b) =>
      if b.BuildCheck? { BuildCheckFits(s, t, op, u, j, ch); }
      else if b.BuildFields? && j.Rebuild? { RebuildFieldsFits(s, t, op, u, ch); }
      else if b.BuildFields? && j.ForRefresh? { RefreshedFieldsFits(s, t, op, u, j.reply, ch); }
      else if b.BuildFields? { LoginFieldsFits(s, t, op, u, ch); }
      else { ReplacedFits(s, t, op, u, j); }
    case Saving(k, a) =>
      if a.SaveCheck? && !s.readOnly && s.vault.ui.Some? { SaveCheckFits(s, t, op, k, ch); }
      else if a.SaveCheck? && s.readOnly { SaveRefusedFits(s, t, op, k, ch); }
      else if a.SaveCheck? { SaveNobodyFits(s, t, op, k, ch); }
      else if a.SaveStage? { if ch.ok { SaveStageFits(s, t, op, k, ch); } else { SaveStageFails(s, t, op, k, ch); } }
      else if a.SaveDiscard? { SaveDiscardFits(s, t, op, k, a.temp, ch); }
      else if a.SaveWrite? { SaveWriteFits(s, t, op, k, a.temp, ch); }
      else if ch.ok { SavePublishFits(s, t, op, k, a.temp, ch); }
      else { SavePublishFails(s, t, op, k, a.temp, ch); }
    case LoggingIn(c, l) =>
      if l.LoginStage? { LoginStageFits(s, t, op, c, ch); }
      else if l.LoginWrite? { LoginWriteFits(s, t, op, c, l.temp, ch); }
      else if l.LoginPublish? { LoginPublishFits(s, t, op, c, l.temp, ch); }
      else { LoginStartFits(s, t, op, c, l, ch); }
    case Discarding(tmp) =>
  }
}
