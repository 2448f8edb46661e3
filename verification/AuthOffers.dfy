/**
 * What becomes of the refresh tokens the server sends. A reply without an access token is
 * refused before its refresh token is looked at (auth.go:769-775), so the token in it is
 * dropped; every other token is kept.
 */
module AuthOffers {
  import opened Basics
  import opened AuthModel
  import opened AuthInvariant
  import opened AuthThreads
  import opened AuthTheorems

  /** The refresh token in force, told from the last one that was offered. */
  predicate OfferKept(h: History) {
    h.offer.Some? ==> h.issued == if h.offer.value.access then h.offer.value.token else h.offer.value.held
  }

  predicate SameOffer(h: History, h2: History) {
    h2.issued == h.issued && h2.offer == h.offer
  }

  // ---------- every step keeps it ----------

  lemma RefreshOffers(s: State, op: Op, r: RefreshAt, ch: Choice)
    requires !r.RefreshCall?
    ensures SameOffer(s.hist, RefreshWork(s, op, r, ch).hist)
  {}

  lemma BuildOffers(s: State, op: Op, u: UiRef, j: Job, b: BuildAt, ch: Choice)
    requires b.BuildCheck? || b.BuildFields? || b.Replaced?
    ensures SameOffer(s.hist, BuildWork(s, op, u, j, b, ch).hist)
  {}

  lemma EntryOffers(s: State, op: Op, ch: Choice)
    ensures SameOffer(s.hist, EntryWork(s, op, ch).hist)
  {}

  lemma LoadOffers(s: State, ch: Choice)
    requires OfferKept(s.hist)
    ensures OfferKept(LoadWork(s, ch).hist)
  {}

  lemma WorkOffers(s: State, op: Op, at: Label, ch: Choice)
    requires OfferKept(s.hist) && IsWork(at) && at != Refreshing(RefreshCall)
    ensures OfferKept(WorkAt(s, op, at, ch).hist)
  {
    hide RefreshWork, BuildWork, EntryWork, LoadWork;
    match at
    case Entry => EntryOffers(s, op, ch);
    case LoadRead => LoadOffers(s, ch);
    case Refreshing(r) => RefreshOffers(s, op, r, ch);
    case Building(u, j, b) => BuildOffers(s, op, u, j, b, ch);
    case _ =>
  }

  /** The reply itself: the token held is the one in force, by the invariant. */
  lemma CallOffers(s: State, op: Op, ch: Choice)
    requires OfferKept(s.hist) && LabelInv(s, op, Refreshing(RefreshCall))
    ensures OfferKept(RefreshWork(s, op, RefreshCall, ch).hist)
  {}

  lemma BuildingOffers(s: State, t: Tid, op: Op, at: Label, ch: Choice)
    requires at.Building? && !IsWork(at)
    ensures LockStep(s, t, op, at, ch).hist == s.hist
  {
    hide BuildFailed;
    match at.b
    case BuildNew =>
    case ReplaceLock(c) =>
    case ReplaceSwap(c) =>
  }

  lemma ClosingOffers(s: State, t: Tid, op: Op, c: CtxId, begun: bool, k: Then)
    ensures ClosingStep(s, t, op, c, begun, k).hist == s.hist
  {
    hide AfterClose, NobodyUses;
  }

  lemma LoginOffers(s: State, t: Tid, op: Op, c: CtxId, l: LoginAt)
    requires OfferKept(s.hist) && (l.LoginLock? || l.LoginAbort? || l.LoginSwap?)
    ensures OfferKept(LoginLockStep(s, t, op, c, l).hist)
  {}

  lemma CloseDownOffers(s: State, t: Tid, op: Op, f: bool, c: CloseAt)
    ensures CloseDownStep(s, t, op, f, c).hist == s.hist
  {}

  lemma ExitOffers(s: State, t: Tid, op: Op, ok: bool)
    ensures SameOffer(s.hist, ExitStep(s, t, op, ok).hist)
  {
    hide AfterExit;
  }

  lemma LockOffers(s: State, t: Tid, op: Op, at: Label, ch: Choice)
    requires OfferKept(s.hist) && !IsWork(at)
    ensures OfferKept(LockStep(s, t, op, at, ch).hist)
  {
    hide ClosingStep, LoginLockStep, CloseDownStep, ExitStep, OfferKept;
    match at
    case Building(u, j, b) => BuildingOffers(s, t, op, at, ch);
    case Closing(c, begun, k) => ClosingOffers(s, t, op, c, begun, k);
    case LoggingIn(c, l) => LoginOffers(s, t, op, c, l);
    case ClosingDown(f, c) => CloseDownOffers(s, t, op, f, c);
    case Exit(ok) =>
      ExitOffers(s, t, op, ok);
      SameKeeps(s.hist, ExitStep(s, t, op, ok).hist);
  }

  lemma OutOffers(s: State, t: Tid, pc: Pc, ch: Choice)
    requires !pc.Crit?
    ensures SameOffer(s.hist, OutStep(s, t, pc, ch).hist)
  {}

  lemma HolderPoint(s: State, t: Tid, op: Op, at: Label)
    requires Inv(s) && PcOf(s, t) == Crit(op, at)
    ensures LabelInv(s, op, at)
  {}

  lemma NextOffers(s: State, t: Tid, ch: Choice)
    requires Inv(s) && OfferKept(s.hist)
    ensures OfferKept(Next(s, t, ch).hist)
  {
    hide Inv, LabelInv, OfferKept, OutStep, LockStep, WorkAt, RefreshWork;
    var pc := PcOf(s, t);
    if !pc.Crit? {
      OutOffers(s, t, pc, ch);
      SameKeeps(s.hist, OutStep(s, t, pc, ch).hist);
    } else if !IsWork(pc.at) {
      LockOffers(s, t, pc.op, pc.at, ch);
    } else if pc.at == Refreshing(RefreshCall) {
      HolderPoint(s, t, pc.op, pc.at);
      CallOffers(s, pc.op, ch);
      CallWork(s, pc.op, ch);
    } else {
      WorkOffers(s, pc.op, pc.at, ch);
    }
  }

  lemma SameKeeps(h: History, h2: History)
    requires OfferKept(h) && SameOffer(h, h2)
    ensures OfferKept(h2)
  {}

  lemma CallWork(s: State, op: Op, ch: Choice)
    ensures WorkAt(s, op, Refreshing(RefreshCall), ch) == RefreshWork(s, op, RefreshCall, ch)
  {}

  lemma {:induction false} RunOffers(s: State, moves: Schedule)
    requires Inv(s) && OfferKept(s.hist)
    ensures OfferKept(Run(s, moves).hist)
    decreases |moves|
  {
    hide Inv, OfferKept, Next;
    if moves != [] {
      NextKeeps(s, moves[0].0, moves[0].1);
      NextOffers(s, moves[0].0, moves[0].1);
      RunOffers(Next(s, moves[0].0, moves[0].1), moves[1..]);
    }
  }

  lemma ReachableOffers(s: State)
    requires Reachable(s)
    ensures OfferKept(s.hist)
  {
    hide Inv;
    var readOnly: bool, file: Option<UserInfo>, moves: Schedule :| s == Run(Init(readOnly, file), moves);
    InvInit(readOnly, file);
    RunOffers(Init(readOnly, file), moves);
  }

  // ---------- the theorem ----------

  /** The token is in memory, and in the file or marked as still to be written. */
  predicate Stored(s: State, token: string) {
    && s.vault.Info().Some? && s.vault.Info().value.refreshToken == token
    && (s.readOnly || s.vault.dirty || (s.vault.file.Some? && s.vault.file.value.refreshToken == token))
  }

  /** The refresh token offered last is kept exactly when an access token came with it or it was
      the one already held. */
  lemma OfferedKeptIff(s: State)
    requires Reachable(s) && s.mu.None? && s.vault.ui.Some? && s.hist.offer.Some?
    ensures var o := s.hist.offer.value; Stored(s, o.token) <==> o.access || o.token == o.held
    ensures !s.hist.offer.value.access ==> Stored(s, s.hist.offer.value.held)
  {
    ReachableOffers(s);
    NoTokenLost(s);
    hide Reachable;
  }

  /** A reply without an access token is refused and leaves memory, file and flag as they are,
      whatever refresh token it carries. */
  lemma RefusedReplyDropped(s: State, t: Tid, op: Op, ch: Choice)
    requires Reachable(s) && PcOf(s, t) == Crit(op, Refreshing(RefreshCall))
    requires ch.ok && ch.reply.token == "" && ch.reply.refreshToken != ""
    ensures var s2 := Next(s, t, ch);
      && PcOf(s2, t) == Crit(op, Exit(false)) && s2.vault == s.vault && s2.hist.issued == s.hist.issued
      && s2.hist.offer == Some(Offer(ch.reply.refreshToken, false, s.hist.issued))
      && (Stored(s2, ch.reply.refreshToken) ==> ch.reply.refreshToken == s.hist.issued)
  {
    ReachableInv(s);
    HolderPoint(s, t, op, Refreshing(RefreshCall));
    hide Inv, Reachable;
  }

  // ---------- a run in which a token is dropped ----------

  lemma {:induction false} RunThen(s: State, moves: Schedule, t: Tid, ch: Choice)
    ensures Run(s, moves + [(t, ch)]) == Next(Run(s, moves), t, ch)
    decreases |moves|
  {
    hide Next;
    if moves == [] {
      assert moves + [(t, ch)] == [(t, ch)];
      assert [(t, ch)][1..] == [];
    } else {
      RunThen(Next(s, moves[0].0, moves[0].1), moves[1..], t, ch);
      assert (moves + [(t, ch)])[1..] == moves[1..] + [(t, ch)];
    }
  }

  lemma ReachNext(s: State, t: Tid, ch: Choice)
    requires Reachable(s)
    ensures Reachable(Next(s, t, ch))
  {
    hide Next, Run, Init;
    var readOnly: bool, file: Option<UserInfo>, moves: Schedule :| s == Run(Init(readOnly, file), moves);
    RunThen(Init(readOnly, file), moves, t, ch);
  }

  /** Outcomes in which every action succeeds, and the reply is the one given. */
  function Choosing(ok: bool, start: Start, reply: Reply): Choice {
    Choice(ok, false, 0, 0, start, reply, "", "", Login1(), Login1().profile)
  }

  function Login1(): UserInfo {
    UserInfo(Profile("u", "", "", "", "", []), "s", "s", "held", 1, 0, "", "")
  }

  const NoReply := Reply("", "", 0, 0)
  const Refusal := Reply("", "offered", 0, 0)

  /** The manager with the loaded login, between two operations or inside one. */
  function Between(hist: History): State {
    State(false, Ready, None, None, NotRun, false, None, map[],
          Vault(map[0 := Login1()], Some(0), false, Some(Login1()), map[]), hist, map[0 := Idle])
  }

  function Inside(hist: History, at: Label): State {
    Between(hist).(mu := Some(0), threads := map[0 := Crit(ForceRefresh, at)])
  }

  function Loading0(vault: Vault, hist: History, at: Label): State {
    State(false, Loading, Some(0), None, NotRun, false, None, map[], vault, hist, map[0 := Crit(Load(false), at)])
  }

  const Entry0 := Snapshot(None, None, Some(Login1()), false, None, "")
  const Entry1 := Snapshot(Some(0), Some(Login1()), Some(Login1()), false, None, "held")
  const Good1 := (Some(SessionOf(Login1())), None)

  const Vault0 := Vault(map[], None, false, Some(Login1()), map[])
  const Vault1 := Vault(map[0 := Login1()], Some(0), false, Some(Login1()), map[])
  const Hist0 := History(Entry0, "", None, (None, None), 0)
  const Hist1 := Hist0.(issued := "held")
  const Hist2 := Hist1.(entry := Entry1, good := Good1)
  const Hist3 := Hist2.(offer := Some(Offer("offered", false, "held")))
  const Dropped := Between(Hist3)

  lemma ReachInit(readOnly: bool, file: Option<UserInfo>)
    ensures Reachable(Init(readOnly, file))
  {
    assert Init(readOnly, file) == Run(Init(readOnly, file), []);
  }

  lemma LoadStarts()
    ensures Reachable(Loading0(Vault0, Hist0, Entry))
  {
    hide Reachable, Run;
    var go := Choosing(true, StartLoad, NoReply);
    var s := Init(false, Some(Login1()));
    ReachInit(false, Some(Login1()));
    ReachNext(s, 0, go);
    ReachNext(Next(s, 0, go), 0, go);
    assert Next(Next(s, 0, go), 0, go) == Loading0(Vault0, Hist0, Entry);
  }

  /** Work under mu by the only goroutine. */
  lemma ReachDo(s: State, op: Op, at: Label, ch: Choice, s2: State)
    requires Reachable(s) && PcOf(s, 0) == Crit(op, at) && IsWork(at) && s.ctxWriter.None?
    requires s2 == Do(s, 0, op, WorkAt(s, op, at, ch))
    ensures Reachable(s2)
  {
    hide Reachable, WorkAt, Do;
    ReachNext(s, 0, ch);
  }

  lemma LoadWorks()
    ensures Reachable(Loading0(Vault1, Hist1, Building(0, Rebuild, BuildCheck)))
  {
    hide Reachable, Run;
    var go, op := Choosing(true, StartLoad, NoReply), Load(false);
    var s1, s2 := Loading0(Vault0, Hist0, Entry), Loading0(Vault0, Hist0, LoadRead);
    LoadStarts();
    ReachDo(s1, op, Entry, go, s2);
    ReachDo(s2, op, LoadRead, go, Loading0(Vault1, Hist1, Building(0, Rebuild, BuildCheck)));
  }

  /** The start-up load; no context can be made, the login is in force all the same. */
  lemma LoadEnds()
    ensures Reachable(Between(Hist1.(good := Good1)))
  {
    hide Reachable, Run;
    var go, op := Choosing(true, StartLoad, NoReply), Load(false);
    var s1 := Loading0(Vault1, Hist1, Building(0, Rebuild, BuildCheck));
    var s2 := Loading0(Vault1, Hist1, Building(0, Rebuild, BuildFields));
    var s3 := Loading0(Vault1, Hist1, Exit(false));
    LoadWorks();
    ReachDo(s1, op, Building(0, Rebuild, BuildCheck), go, s2);
    ReachDo(s2, op, Building(0, Rebuild, BuildFields), go, s3);
    ReachNext(s3, 0, go);
    assert Next(s3, 0, go) == Between(Hist1.(good := Good1));
  }

  lemma RefreshStarts()
    ensures Reachable(Inside(Hist2, Entry))
  {
    hide Reachable, Run;
    var go := Choosing(true, StartForce, Refusal);
    var s := Between(Hist1.(good := Good1));
    LoadEnds();
    ReachNext(s, 0, go);
    ReachNext(Next(s, 0, go), 0, go);
    assert Next(Next(s, 0, go), 0, go) == Inside(Hist2, Entry);
  }

  lemma RefreshCalls()
    ensures Reachable(Inside(Hist2, Refreshing(RefreshCall)))
  {
    hide Reachable, Run;
    var go := Choosing(true, StartForce, Refusal);
    var s1, s2 := Inside(Hist2, Entry), Inside(Hist2, Refreshing(Decide));
    var s3, s4 := Inside(Hist2, Refreshing(RefreshCheck)), Inside(Hist2, Refreshing(RefreshCall));
    RefreshStarts();
    ReachDo(s1, ForceRefresh, Entry, go, s2);
    ReachDo(s2, ForceRefresh, Refreshing(Decide), go, s3);
    ReachDo(s3, ForceRefresh, Refreshing(RefreshCheck), go, s4);
  }

  /** The reachable state in which a refresh token was dropped: the login is loaded, and the first
      refresh is answered with a refresh token but no access token. */
  lemma DroppedToken()
    ensures Reachable(Dropped) && Dropped.mu.None? && Dropped.vault.ui.Some? && !Dropped.closed
    ensures Dropped.hist.offer == Some(Offer("offered", false, "held"))
    ensures Stored(Dropped, "held") && !Stored(Dropped, "offered")
  {
    hide Reachable, Run;
    var go := Choosing(true, StartForce, Refusal);
    var s1, s2 := Inside(Hist2, Refreshing(RefreshCall)), Inside(Hist3, Exit(false));
    RefreshCalls();
    ReachDo(s1, ForceRefresh, Refreshing(RefreshCall), go, s2);
    ReachNext(s2, 0, go);
    assert Next(s2, 0, go) == Dropped;
    assert "held" != "offered";
  }
}
