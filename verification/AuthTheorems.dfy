/** What the invariant gives for every reachable state of the authentication manager:
    any number of goroutines, any interleaving, any network, file and clock outcome. */
module AuthTheorems {
  import opened Basics
  import opened AuthModel
  import opened AuthInvariant
  import opened AuthThreads

  ghost predicate Reachable(s: State) {
    exists readOnly: bool, file: Option<UserInfo>, moves: Schedule :: s == Run(Init(readOnly, file), moves)
  }

  lemma ReachableInv(s: State)
    requires Reachable(s)
    ensures Inv(s)
  {
    var readOnly: bool, file: Option<UserInfo>, moves: Schedule :| s == Run(Init(readOnly, file), moves);
    InvInit(readOnly, file);
    RunKeeps(Init(readOnly, file), moves);
  }

  /** A goroutine stands between critical sections, and no Close is under way. */
  predicate AtRest(s: State) {
    s.mu.None? && !Closer(s).CloseCurrent?
  }

  /** While PrepareInferRequest runs on a context, that context is current and its Close has not
      begun; so the closed flag inside the context never refuses a caller of the manager. */
  lemma NoUseAfterClose(s: State, t: Tid)
    requires Reachable(s)
    ensures PcOf(s, t).Using? ==>
              s.protoCtx == Some(PcOf(s, t).ctx) && PcOf(s, t).ctx in s.contexts
              && s.contexts[PcOf(s, t).ctx] == Ctx(0, 0)
    ensures PcOf(s, t).ReadCheck? && s.protoCtx.Some? ==>
              s.protoCtx.value in s.contexts && s.contexts[s.protoCtx.value].ended == 0
  {
    ReachableInv(s);
  }

  /** No context is closed twice; at rest every context but the current one is closed. */
  lemma ClosedExactlyOnce(s: State, c: CtxId)
    requires Reachable(s) && c in s.contexts
    ensures s.contexts[c].ended <= s.contexts[c].begun <= 1
    ensures s.protoCtx == Some(c) ==> s.contexts[c] == Ctx(0, 0)
    ensures AtRest(s) && s.protoCtx != Some(c) ==> s.contexts[c] == Ctx(1, 1)
  {
    ReachableInv(s);
    assert s.contexts[c] == ExpectedCtx(s, c);
  }

  /** Once Close has returned, every context ever made is closed, exactly once, and none is current. */
  lemma AllClosedAfterClose(s: State, c: CtxId)
    requires Reachable(s) && s.once.Done? && c in s.contexts
    ensures s.contexts[c] == Ctx(1, 1) && s.closed && s.protoCtx == None
  {
    ReachableInv(s);
    assert s.contexts[c] == ExpectedCtx(s, c);
    if s.mu.Some? { ClosedPoints(s, Holder(s).op, Holder(s).at); }
  }

  /** Once the manager is closed a critical section is only entered to be left. */
  lemma ClosedPoints(s: State, op: Op, at: Label)
    requires LabelInv(s, op, at) && s.closed
    ensures at.Entry? || at.Exit? || Releasing(at)
    ensures Clean(s) && TokenKept(s)
  {
  }

  /** Whenever `mu` is free, a clean manager's file holds the user in memory. */
  lemma CleanMeansSaved(s: State)
    requires Reachable(s) && s.mu.None? && !s.readOnly && s.vault.ui.Some? && !s.vault.dirty
    ensures s.vault.Info().Some? && s.vault.file == s.vault.Info()
  {
    ReachableInv(s);
  }

  /** A Close that returned no error left the final user in the file. */
  lemma CloseSaves(s: State)
    requires Reachable(s) && s.once == Done(false) && !s.readOnly && s.vault.ui.Some?
    ensures s.vault.Info().Some? && s.vault.file == s.vault.Info()
  {
    ReachableInv(s);
    if s.mu.Some? { ClosedPoints(s, Holder(s).op, Holder(s).at); }
  }

  /** The refresh token of the last accepted reply is never lost: whenever `mu` is free it is in
      memory, and it is in the file or the manager knows that it still has to be written. What
      becomes of the tokens in refused replies is told by AuthOffers.OfferedKeptIff. */
  lemma NoTokenLost(s: State)
    requires Reachable(s) && s.mu.None? && s.vault.ui.Some?
    ensures s.vault.Info().Some? && s.vault.Info().value.refreshToken == s.hist.issued
    ensures !s.readOnly && !s.vault.dirty ==>
              s.vault.file.Some? && s.vault.file.value.refreshToken == s.hist.issued
  {
    ReachableInv(s);
  }

  /** Through any number of failed refreshes the session and the context are those of the last
      operation that was not a failed refresh. */
  lemma FailedRefreshesKeepSession(s: State)
    requires Reachable(s) && s.mu.None? && !s.closed
    ensures s.hist.good == (s.vault.Session(), s.protoCtx)
  {
    ReachableInv(s);
  }

  /** A refresh that is about to report failure changed the refresh token and its expiry at most. */
  lemma FailedRefreshOnlyRotates(s: State, t: Tid, op: Op)
    requires Reachable(s) && RefreshOp(op) && PcOf(s, t) == Crit(op, Exit(false))
    ensures s.vault.ui == s.hist.entry.ui && s.protoCtx == s.hist.entry.protoCtx
    ensures s.vault.Info().Some? ==>
              (s.hist.entry.info.Some?
               && s.vault.Info().value == s.hist.entry.info.value.(
                    refreshToken := s.hist.issued, refreshExpireTime := s.vault.Info().value.refreshExpireTime))
    ensures s.vault.temps == map[]
  {
    ReachableInv(s);
  }

  /** A login that is about to report failure changed nothing; one that is about to report success
      changed memory, file, context and flag together. Either way no staged file is left and every
      context but the current one is closed exactly once. */
  lemma LoginAllOrNothing(s: State, t: Tid, u: UiRef, device: bool, ok: bool)
    requires Reachable(s) && PcOf(s, t) == Crit(Login(u, device), Exit(ok))
    ensures !ok ==> Snap(s) == s.hist.entry || s.readOnly
    ensures ok ==> s.vault.ui == Some(u) && s.vault.Info().Some? && s.vault.file == s.vault.Info() && !s.vault.dirty
    ensures ok ==> s.protoCtx.Some? && s.protoCtx != s.hist.entry.protoCtx
    ensures s.vault.temps == map[]
    ensures !s.closed ==>
              forall c | c in s.contexts :: s.contexts[c] == if s.protoCtx == Some(c) then Ctx(0, 0) else Ctx(1, 1)
  {
    ReachableInv(s);
    assert s.mu == Some(t);
    forall c | c in s.contexts && !s.closed
      ensures s.contexts[c] == if s.protoCtx == Some(c) then Ctx(0, 0) else Ctx(1, 1)
    {
      assert s.contexts[c] == ExpectedCtx(s, c);
    }
  }

  /** A profile reply works on the login it was asked for or changes nothing. */
  lemma LateProfileChangesNothing(s: State, t: Tid, u: UiRef, p: Profile, at: Label)
    requires Reachable(s) && PcOf(s, t) == Crit(FetchApply(u, p), at)
    ensures s.vault.ui == Some(u) || Snap(s) == s.hist.entry || s.readOnly
  {
    ReachableInv(s);
    assert s.mu == Some(t);
    FetchPoints(s, FetchApply(u, p), at);
  }

  lemma FetchPoints(s: State, op: Op, at: Label)
    requires LabelInv(s, op, at) && op.FetchApply?
    ensures s.vault.ui == Some(op.target) || Unchanged(s)
  {
  }

  /** Staged files exist only inside a critical section. */
  lemma NoStagedFileLeft(s: State)
    requires Reachable(s) && s.mu.None?
    ensures s.vault.temps == map[]
  {
    ReachableInv(s);
  }

  /** A read-only manager never writes: no rename onto the file, no staged file, nothing dirty. */
  lemma ReadOnlyNeverWrites(s: State)
    requires Reachable(s) && s.readOnly
    ensures s.hist.writes == 0 && !s.vault.dirty && s.vault.temps == map[]
  {
    ReachableInv(s);
    if s.mu.Some? { StagingIsWritable(s, Holder(s).op, Holder(s).at); }
  }

  lemma StagingIsWritable(s: State, op: Op, at: Label)
    requires LabelInv(s, op, at) && s.readOnly
    ensures s.vault.temps == map[]
  {
  }
}
