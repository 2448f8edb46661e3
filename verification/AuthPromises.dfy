/**
 * What the operations of the authentication manager promise, over every run: when a token
 * counts as fresh and a refresh is sent, what a refresh, a load, a login and a profile leave in
 * memory, what the current context was made from, and what Close tried and reports.
 */
module AuthPromises {
  import opened Basics
  import opened AuthModel
  import opened AuthInvariant
  import opened AuthLog
  import opened AuthLogRuns

  /** What the log says of the critical section a goroutine is in. */
  lemma SectionTells(s: State, l: Log, t: Tid, op: Op, at: Label)
    requires Logged(s, l) && PcOf(s, t) == Crit(op, at)
    ensures VisitAt(l, s, op, at) && LabelInv(s, op, at) && s.mu == Some(t)
  {
    LoggedInv(s, l);
    hide Logged, VisitAt, LabelInv;
  }

  /**
   * An ensureFresh that succeeds found the token in memory good for an hour by the clock it
   * read, or accepted a reply in this very section.
   */
  lemma FreshOrRefreshed(s: State, l: Log, t: Tid, forPrepare: bool)
    requires Logged(s, l) && PcOf(s, t) == Crit(EnsureFresh(forPrepare), Exit(true))
    ensures s.vault.Info().Some?
    ensures l.accepted.None? ==>
              l.clock.Some?
              && (s.vault.Info().value.expireTime == 0 || s.vault.Info().value.expireTime >= l.clock.value + 3600)
    ensures l.accepted.Some? ==>
              s.vault.Info().value.accessToken == l.accepted.value.token
              && s.vault.Info().value.expireTime == l.accepted.value.expireTime
  {
    SectionTells(s, l, t, EnsureFresh(forPrepare), Exit(true));
    hide Logged, LabelInv;
  }

  /**
   * A refresh token is spent only by force or for an access token the clock found stale, and
   * only while it is itself in force; never by a closed or read-only manager.
   */
  lemma SpentOnlyWhenStale(s: State, l: Log, t: Tid, op: Op)
    requires Logged(s, l) && PcOf(s, t) == Crit(op, Refreshing(RefreshCall))
    ensures RefreshOp(op) && !s.closed && !s.readOnly
    ensures s.vault.Info().Some? && s.vault.Info().value.refreshToken != ""
    ensures op.EnsureFresh? ==>
              var u := s.vault.Info().value;
              && l.clock.Some? && u.expireTime != 0 && u.expireTime < l.clock.value + 3600
              && (u.refreshExpireTime == 0 || l.clock.value <= u.refreshExpireTime)
  {
    SectionTells(s, l, t, op, Refreshing(RefreshCall));
    hide Logged;
  }

  /** An ensureFresh fails only when the manager is closed, nobody is logged in or the token is stale. */
  lemma RefusedOnlyWhenStale(s: State, l: Log, t: Tid, forPrepare: bool)
    requires Logged(s, l) && PcOf(s, t) == Crit(EnsureFresh(forPrepare), Exit(false))
    ensures s.closed || s.vault.Info().None?
            || (l.clock.Some? && s.vault.Info().value.expireTime != 0
                && s.vault.Info().value.expireTime < l.clock.value + 3600)
  {
    SectionTells(s, l, t, EnsureFresh(forPrepare), Exit(false));
    hide Logged;
  }

  /** What could not be saved before is tried again before anything else, once it is due. */
  lemma PendingSavedFirst(s: State, l: Log, t: Tid, op: Op, at: Label)
    requires Logged(s, l) && RefreshOp(op) && PcOf(s, t) == Crit(op, at)
    requires at.Refreshing? || at.Building? || at == Exit(true)
    ensures l.due && s.hist.entry.dirty && !s.readOnly ==> Pending in l.saves
  {
    SectionTells(s, l, t, op, at);
    hide Logged, LabelInv, TookReply, BuiltAt, BuiltFromUser;
  }

  /**
   * A refresh that succeeds leaves the tokens and expiries of the reply and the runtime fields made for
   * it in memory and all else as it was, a new current context made from that record, and has tried
   * to save it.
   */
  lemma RefreshTakesReply(s: State, l: Log, t: Tid, op: Op)
    requires Logged(s, l) && RefreshOp(op) && PcOf(s, t) == Crit(op, Exit(true))
    ensures op.ForceRefresh? ==> l.accepted.Some?
    ensures l.accepted.Some? ==>
              && s.vault.Info().Some? && s.hist.entry.info.Some?
              && TookReply(s.vault.Info().value, s.hist.entry.info.value, l.accepted.value)
              && TookFields(l, s.vault.Info().value, s.hist.entry.info.value)
              && s.protoCtx.Some? && s.protoCtx != s.hist.entry.protoCtx
              && s.protoCtx.value in l.built && l.built[s.protoCtx.value] == s.vault.Info().value
              && (!s.readOnly ==> AfterRefresh in l.saves)
  {
    SectionTells(s, l, t, op, Exit(true));
    hide Logged, LabelInv, TookReply;
  }

  /**
   * A refresh that fails leaves the user as it was but for the refresh token and its expiry, which
   * are those of an accepted reply where it has any; if they are new, it has tried to save them.
   */
  lemma FailedRefreshRotates(s: State, l: Log, t: Tid, op: Op)
    requires Logged(s, l) && RefreshOp(op) && PcOf(s, t) == Crit(op, Exit(false)) && !s.closed
    ensures l.accepted.None? ==> s.vault.Info() == s.hist.entry.info
    ensures l.accepted.Some? ==>
              && s.hist.entry.info.Some? && s.vault.Info().Some?
              && var r, before := l.accepted.value, s.hist.entry.info.value;
              && s.vault.Info().value == before.(
                   refreshToken := if r.refreshToken != "" then r.refreshToken else before.refreshToken,
                   refreshExpireTime := if r.refreshExpire != 0 then r.refreshExpire else before.refreshExpireTime)
              && (s.vault.Info().value != before ==> Rotation in l.saves)
  {
    SectionTells(s, l, t, op, Exit(false));
    hide Logged, LabelInv;
  }

  /**
   * A load that succeeds leaves the user of the file in memory and a new current context made
   * from that user; one that fails left everything as it was, or could make no context of what it read.
   */
  lemma LoadTakesFile(s: State, l: Log, t: Tid, forPrepare: bool, ok: bool)
    requires Logged(s, l) && PcOf(s, t) == Crit(Load(forPrepare), Exit(ok))
    ensures l.loaded.Some? ==> s.vault.Info().Some? && TookFile(s.vault.Info().value, l.loaded.value)
    ensures ok ==>
              && l.loaded.Some? && s.protoCtx.Some? && s.protoCtx != s.hist.entry.protoCtx
              && s.protoCtx.value in l.built && Some(l.built[s.protoCtx.value]) == s.vault.Info()
    ensures !ok && l.loaded.None? ==>
              && s.vault.ui == s.hist.entry.ui && s.vault.Info() == s.hist.entry.info
              && s.protoCtx == s.hist.entry.protoCtx
    ensures !ok && l.loaded.Some? ==> s.protoCtx == s.hist.entry.protoCtx
  {
    SectionTells(s, l, t, Load(forPrepare), Exit(ok));
    hide Logged, LabelInv, TookFile;
  }

  /** A login that succeeds has a context made from the user logged in. */
  lemma LoginContext(s: State, l: Log, t: Tid, u: UiRef, device: bool)
    requires Logged(s, l) && PcOf(s, t) == Crit(Login(u, device), Exit(true))
    ensures s.protoCtx.Some? && s.protoCtx.value in l.built && Some(l.built[s.protoCtx.value]) == s.vault.Info()
  {
    SectionTells(s, l, t, Login(u, device), Exit(true));
    hide Logged, LabelInv;
  }

  /** A profile is asked for exactly if its login is still in force. */
  lemma ProfileAskedFor(s: State, l: Log, t: Tid, u: UiRef, ok: bool)
    requires Logged(s, l) && PcOf(s, t) == Crit(FetchStart(u), Exit(ok)) && !s.closed
    ensures ok <==> s.vault.ui == Some(u)
  {
    SectionTells(s, l, t, FetchStart(u), Exit(ok));
    hide Logged, LabelInv;
  }

  /**
   * A profile reply in time is taken into the user in memory, field by field, and a save has been
   * tried; the context is made from that user, or is still the one before.
   */
  lemma ProfileTaken(s: State, l: Log, t: Tid, u: UiRef, p: Profile, ok: bool)
    requires Logged(s, l) && PcOf(s, t) == Crit(FetchApply(u, p), Exit(ok))
    ensures ok ==>
              && s.hist.entry.info.Some? && s.vault.Info().Some?
              && TookProfile(s.vault.Info().value, s.hist.entry.info.value, p) && ForFetch in l.saves
    ensures ok && s.protoCtx != s.hist.entry.protoCtx ==>
              s.protoCtx.Some? && s.protoCtx.value in l.built && Some(l.built[s.protoCtx.value]) == s.vault.Info()
    ensures !ok ==> s.closed || s.vault.ui != Some(u)
  {
    SectionTells(s, l, t, FetchApply(u, p), Exit(ok));
    hide Logged, LabelInv, TookProfile;
  }

  /** No context is ever made for a user without runtime fields. */
  lemma ContextsHaveFields(s: State, l: Log, c: CtxId)
    requires Logged(s, l) && c in s.contexts
    ensures c in l.built && l.built[c].encryptUserInfo != "" && l.built[c].key != ""
  {
    LoggedInv(s, l);
    hide Logged, Inv;
  }

  /** A request is prepared only after a section of the same goroutine that ended well. */
  lemma PreparedOnlyAfterSuccess(s: State, l: Log, t: Tid)
    requires Logged(s, l) && (PcOf(s, t).WantRead? || PcOf(s, t).ReadCheck? || PcOf(s, t).Using?)
    ensures t in l.passed
  {
    LoggedInv(s, l);
    hide Logged, Inv;
  }

  /** What follows a section: a prepare goes on exactly if it succeeded, a device login asks for the profile. */
  lemma ExitLeads(s: State, t: Tid, op: Op, ok: bool, ch: Choice)
    requires PcOf(s, t) == Crit(op, Exit(ok))
    ensures var next := PcOf(Next(s, t, ch), t);
      && (op in {EnsureFresh(true), Load(true)} ==> (next == WantRead <==> ok))
      && (forall u :: op == Login(u, true) && ok ==> next == WantMu(FetchStart(u)))
      && (forall u :: op == FetchStart(u) && ok ==> next == ProfileCall(u))
      && (!ok ==> next == Idle) && (next.Idle? || next.WantRead? || next.WantMu? || next.ProfileCall?)
      && Next(s, t, ch).mu.None?
  {}

  /**
   * How a goroutine gets to a section from outside: a prepare is refused exactly when the manager
   * is closed, and loads or ensures freshness otherwise; a login reply is the candidate of a login, a
   * profile reply is applied to the login it was asked for, a failed one is forgotten.
   */
  lemma OutsideLeads(s: State, t: Tid, ch: Choice)
    ensures var next := PcOf(Next(s, t, ch), t);
      && (PcOf(s, t) == PrepareEntry && s.ctxWriter.None? ==>
            next == if s.closed then Idle else WantMu(if s.readOnly then Load(true) else EnsureFresh(true)))
      && (forall u :: PcOf(s, t) == ProfileCall(u) ==>
            next == if ch.ok then WantMu(FetchApply(u, ch.profile)) else Idle)
      && (forall d :: PcOf(s, t) == LoginPoll(d) && ch.name !in s.vault.records ==>
            next == (if ch.ok then WantMu(Login(ch.name, d)) else Idle)
            && (ch.ok ==> Next(s, t, ch).vault.records == s.vault.records[ch.name := ch.info]))
      && (PcOf(s, t) == Idle && s.boot.Ready? ==>
            && (ch.start.StartPrepare? ==> next == PrepareEntry)
            && (ch.start.StartForce? ==> next == WantMu(if s.readOnly then Load(false) else ForceRefresh))
            && (ch.start.StartClose? ==> (next == WantMu(CloseManager) <==> s.once.NotRun?)))
  {}

  /** A prepare that has come so far uses the current context exactly if there is one and the manager is open. */
  lemma PrepareUses(s: State, l: Log, t: Tid, ch: Choice)
    requires Logged(s, l) && PcOf(s, t) == ReadCheck
    ensures PcOf(Next(s, t, ch), t)
         == if s.closed || s.protoCtx.None? then EndRead else Using(s.protoCtx.value)
  {
    LoggedInv(s, l);
    NotEnded(s, t);
    hide Logged, Inv, LogInv;
  }

  lemma NotEnded(s: State, t: Tid)
    requires Inv(s) && PcOf(s, t).ReadCheck?
    ensures s.protoCtx.Some? ==> s.protoCtx.value in s.contexts && s.contexts[s.protoCtx.value].ended == 0
  {}

  /** A read-only manager only loads and closes; a writable one prepares by ensureFresh, never by a load. */
  lemma ReadOnlyOnlyLoads(s: State, l: Log, t: Tid, op: Op)
    requires Logged(s, l) && (PcOf(s, t) == WantMu(op) || (PcOf(s, t).Crit? && PcOf(s, t).op == op))
    ensures s.readOnly ==> op.Load? || op.CloseManager?
    ensures !s.readOnly ==> op != Load(true)
  {
    LoggedInv(s, l);
    hide Logged, Inv, VisitLogged, ReportLogged, BuiltLogged, PassedLogged;
  }

  /** Close has tried to save what was unsaved before it lets mu go. */
  lemma CloseTriesToSave(s: State, l: Log, t: Tid, f: bool, c: CloseAt)
    requires Logged(s, l) && PcOf(s, t) == Crit(CloseManager, ClosingDown(f, c))
    ensures s.hist.entry.dirty && !s.readOnly ==> ForClose in l.saves
  {
    SectionTells(s, l, t, CloseManager, ClosingDown(f, c));
    hide Logged, LabelInv;
  }

  /** Close reports an error only if the user is left unsaved or closing the context failed, and in that case does. */
  lemma CloseFailsRightly(s: State, l: Log)
    requires Logged(s, l) && s.once.Done?
    ensures s.once.failed ==> s.vault.dirty || l.closeFailed
    ensures l.closeFailed ==> s.once.failed
  {
    LoggedInv(s, l);
    hide Logged, Inv, VisitLogged, OpsAllowed, BuiltLogged, PassedLogged;
  }
}
