/**
 * What an onlooker notes down while the authentication manager runs: the clock a critical
 * section reads, the reply it accepts, the file it loads, the saves it tries, and what every
 * context was made from.  The notes are taken from the states and outcomes alone; no step
 * of the manager reads them.
 */
module AuthLog {
  import opened Basics
  import opened AuthModel

  /** The first six fields are about the critical section under way, the others about the whole run. */
  datatype Log = Log(due: bool, clock: Option<int>, accepted: Option<Reply>, fields: Option<(string, string)>,
                     loaded: Option<UserInfo>, saves: set<SaveFor>,
                     built: map<CtxId, UserInfo>, passed: set<Tid>, closeFailed: bool)

  const BLANK := Log(false, None, None, None, None, {}, map[], {}, false)

  /** The log after a step of `t` from `s` to `s2`. */
  function Noted(l: Log, s: State, s2: State, t: Tid, ch: Choice): Log {
    match PcOf(s, t)
    case WantMu(_) =>
      if PcOf(s2, t).Crit?
      then l.(due := false, clock := None, accepted := None, fields := None, loaded := None, saves := {}) else l
    case Crit(op, at) => if PcOf(s2, t) == PcOf(s, t) then l else NotedAt(l, s, at, t, ch, PcOf(s2, t))
    case CloseCurrent(Some(_), true, _) => if PcOf(s2, t) != PcOf(s, t) && !ch.ok then l.(closeFailed := true) else l
    case _ => l
  }

  function NotedAt(l: Log, s: State, at: Label, t: Tid, ch: Choice, pc: Pc): Log {
    match at
    case Entry => l.(due := ch.due)
    case LoadRead => if pc.Crit? && pc.at.Building? then l.(loaded := s.vault.file) else l
    case Refreshing(r) =>
      if r.Decide? then l.(clock := Some(ch.now))
      else if r.RefreshCall? && pc.Crit? && pc.at.Refreshing? then l.(accepted := Some(ch.reply))
      else if r.RefreshFields? && ch.ok && ch.encryptUserInfo != "" && ch.key != "" then
        l.(fields := Some((ch.encryptUserInfo, ch.key)))
      else l
    case Building(u, _, BuildNew) =>
      if u !in s.vault.records then l
      else if pc.Crit? && pc.at.LoggingIn? then l.(built := l.built[pc.at.next := s.vault.records[u]])
      else if pc.Crit? && pc.at.Building? && pc.at.b.ReplaceLock? then
        l.(built := l.built[pc.at.b.next := s.vault.records[u]])
      else l
    case Saving(k, SaveCheck) => l.(saves := l.saves + {k})
    case Exit(ok) => l.(passed := if ok then l.passed + {t} else l.passed - {t})
    case _ => l
  }

  /** The log of a run. */
  function LogOf(l: Log, s: State, moves: Schedule): Log
    decreases |moves|
  {
    if moves == [] then l
    else
      var (t, ch) := moves[0];
      LogOf(Noted(l, s, Next(s, t, ch), t, ch), Next(s, t, ch), moves[1..])
  }

  // ---------- what is noted at each point ----------

  /** The access token is good for another hour, or for ever. */
  predicate FreshAt(u: UserInfo, now: int) { u.expireTime == 0 || now + 3600 <= u.expireTime }

  predicate Refreshable(u: UserInfo, now: int) { u.refreshExpireTime == 0 || now <= u.refreshExpireTime }

  function Before(s: State): Option<UserInfo> { s.hist.entry.info }

  /** The refresh was called for: by force, or the clock found the token stale and the refresh token not. */
  predicate CalledFor(l: Log, s: State, op: Op) {
    op.EnsureFresh? ==>
      && Before(s).Some? && l.clock.Some?
      && !FreshAt(Before(s).value, l.clock.value) && Refreshable(Before(s).value, l.clock.value)
  }

  /** What an earlier section could not save was tried again first, if it was due. */
  predicate SavedFirst(l: Log, s: State) {
    l.due && s.hist.entry.dirty && !s.readOnly ==> Pending in l.saves
  }

  /** The record of a refresh: the tokens and expiries of the reply, where it has any, everything else as before. */
  predicate TookReply(u: UserInfo, before: UserInfo, r: Reply) {
    && u.securityToken == r.token && u.accessToken == r.token && u.expireTime == r.expireTime
    && u.refreshToken == (if r.refreshToken != "" then r.refreshToken else before.refreshToken)
    && u.refreshExpireTime == (if r.refreshExpire != 0 then r.refreshExpire else before.refreshExpireTime)
    && u.profile == before.profile
  }

  /** The runtime fields are those made for the refresh if both were, else those there were, if there were any. */
  predicate TookFields(l: Log, u: UserInfo, before: UserInfo) {
    && (l.fields.Some? ==> u.encryptUserInfo == l.fields.value.0 && u.key == l.fields.value.1)
    && (l.fields.Some? ==> HasFields(u))
    && (l.fields.None? && HasFields(before) ==> u.encryptUserInfo == before.encryptUserInfo && u.key == before.key)
  }

  predicate SameFields(l: Log, u: UserInfo, before: UserInfo) {
    l.fields.None? && u.encryptUserInfo == before.encryptUserInfo && u.key == before.key
  }

  /** The record of a load: the file, with runtime fields made where it lacks them. */
  predicate TookFile(u: UserInfo, file: UserInfo) {
    && u == file.(encryptUserInfo := u.encryptUserInfo, key := u.key)
    && (file.encryptUserInfo != "" && file.key != "" ==> u == file)
  }

  /** What a profile says replaces what was known, the organization as a whole. */
  predicate TookProfile(u: UserInfo, before: UserInfo, p: Profile) {
    && u == before.(profile := u.profile, encryptUserInfo := u.encryptUserInfo, key := u.key)
    && u.profile.uid == (if p.uid != "" then p.uid else before.profile.uid)
    && u.profile.name == (if p.name != "" then p.name else before.profile.name)
    && u.profile.email == (if p.email != "" then p.email else before.profile.email)
    && (p.orgId != "" ==> u.profile.orgId == p.orgId && u.profile.orgName == p.orgName)
    && (p.orgId == "" ==> u.profile.orgId == before.profile.orgId && u.profile.orgName == before.profile.orgName)
    && u.profile.orgTags == (if p.orgTags != [] then p.orgTags else before.profile.orgTags)
  }

  predicate BuiltFrom(l: Log, c: Option<CtxId>, u: UserInfo) {
    c.Some? && c.value in l.built && l.built[c.value] == u
  }

  predicate BuiltFromUser(l: Log, s: State) { s.vault.Info().Some? && BuiltFrom(l, s.protoCtx, s.vault.Info().value) }

  predicate HasFields(u: UserInfo) { u.encryptUserInfo != "" && u.key != "" }

  /** The new context is made, and was made, from the record, which has its runtime fields by then. */
  predicate BuiltAt(l: Log, s: State, u: UiRef, b: BuildAt) {
    && u in s.vault.records && (b.BuildNew? ==> HasFields(s.vault.records[u]))
    && (b.ReplaceLock? || b.ReplaceSwap? ==> BuiltFrom(l, Some(b.next), s.vault.records[u]))
    && (b.Replaced? ==> BuiltFrom(l, s.protoCtx, s.vault.records[u]))
  }

  predicate Renewing(l: Log, s: State, op: Op, u: UiRef, r: Reply) {
    && CalledFor(l, s, op) && SavedFirst(l, s) && Before(s).Some? && l.accepted == Some(r)
    && u in s.vault.records && TookReply(s.vault.records[u], Before(s).value, r)
  }

  predicate Granted(l: Log, s: State, op: Op) {
    && CalledFor(l, s, op) && SavedFirst(l, s) && Before(s).Some? && l.accepted.Some?
    && s.vault.Info().Some? && TookReply(s.vault.Info().value, Before(s).value, l.accepted.value)
    && TookFields(l, s.vault.Info().value, Before(s).value)
    && BuiltFromUser(l, s) && s.protoCtx != s.hist.entry.protoCtx
  }

  /** Nothing was accepted and nothing was needed. */
  predicate FoundFresh(l: Log, s: State, op: Op) {
    && op.EnsureFresh? && l.accepted.None? && SavedFirst(l, s)
    && l.clock.Some? && s.vault.Info().Some? && FreshAt(s.vault.Info().value, l.clock.value)
  }

  /** A reply whose access token came to nothing: its refresh token and that one's expiry are kept, nothing else. */
  predicate RotatedBy(u: UserInfo, before: UserInfo, r: Reply) {
    u == before.(refreshToken := if r.refreshToken != "" then r.refreshToken else before.refreshToken,
                 refreshExpireTime := if r.refreshExpire != 0 then r.refreshExpire else before.refreshExpireTime)
  }

  predicate Preserved(l: Log, s: State) {
    && l.accepted.Some? && Before(s).Some? && s.vault.Info().Some?
    && RotatedBy(s.vault.Info().value, Before(s).value, l.accepted.value)
  }

  /** Only who is not logged in or whose token is stale, or who insisted, is refused. */
  predicate RefusedRightly(l: Log, s: State, op: Op) {
    && SavedFirst(l, s)
    && (op.EnsureFresh? ==>
          Before(s).None? || (l.clock.Some? && !FreshAt(Before(s).value, l.clock.value)))
    && (l.accepted.None? ==> s.vault.Info() == Before(s))
    && (l.accepted.Some? ==> Preserved(l, s) && (s.vault.Info() != Before(s) ==> Rotation in l.saves))
  }

  predicate RefreshVisit(l: Log, s: State, op: Op, at: Label) {
    match at
    case Entry => l.saves == {} && l.clock.None? && l.accepted.None? && l.fields.None?
    case Saving(k, a) =>
      && (!a.SaveCheck? ==> k in l.saves)
      && (match k
          case Pending => l.clock.None? && l.accepted.None? && l.fields.None?
          case AfterRefresh => Granted(l, s, op)
          case Rotation => CalledFor(l, s, op) && SavedFirst(l, s) && Preserved(l, s)
          case _ => false)
    case Refreshing(r) =>
      && SavedFirst(l, s)
      && (match r
          case Decide => l.clock.None? && l.accepted.None? && l.fields.None?
          case RefreshCheck => CalledFor(l, s, op) && l.accepted.None? && l.fields.None?
          case RefreshCall =>
            && CalledFor(l, s, op) && l.accepted.None? && l.fields.None?
            && s.vault.Info().Some? && s.vault.Info().value.refreshToken != ""
          case RefreshFields(u, reply) =>
            Renewing(l, s, op, u, reply) && SameFields(l, s.vault.records[u], Before(s).value)
          case Preserve(reply) =>
            CalledFor(l, s, op) && Before(s).Some? && s.vault.Info() == Before(s) && l.accepted == Some(reply))
    case Building(u, j, b) =>
      && j.ForRefresh? && Renewing(l, s, op, u, j.reply) && BuiltAt(l, s, u, b)
      && TookFields(l, s.vault.records[u], Before(s).value)
    case Closing(_, _, k) =>
      && k.AfterReplace? && k.job.ForRefresh?
      && Renewing(l, s, op, k.user, k.job.reply) && BuiltAt(l, s, k.user, Replaced)
      && TookFields(l, s.vault.records[k.user], Before(s).value)
    case Exit(ok) =>
      if ok then FoundFresh(l, s, op) || (Granted(l, s, op) && (!s.readOnly ==> AfterRefresh in l.saves))
      else s.closed || RefusedRightly(l, s, op)
    case _ => false
  }

  predicate Loaded(l: Log, s: State, u: UiRef) {
    l.loaded.Some? && s.vault.ui == Some(u) && u in s.vault.records && TookFile(s.vault.records[u], l.loaded.value)
  }

  predicate LoadVisit(l: Log, s: State, at: Label) {
    match at
    case Entry => l.loaded.None?
    case LoadRead => l.loaded.None?
    case Building(u, j, b) =>
      && j.Rebuild? && Loaded(l, s, u) && BuiltAt(l, s, u, b)
      && (b.Replaced? <==> s.protoCtx != s.hist.entry.protoCtx)
    case Closing(_, _, k) =>
      k.AfterReplace? && k.job.Rebuild? && Loaded(l, s, k.user) && BuiltAt(l, s, k.user, Replaced)
      && s.protoCtx != s.hist.entry.protoCtx
    case Exit(ok) =>
      if ok then l.loaded.Some? && s.vault.Info().Some? && TookFile(s.vault.Info().value, l.loaded.value)
                 && BuiltFromUser(l, s) && s.protoCtx != s.hist.entry.protoCtx
      else
        && (l.loaded.None? ==> Snap(s).(file := s.hist.entry.file) == s.hist.entry)
        && (l.loaded.Some? ==>
              && s.vault.Info().Some? && TookFile(s.vault.Info().value, l.loaded.value)
              && s.protoCtx == s.hist.entry.protoCtx)
    case _ => false
  }

  predicate LoginVisit(l: Log, s: State, op: Op, at: Label)
    requires op.Login?
  {
    match at
    case Building(u, _, b) => BuiltAt(l, s, u, b)
    case LoggingIn(c, _) => op.candidate in s.vault.records && BuiltFrom(l, Some(c), s.vault.records[op.candidate])
    case Closing(_, _, AfterLogin) => BuiltFromUser(l, s)
    case Exit(ok) => ok ==> BuiltFromUser(l, s)
    case _ => true
  }

  predicate Profiled(s: State, p: Profile) {
    Before(s).Some? && s.vault.Info().Some? && TookProfile(s.vault.Info().value, Before(s).value, p)
  }

  predicate ContextBuilt(l: Log, s: State) { s.protoCtx == s.hist.entry.protoCtx || BuiltFromUser(l, s) }

  predicate ApplyVisit(l: Log, s: State, op: Op, at: Label)
    requires op.FetchApply?
  {
    match at
    case Entry => l.saves == {}
    case Building(u, j, b) =>
      && j.Rebuild? && Profiled(s, op.profile) && BuiltAt(l, s, u, b)
      && (!b.Replaced? ==> s.protoCtx == s.hist.entry.protoCtx)
    case Closing(_, _, k) =>
      k.AfterReplace? && k.job.Rebuild? && Profiled(s, op.profile) && BuiltAt(l, s, k.user, Replaced)
    case Saving(k, a) => Profiled(s, op.profile) && ContextBuilt(l, s) && (!a.SaveCheck? ==> k in l.saves)
    case Exit(ok) =>
      if ok then Profiled(s, op.profile) && ContextBuilt(l, s) && ForFetch in l.saves
      else s.closed || s.vault.ui != Some(op.target)
    case _ => false
  }

  predicate CloseVisit(l: Log, s: State, at: Label) {
    match at
    case Entry => l.saves == {}
    case Saving(k, a) => !s.readOnly && s.vault.dirty && (!a.SaveCheck? ==> k in l.saves)
    case ClosingDown(f, c) =>
      (s.hist.entry.dirty && !s.readOnly ==> ForClose in l.saves) && (f ==> s.vault.dirty)
    case _ => true
  }

  predicate VisitAt(l: Log, s: State, op: Op, at: Label) {
    match op
    case EnsureFresh(_) => RefreshVisit(l, s, op, at)
    case ForceRefresh => RefreshVisit(l, s, op, at)
    case Load(_) => LoadVisit(l, s, at)
    case Login(_, _) => LoginVisit(l, s, op, at)
    case FetchStart(u) => at.Exit? ==> s.closed || at.ok == (s.vault.ui == Some(u))
    case FetchApply(_, _) => ApplyVisit(l, s, op, at)
    case CloseManager => CloseVisit(l, s, at)
  }
}
