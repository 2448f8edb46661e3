/** The inductive invariant of the authentication manager and its preservation by every step. */
module AuthInvariant {
  import opened Basics
  import opened AuthModel

  // ---------- who holds what ----------

  /** The context a thread at this point owns and has not begun to close. */
  function HeldAt(at: Label): Option<CtxId> {
    match at
    case Building(_, _, b) => if b.ReplaceLock? || b.ReplaceSwap? then Some(b.next) else None
    case Closing(c, begun, _) => if begun then None else Some(c)
    case LoggingIn(c, _) => Some(c)
    case ClosingDown(_, c) => if c.CloseRelease? then c.current else None
    case _ => None
  }

  function ClosingAt(at: Label): Option<CtxId> {
    if at.Closing? && at.begun then Some(at.ctx) else None
  }

  predicate HoldsWriteLock(at: Label) {
    match at
    case Building(_, _, b) => b.ReplaceSwap?
    case LoggingIn(_, l) => l.LoginPublish? || l.LoginAbort? || l.LoginSwap?
    case ClosingDown(_, c) => c.CloseTake?
    case _ => false
  }

  predicate Releasing(at: Label) {
    at.ClosingDown? && at.c.CloseRelease?
  }

  function Holder(s: State): Pc {
    if s.mu.Some? then PcOf(s, s.mu.value) else Idle
  }

  function Closer(s: State): Pc {
    if s.once.Running? then PcOf(s, s.once.owner) else Idle
  }

  /** The one context that is neither current nor closed nor being closed. */
  function Held(s: State): Option<CtxId> {
    var h, c := Holder(s), Closer(s);
    if h.Crit? && HeldAt(h.at).Some? then HeldAt(h.at)
    else if c.CloseCurrent? && !c.begun then c.current
    else None
  }

  /** The one context whose Close has begun and not ended. */
  function ClosingNow(s: State): Option<CtxId> {
    var h, c := Holder(s), Closer(s);
    if h.Crit? && ClosingAt(h.at).Some? then ClosingAt(h.at)
    else if c.CloseCurrent? && c.begun then c.current
    else None
  }

  function ExpectedCtx(s: State, c: CtxId): Ctx {
    if s.protoCtx == Some(c) || Held(s) == Some(c) then Ctx(0, 0)
    else if ClosingNow(s) == Some(c) then Ctx(1, 0)
    else Ctx(1, 1)
  }

  /** Every context ever made is current, or held by one thread, or closed exactly once. */
  ghost predicate Contexts(s: State) {
    && (forall c | c in s.contexts :: s.contexts[c] == ExpectedCtx(s, c))
    && (s.protoCtx.Some? ==> s.protoCtx.value in s.contexts && Held(s) != s.protoCtx && ClosingNow(s) != s.protoCtx)
    && (Held(s).Some? ==> Held(s).value in s.contexts)
    && (ClosingNow(s).Some? ==> ClosingNow(s).value in s.contexts)
  }

  predicate IsCloser(pc: Pc) {
    (pc.WantMu? && pc.op.CloseManager?) || (pc.Crit? && pc.op.CloseManager?) || pc.CloseCurrent?
  }

  ghost predicate Locks(s: State) {
    && (forall t | t in s.threads :: s.threads[t].Crit? ==> s.mu == Some(t))
    && (s.mu.Some? ==> Holder(s).Crit?)
    && (s.ctxWriter.Some? ==> s.mu == s.ctxWriter && HoldsWriteLock(Holder(s).at))
    && (s.mu.Some? && HoldsWriteLock(Holder(s).at) ==> s.ctxWriter.Some?)
    && (forall t | t in s.threads :: Reading(s.threads[t]) ==> s.ctxWriter.None?)
    && (forall t | t in s.threads :: s.threads[t].Using? ==> s.protoCtx == Some(s.threads[t].ctx))
  }

  /** Nothing is left to save. */
  predicate Saved(s: State) {
    s.readOnly || !s.vault.dirty || s.vault.ui.None?
  }

  ghost predicate Closers(s: State) {
    && (forall t | t in s.threads :: IsCloser(s.threads[t]) ==> s.once == Running(t))
    && (s.once.Running? ==> IsCloser(Closer(s)))
    && (s.closed ==> s.protoCtx.None?)
    && (s.closed <==> s.once.Done? || Closer(s).CloseCurrent? || (Closer(s).Crit? && Releasing(Closer(s).at)))
    && (s.once == Done(false) ==> Saved(s))
    && (Closer(s).CloseCurrent? && !Closer(s).failed ==> Saved(s))
  }

  /** The record a thread is still preparing and nobody else may touch. */
  function PendingRef(pc: Pc): Option<UiRef> {
    match pc
    case WantMu(op) => if op.Login? then Some(op.candidate) else None
    case Crit(op, at) =>
      if op.Login? then
        if at.Exit? || (at.Closing? && at.then_.AfterLogin?) then None else Some(op.candidate)
      else PendingAt(at)
    case _ => None
  }

  function PendingAt(at: Label): Option<UiRef> {
    match at
    case Refreshing(r) => if r.RefreshFields? then Some(r.user) else None
    case Building(u, j, _) => if j.ForRefresh? then Some(u) else None
    case Closing(_, _, k) => if k.AfterReplace? && k.job.ForRefresh? then Some(k.user) else None
    case _ => None
  }

  ghost predicate Refs(s: State) {
    && (s.vault.ui.Some? ==> s.vault.ui.value in s.vault.records)
    && (forall t | t in s.threads :: PendingRef(s.threads[t]).Some? ==>
          PendingRef(s.threads[t]).value in s.vault.records && s.vault.ui != PendingRef(s.threads[t]))
    && (forall t1, t2 | t1 in s.threads && t2 in s.threads && t1 != t2 :: PendingRef(s.threads[t1]).Some? ==>
          PendingRef(s.threads[t1]) != PendingRef(s.threads[t2]))
  }

  // ---------- what `mu` guards ----------

  /** The credential file holds the user in memory, unless the dirty flag says otherwise. */
  predicate Clean(s: State) {
    !s.readOnly && s.vault.ui.Some? && !s.vault.dirty ==> s.vault.file == s.vault.Info()
  }

  /** The user in memory carries the refresh token of the last accepted reply. */
  predicate TokenKept(s: State) {
    s.vault.Info().Some? ==> s.vault.Info().value.refreshToken == s.hist.issued
  }

  predicate SessionKept(s: State) {
    !s.closed ==> s.hist.good == (s.vault.Session(), s.protoCtx)
  }

  predicate Settled(s: State) {
    Clean(s) && TokenKept(s) && SessionKept(s)
  }

  /** The vault and the current context are as found on entry. Another program may meanwhile
      rewrite the file of a read-only manager. */
  predicate Unchanged(s: State) {
    Snap(s) == s.hist.entry || (s.readOnly && Snap(s).(file := s.hist.entry.file) == s.hist.entry)
  }

  /** The login in force and its context are those found on entry; the file may have been saved. */
  predicate SameLogin(s: State) {
    && s.vault.ui == s.hist.entry.ui && s.vault.Info() == s.hist.entry.info
    && s.protoCtx == s.hist.entry.protoCtx && s.hist.issued == s.hist.entry.issued
  }

  /** Only the rotating refresh token and its expiry differ from what was found on entry. */
  predicate OnlyRotated(s: State) {
    && s.vault.ui == s.hist.entry.ui && s.protoCtx == s.hist.entry.protoCtx
    && match (s.vault.Info(), s.hist.entry.info)
       case (Some(now), Some(before)) =>
         now == before.(refreshToken := now.refreshToken, refreshExpireTime := now.refreshExpireTime)
       case (None, None) => true
       case _ => false
  }

  predicate RefreshOp(op: Op) {
    op.EnsureFresh? || op.ForceRefresh?
  }

  /** An accepted refresh reply: the new token is issued but not yet stored. */
  predicate Accepted(s: State, op: Op, r: Reply) {
    && RefreshOp(op) && !s.readOnly && !s.closed && r.token != ""
    && s.vault.ui == s.hist.entry.ui && s.vault.Info() == s.hist.entry.info && s.protoCtx == s.hist.entry.protoCtx
    && s.vault.Info().Some? && s.hist.issued == Rotated(s.vault.Info().value.refreshToken, r)
    && Clean(s) && SessionKept(s)
  }

  predicate Candidate(s: State, u: UiRef, r: Reply) {
    && u in s.vault.records && s.vault.records[u].refreshToken == s.hist.issued
    && s.vault.records[u].securityToken == r.token && s.vault.records[u].accessToken == r.token
    && s.vault.records[u].expireTime == r.expireTime
    && (r.refreshExpire != 0 ==> s.vault.records[u].refreshExpireTime == r.refreshExpire)
  }

  predicate Swapped(s: State, op: Op, u: UiRef, r: Reply) {
    && RefreshOp(op) && !s.closed && Candidate(s, u, r)
    && s.protoCtx.Some? && s.protoCtx != s.hist.entry.protoCtx
    && Clean(s)
  }

  predicate Rebuilding(s: State, op: Op, u: UiRef) {
    && (op.Load? || (op.FetchApply? && op.target == u))
    && s.vault.ui == Some(u) && !s.closed && Clean(s) && TokenKept(s)
  }

  predicate LoginInv(s: State, op: Op) {
    op.Login? && !s.readOnly && !s.closed && Unchanged(s) && Settled(s)
  }

  predicate LoginDone(s: State, op: Op) {
    && op.Login? && !s.readOnly && !s.closed
    && s.vault.ui == Some(op.candidate) && !s.vault.dirty && s.vault.file == s.vault.Info()
    && s.protoCtx.Some? && s.protoCtx != s.hist.entry.protoCtx
    && TokenKept(s) && SessionKept(s)
  }

  predicate JobInv(s: State, op: Op, u: UiRef, j: Job) {
    match j
    case Rebuild => Rebuilding(s, op, u)
    case ForRefresh(r) => Accepted(s, op, r) && Candidate(s, u, r)
    case ForLogin => LoginInv(s, op) && u == op.candidate
  }

  predicate ReplacedInv(s: State, op: Op, u: UiRef, j: Job) {
    match j
    case Rebuild => Rebuilding(s, op, u)
    case ForRefresh(r) => Swapped(s, op, u, r)
    case ForLogin => false
  }

  predicate SaveInv(s: State, op: Op, k: SaveFor) {
    && !s.closed && Clean(s) && TokenKept(s)
    && match k
       case Pending => RefreshOp(op) && SameLogin(s) && SessionKept(s)
       case AfterRefresh => RefreshOp(op) && SessionKept(s) && s.protoCtx != s.hist.entry.protoCtx
       case Rotation => RefreshOp(op) && SessionKept(s) && OnlyRotated(s)
       case ForFetch => op.FetchApply? && s.vault.ui == Some(op.target)
       case ForClose => op.CloseManager? && SessionKept(s)
  }

  predicate ExitInv(s: State, op: Op, ok: bool) {
    && Clean(s) && TokenKept(s)
    && (s.closed ==> !ok && Unchanged(s))
    && match op
       case Load(_) => true
       case Login(u, _) => SessionKept(s) && (if ok then LoginDone(s, op) else Unchanged(s))
       case FetchStart(u) => SessionKept(s) && Unchanged(s) && (ok ==> s.vault.ui == Some(u))
       case FetchApply(u, _) => if ok then s.vault.ui == Some(u) else Unchanged(s)
       case CloseManager => false
       case _ => SessionKept(s) && (!ok ==> OnlyRotated(s))
  }

  predicate CloseInv(s: State, op: Op, failed: bool) {
    op.CloseManager? && Clean(s) && TokenKept(s) && (!failed ==> Saved(s))
  }

  /** The staged file that exists while a thread is at this point. */
  function TempAt(at: Label): Option<TempId> {
    match at
    case Saving(_, a) => if a.SaveCheck? || a.SaveStage? then None else Some(a.temp)
    case LoggingIn(_, l) => if l.LoginCheck? || l.LoginStage? || l.LoginSwap? then None else Some(l.temp)
    case Closing(_, _, k) => if k.AfterLoginReject? then k.staged else None
    case Discarding(tmp) => Some(tmp)
    case _ => None
  }

  /** The staged files are exactly the one given. */
  predicate Staged(v: Vault, temp: Option<TempId>) {
    v.temps.Keys == match temp case Some(tmp) => {tmp} case None => {}
  }

  /** What holds at each point of a critical section. */
  predicate LabelInv(s: State, op: Op, at: Label) {
    Staged(s.vault, TempAt(at)) && PointInv(s, op, at)
  }

  predicate PointInv(s: State, op: Op, at: Label) {
    match at
    case Entry => Unchanged(s) && Settled(s)
    case LoadRead => op.Load? && !s.closed && Unchanged(s) && Settled(s)
    case Refreshing(r) => RefreshPoint(s, op, r)
    case Building(u, j, b) =>
      if b.Replaced? then ReplacedInv(s, op, u, j)
      else JobInv(s, op, u, j) && (b.ReplaceLock? || b.ReplaceSwap? ==> !j.ForLogin?)
    case Closing(_, _, k) => ClosingInv(s, op, k)
    case Saving(k, a) => SavePoint(s, op, k, a)
    case LoggingIn(_, l) => LoginPoint(s, op, l)
    case Discarding(_) => LoginInv(s, op)
    case ClosingDown(f, c) => CloseInv(s, op, f) && s.closed == c.CloseRelease? && SessionKept(s)
    case Exit(ok) => ExitInv(s, op, ok)
  }

  predicate RefreshPoint(s: State, op: Op, r: RefreshAt) {
    match r
    case RefreshFields(u, reply) => Accepted(s, op, reply) && Candidate(s, u, reply)
    case Preserve(reply) => Accepted(s, op, reply)
    case _ => BeforeRefresh(s, op) && (r.RefreshCall? ==> !s.readOnly && s.vault.Info().Some?)
  }

  predicate SavePoint(s: State, op: Op, k: SaveFor, a: SaveAt) {
    && SaveInv(s, op, k)
    && (!a.SaveCheck? ==> !s.readOnly && s.vault.dirty && s.vault.ui.Some?)
    && (a.SavePublish? ==> a.temp in s.vault.temps && s.vault.temps[a.temp] == s.vault.Info())
  }

  predicate LoginPoint(s: State, op: Op, l: LoginAt) {
    if l.LoginSwap? then LoginPublished(s, op)
    else LoginInv(s, op) && (l.LoginLock? || l.LoginPublish? ==> LoginStaged(s, op, l.temp))
  }

  predicate BeforeRefresh(s: State, op: Op) {
    RefreshOp(op) && !s.closed && SameLogin(s) && Settled(s)
  }

  predicate ClosingInv(s: State, op: Op, k: Then) {
    match k
    case AfterReject(_) => false
    case AfterReplace(u, j) => ReplacedInv(s, op, u, j)
    case AfterLoginReject(_) => LoginInv(s, op)
    case AfterLogin => LoginDone(s, op)
  }

  predicate LoginStaged(s: State, op: Op, tmp: TempId) {
    op.Login? && op.candidate in s.vault.records && tmp in s.vault.temps
    && s.vault.temps[tmp] == Some(s.vault.records[op.candidate])
  }

  /** Between the rename and the swap: the file is the candidate's, memory is still the old login's. */
  predicate LoginPublished(s: State, op: Op) {
    && op.Login? && !s.readOnly && !s.closed
    && op.candidate in s.vault.records && s.vault.file == Some(s.vault.records[op.candidate])
    && Snap(s).(file := s.hist.entry.file) == s.hist.entry
    && TokenKept(s) && SessionKept(s)
  }

  ghost predicate Guarded(s: State) {
    if s.mu.Some? then Holder(s).Crit? && LabelInv(s, Holder(s).op, Holder(s).at)
    else Settled(s) && Staged(s.vault, None)
  }

  /** Locks, closing, ownership: everything that does not look at the guarded data. */
  ghost predicate Shape(s: State) {
    Locks(s) && Closers(s) && Contexts(s) && Refs(s)
  }

  predicate ReadOnlyKept(s: State) {
    s.readOnly ==> !s.vault.dirty && s.hist.writes == 0
  }

  ghost predicate Inv(s: State) {
    Shape(s) && ReadOnlyKept(s) && Guarded(s)
  }

  lemma InvInit(readOnly: bool, file: Option<UserInfo>)
    ensures Inv(Init(readOnly, file))
  {
  }
}
