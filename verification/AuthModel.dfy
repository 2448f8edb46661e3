/** The authentication manager as a transition system (auth.go, native_context.go).

    Every goroutine is a thread with a program counter. One step takes or frees one lock,
    or performs one file action, one network call, one context construction or one half of
    a context's Close. Everything the code does between two such points touches only data
    guarded by a lock the thread already holds, so it is part of the neighbouring step.

    A step is a total function of the state, the thread and a `Choice` that supplies every
    nondeterministic outcome. A step whose lock is not free, or whose fresh name is taken,
    leaves the state as it is. */
module AuthModel {
  import opened Basics

  type Tid = nat
  type CtxId = nat
  type UiRef = nat
  type TempId = nat

  const REFRESH_SKEW := 3600

  datatype Profile = Profile(uid: string, name: string, email: string,
                             orgId: string, orgName: string, orgTags: seq<string>)

  datatype UserInfo = UserInfo(profile: Profile,
                               securityToken: string, accessToken: string,
                               refreshToken: string,
                               expireTime: int, refreshExpireTime: int,
                               encryptUserInfo: string, key: string)

  /** A decoded refresh reply; the two expiries are already parsed, 0 when absent. */
  datatype Reply = Reply(token: string, refreshToken: string, expireTime: int, refreshExpire: int)

  /** A context made by the factory: how often its Close was called and how often it returned. */
  datatype Ctx = Ctx(begun: nat, ended: nat)

  datatype Op =
    | EnsureFresh(forPrepare: bool)
    | ForceRefresh
    | Load(forPrepare: bool)
    | Login(candidate: UiRef, device: bool)
    | FetchStart(target: UiRef)
    | FetchApply(target: UiRef, profile: Profile)
    | CloseManager

  /** Who asked for a context to be built. */
  datatype Job = Rebuild | ForRefresh(reply: Reply) | ForLogin

  /** Who asked for the credentials to be saved. */
  datatype SaveFor = Pending | AfterRefresh | Rotation | ForFetch | ForClose

  /** What follows once a context has been closed under `mu`. */
  datatype Then =
    | AfterReject(job: Job)
    | AfterReplace(user: UiRef, job: Job)
    | AfterLoginReject(staged: Option<TempId>)
    | AfterLogin

  /** Program points inside a `mu` critical section, by the function they belong to. */
  datatype RefreshAt =
    | Decide | RefreshCheck | RefreshCall | RefreshFields(user: UiRef, reply: Reply) | Preserve(reply: Reply)

  datatype BuildAt =
    | BuildCheck | BuildFields | BuildNew | ReplaceLock(next: CtxId) | ReplaceSwap(next: CtxId) | Replaced

  datatype SaveAt =
    | SaveCheck | SaveStage | SaveWrite(temp: TempId) | SavePublish(temp: TempId) | SaveDiscard(temp: TempId)

  datatype LoginAt =
    | LoginCheck | LoginStage | LoginWrite(temp: TempId) | LoginUnstage(temp: TempId)
    | LoginLock(temp: TempId) | LoginPublish(temp: TempId) | LoginAbort(temp: TempId) | LoginSwap

  datatype CloseAt = CloseLock | CloseTake | CloseRelease(current: Option<CtxId>)

  datatype Label =
    | Entry
    | LoadRead
    | Refreshing(r: RefreshAt)
    | Building(user: UiRef, job: Job, b: BuildAt)
    | Closing(ctx: CtxId, begun: bool, then_: Then)
    | Saving(save: SaveFor, a: SaveAt)
    | LoggingIn(next: CtxId, l: LoginAt)
    | Discarding(temp: TempId)
    | ClosingDown(failed: bool, c: CloseAt)
    | Exit(ok: bool)

  datatype Pc =
    | Idle
    | PrepareEntry
    | LoginPoll(device: bool)
    | WantMu(op: Op)
    | Crit(op: Op, at: Label)
    | ProfileCall(target: UiRef)
    | WantRead | ReadCheck | Using(ctx: CtxId) | EndRead
    | CloseCurrent(current: Option<CtxId>, begun: bool, failed: bool)

  datatype Start = StartPrepare | StartForce | StartLogin(device: bool) | StartLoad | StartClose | ExternalWrite

  /** Every nondeterministic outcome a single step can need. */
  datatype Choice = Choice(ok: bool, due: bool, now: int, name: nat, start: Start, reply: Reply,
                           encryptUserInfo: string, key: string, info: UserInfo, profile: Profile)

  datatype Once = NotRun | Running(owner: Tid) | Done(failed: bool)

  datatype Boot = Fresh | Loading | Ready

  /** What the single-use refresh token does not touch: the part a failed refresh must keep. */
  datatype Session = Session(securityToken: string, accessToken: string, expireTime: int,
                             encryptUserInfo: string, key: string)

  /** What `mu` guards: the user records, which one is logged in, the dirty flag and the files. */
  datatype Vault = Vault(records: map<UiRef, UserInfo>, ui: Option<UiRef>, dirty: bool,
                         file: Option<UserInfo>, temps: map<TempId, Option<UserInfo>>)
  {
    function Info(): Option<UserInfo> {
      if ui.Some? && ui.value in records then Some(records[ui.value]) else None
    }

    function Session(): Option<Session> {
      match Info() case Some(u) => Some(SessionOf(u)) case None => None
    }
  }

  /** The vault and the current context when `mu` was last taken. */
  datatype Snapshot = Snapshot(ui: Option<UiRef>, info: Option<UserInfo>, file: Option<UserInfo>,
                               dirty: bool, protoCtx: Option<CtxId>, issued: string)

  /** A refresh token the server sent, whether an access token came with it, and the refresh token
      that was held when it came. */
  datatype Offer = Offer(token: string, access: bool, held: string)

  /** History variables; no step reads them. For the login in force, `issued` is the refresh token
      after the last accepted reply, one with an access token, and `offer` the last refresh token
      in any reply, accepted or not. `good` is the session and context of the last operation that
      was not a failed refresh, `writes` counts the renames onto the credential file. */
  datatype History = History(entry: Snapshot, issued: string, offer: Option<Offer>,
                             good: (Option<Session>, Option<CtxId>), writes: nat)

  datatype State = State(
    readOnly: bool, boot: Boot,
    mu: Option<Tid>, ctxWriter: Option<Tid>, once: Once, closed: bool, protoCtx: Option<CtxId>,
    contexts: map<CtxId, Ctx>,
    vault: Vault, hist: History,
    threads: map<Tid, Pc>)

  // ---------- helpers ----------

  function PcOf(s: State, t: Tid): Pc {
    if t in s.threads then s.threads[t] else Idle
  }

  function Go(s: State, t: Tid, pc: Pc): State {
    s.(threads := s.threads[t := pc])
  }

  function SessionOf(u: UserInfo): Session {
    Session(u.securityToken, u.accessToken, u.expireTime, u.encryptUserInfo, u.key)
  }

  function Snap(s: State): Snapshot {
    Snapshot(s.vault.ui, s.vault.Info(), s.vault.file, s.vault.dirty, s.protoCtx, s.hist.issued)
  }

  predicate Reading(pc: Pc) {
    pc.ReadCheck? || pc.Using? || pc.EndRead?
  }

  /** ctxMu can be taken for writing: no reader and no writer. */
  predicate WriteLockFree(s: State) {
    s.ctxWriter.None? && forall t | t in s.threads :: !Reading(s.threads[t])
  }

  predicate NobodyUses(s: State, c: CtxId) {
    forall t | t in s.threads :: s.threads[t] != Using(c)
  }

  function ApplyProfile(p: Profile, q: Profile): Profile {
    Profile(if q.uid != "" then q.uid else p.uid,
            if q.name != "" then q.name else p.name,
            if q.email != "" then q.email else p.email,
            if q.orgId != "" then q.orgId else p.orgId,
            if q.orgId != "" then q.orgName else p.orgName,
            if |q.orgTags| > 0 then q.orgTags else p.orgTags)
  }

  function Rotated(previous: string, r: Reply): string {
    if r.refreshToken != "" then r.refreshToken else previous
  }

  /** The last offer after a reply that met the refresh token `held`. */
  function Offered(previous: Option<Offer>, held: string, r: Reply): Option<Offer> {
    if r.refreshToken == "" then previous else Some(Offer(r.refreshToken, r.token != "", held))
  }

  /** The candidate of a refresh before its runtime fields are generated. */
  function Renewed(u: UserInfo, r: Reply): UserInfo {
    u.(securityToken := r.token, accessToken := r.token,
       refreshToken := Rotated(u.refreshToken, r),
       expireTime := r.expireTime,
       refreshExpireTime := if r.refreshExpire != 0 then r.refreshExpire else u.refreshExpireTime)
  }

  // ---------- continuations ----------

  function AfterSave(k: SaveFor, ok: bool): Label {
    match k
    case Pending => Refreshing(Decide)
    case AfterRefresh => Exit(true)
    case Rotation => Exit(false)
    case ForFetch => Exit(true)
    case ForClose => ClosingDown(!ok, CloseLock)
  }

  /** persistDirtyCredentialLocked: nothing to do unless writable and dirty. */
  function PersistDirty(readOnly: bool, dirty: bool, k: SaveFor): Label {
    if readOnly || !dirty then AfterSave(k, true) else Saving(k, SaveCheck)
  }

  /** Building or installing the context for a job failed. */
  function BuildFailed(op: Op, j: Job): Label {
    match j
    case Rebuild => if op.FetchApply? then Saving(ForFetch, SaveCheck) else Exit(false)
    case ForRefresh(r) => Refreshing(Preserve(r))
    case ForLogin => Exit(false)
  }

  function AfterClose(op: Op, k: Then): Label {
    match k
    case AfterReject(j) => BuildFailed(op, j)
    case AfterReplace(u, j) => Building(u, j, Replaced)
    case AfterLoginReject(staged) => if staged.Some? then Discarding(staged.value) else Exit(false)
    case AfterLogin => Exit(true)
  }

  // ---------- work under `mu`: only the vault changes ----------

  datatype Work = Work(vault: Vault, hist: History, next: Label)

  /** closedStateError: the point reads `closed` under ctxMu.RLock. */
  predicate ReadsClosed(op: Op, at: Label) {
    match at
    case Entry => !op.CloseManager?
    case Refreshing(r) => r.RefreshCheck?
    case Building(_, _, b) => b.BuildCheck?
    case Saving(_, a) => a.SaveCheck?
    case LoggingIn(_, l) => l.LoginCheck?
    case _ => false
  }

  predicate IsWork(at: Label) {
    match at
    case Building(_, _, b) => b.BuildCheck? || b.BuildFields? || b.Replaced?
    case LoggingIn(_, l) => !(l.LoginLock? || l.LoginAbort? || l.LoginSwap?)
    case Closing(_, _, _) => false
    case ClosingDown(_, _) => false
    case Exit(_) => false
    case _ => true
  }

  function Mark(s: State): Vault {
    if s.readOnly then s.vault else s.vault.(dirty := true)
  }

  function EntryWork(s: State, op: Op, ch: Choice): Work {
    var v, h := s.vault, s.hist;
    if op.CloseManager? then Work(v, h, PersistDirty(s.readOnly, v.dirty, ForClose))
    else if s.closed then Work(v, h, Exit(false))
    else match op
         case Load(_) => Work(v, h, LoadRead)
         case Login(u, _) => Work(v, h, if s.readOnly then Exit(false) else Building(u, ForLogin, BuildCheck))
         case FetchStart(u) => Work(v, h, Exit(v.ui == Some(u)))
         case FetchApply(u, p) =>
           if v.ui != Some(u) || u !in v.records then Work(v, h, Exit(false))
           else
             var info := v.records[u];
             Work(Mark(s).(records := v.records[u := info.(profile := ApplyProfile(info.profile, p))]), h,
                  Building(u, Rebuild, BuildCheck))
         case _ => Work(v, h, if ch.due then PersistDirty(s.readOnly, v.dirty, Pending) else Refreshing(Decide))
  }

  /** The file is read into a new record; the previous one is no longer referenced. */
  function LoadWork(s: State, ch: Choice): Work {
    var v, h := s.vault, s.hist;
    if !ch.ok || v.file.None? then Work(v, h, Exit(false))
    else if ch.name in v.records then Work(v, h, LoadRead)
    else Work(v.(records := v.records[ch.name := v.file.value], ui := Some(ch.name), dirty := false),
              h.(issued := v.file.value.refreshToken, offer := None), Building(ch.name, Rebuild, BuildCheck))
  }

  /** ensureFresh after its pending save; forceRefresh always goes on. */
  function DecideNext(v: Vault, op: Op, now: int): Label {
    if op.ForceRefresh? then Refreshing(RefreshCheck)
    else match v.Info()
         case None => Exit(false)
         case Some(u) =>
           if u.expireTime == 0 || u.expireTime - REFRESH_SKEW >= now then Exit(true)
           else if u.refreshExpireTime != 0 && now > u.refreshExpireTime then Exit(false)
           else Refreshing(RefreshCheck)
  }

  /** preserveRefreshRotationAndSaveLocked up to the save. */
  function PreserveWork(s: State, r: Reply): Work {
    var v, h := s.vault, s.hist;
    if s.readOnly || v.Info().None? then Work(v, h, Exit(false))
    else
      var u := v.Info().value;
      var refreshChanged := r.refreshToken != "" && u.refreshToken != r.refreshToken;
      var expiryChanged := r.refreshExpire != 0 && u.refreshExpireTime != r.refreshExpire;
      if !refreshChanged && !expiryChanged then Work(v, h, Exit(false))
      else
        var u1 := u.(refreshToken := if refreshChanged then r.refreshToken else u.refreshToken,
                     refreshExpireTime := if expiryChanged then r.refreshExpire else u.refreshExpireTime);
        Work(v.(records := v.records[v.ui.value := u1], dirty := true), h, PersistDirty(false, true, Rotation))
  }

  function RefreshWork(s: State, op: Op, at: RefreshAt, ch: Choice): Work {
    var v, h := s.vault, s.hist;
    match at
    case Decide => Work(v, h, DecideNext(v, op, ch.now))
    case RefreshCheck =>
      if s.readOnly || s.closed || v.Info().None? || v.Info().value.refreshToken == ""
      then Work(v, h, Exit(false))
      else Work(v, h, Refreshing(RefreshCall))
    case RefreshCall =>
      if !ch.ok || v.Info().None? then Work(v, h, Exit(false))
      else
        var offer := Offered(h.offer, v.Info().value.refreshToken, ch.reply);
        if ch.reply.token == "" then Work(v, h.(offer := offer), Exit(false))
        else if ch.name in v.records then Work(v, h, Refreshing(RefreshCall))
        else Work(v.(records := v.records[ch.name := Renewed(v.Info().value, ch.reply)]),
                  h.(issued := Rotated(h.issued, ch.reply), offer := offer),
                  Refreshing(RefreshFields(ch.name, ch.reply)))
    case RefreshFields(u, r) =>
      var v1 := if ch.ok && ch.encryptUserInfo != "" && ch.key != "" && u in v.records
                then v.(records := v.records[u := v.records[u].(encryptUserInfo := ch.encryptUserInfo, key := ch.key)])
                else v;
      Work(v1, h, Building(u, ForRefresh(r), BuildCheck))
    case Preserve(r) => PreserveWork(s, r)
  }

  /** What the caller of replaceContext does after success. */
  function ReplacedWork(s: State, op: Op, u: UiRef, j: Job): Work {
    var v, h := s.vault, s.hist;
    if j.ForRefresh? && u in v.records then
      Work(Mark(s).(ui := Some(u)), h.(good := (Some(SessionOf(v.records[u])), s.protoCtx)),
           PersistDirty(s.readOnly, !s.readOnly, AfterRefresh))
    else Work(v, h, if op.FetchApply? then Saving(ForFetch, SaveCheck) else Exit(true))
  }

  function BuildWork(s: State, op: Op, u: UiRef, j: Job, at: BuildAt, ch: Choice): Work
    requires at.BuildCheck? || at.BuildFields? || at.Replaced?
  {
    var v, h := s.vault, s.hist;
    match at
    case BuildCheck => Work(v, h, if s.closed then BuildFailed(op, j) else Building(u, j, BuildFields))
    case BuildFields =>
      if u !in v.records then Work(v, h, BuildFailed(op, j))
      else if v.records[u].encryptUserInfo != "" && v.records[u].key != "" then Work(v, h, Building(u, j, BuildNew))
      else if !ch.ok || ch.encryptUserInfo == "" || ch.key == "" then Work(v, h, BuildFailed(op, j))
      else
        var records1 := v.records[u := v.records[u].(encryptUserInfo := ch.encryptUserInfo, key := ch.key)];
        Work((if v.ui == Some(u) then Mark(s) else v).(records := records1), h, Building(u, j, BuildNew))
    case Replaced => ReplacedWork(s, op, u, j)
  }

  function SaveWork(s: State, k: SaveFor, at: SaveAt, ch: Choice): Work {
    var v, h := s.vault, s.hist;
    match at
    case SaveCheck =>
      if s.closed || s.readOnly then Work(v, h, AfterSave(k, false))
      else if v.ui.None? then Work(v, h, AfterSave(k, true))
      else Work(v.(dirty := true), h, Saving(k, SaveStage))
    case SaveStage =>
      if !ch.ok then Work(v, h, AfterSave(k, false))
      else if ch.name in v.temps then Work(v, h, Saving(k, SaveStage))
      else Work(v.(temps := v.temps[ch.name := None]), h, Saving(k, SaveWrite(ch.name)))
    case SaveWrite(tmp) =>
      if !ch.ok then Work(v, h, Saving(k, SaveDiscard(tmp)))
      else Work(v.(temps := v.temps[tmp := v.Info()]), h, Saving(k, SavePublish(tmp)))
    case SavePublish(tmp) =>
      if !ch.ok || tmp !in v.temps then Work(v, h, Saving(k, SaveDiscard(tmp)))
      else Work(v.(file := v.temps[tmp], temps := v.temps - {tmp}, dirty := false),
                h.(writes := h.writes + 1), AfterSave(k, true))
    case SaveDiscard(tmp) =>
      Work(v.(temps := v.temps - {tmp}), h, AfterSave(k, false))
  }

  function LoginWork(s: State, op: Op, c: CtxId, at: LoginAt, ch: Choice): Work
    requires op.Login?
    requires !(at.LoginLock? || at.LoginAbort? || at.LoginSwap?)
  {
    var v, h := s.vault, s.hist;
    var reject := Closing(c, false, AfterLoginReject(None));
    match at
    case LoginCheck => Work(v, h, if s.closed then reject else LoggingIn(c, LoginStage))
    case LoginStage =>
      if !ch.ok then Work(v, h, reject)
      else if ch.name in v.temps then Work(v, h, LoggingIn(c, LoginStage))
      else Work(v.(temps := v.temps[ch.name := None]), h, LoggingIn(c, LoginWrite(ch.name)))
    case LoginWrite(tmp) =>
      if !ch.ok || op.candidate !in v.records then Work(v, h, LoggingIn(c, LoginUnstage(tmp)))
      else Work(v.(temps := v.temps[tmp := Some(v.records[op.candidate])]), h, LoggingIn(c, LoginLock(tmp)))
    case LoginUnstage(tmp) => Work(v.(temps := v.temps - {tmp}), h, reject)
    case LoginPublish(tmp) =>
      if s.closed || !ch.ok || tmp !in v.temps then Work(v, h, LoggingIn(c, LoginAbort(tmp)))
      else Work(v.(file := v.temps[tmp], temps := v.temps - {tmp}), h.(writes := h.writes + 1), LoggingIn(c, LoginSwap))
  }

  function WorkAt(s: State, op: Op, at: Label, ch: Choice): Work
    requires IsWork(at)
  {
    match at
    case Entry => EntryWork(s, op, ch)
    case LoadRead => LoadWork(s, ch)
    case Refreshing(r) => RefreshWork(s, op, r, ch)
    case Building(u, j, b) => BuildWork(s, op, u, j, b, ch)
    case Saving(k, a) => SaveWork(s, k, a, ch)
    case LoggingIn(c, l) => if op.Login? then LoginWork(s, op, c, l, ch) else Work(s.vault, s.hist, at)
    case Discarding(tmp) => Work(s.vault.(temps := s.vault.temps - {tmp}), s.hist, Exit(false))
  }

  function Do(s: State, t: Tid, op: Op, w: Work): State {
    s.(vault := w.vault, hist := w.hist, threads := s.threads[t := Crit(op, w.next)])
  }

  // ---------- the steps under `mu` that touch locks and contexts ----------

  function At(s: State, t: Tid, op: Op, at: Label): State {
    Go(s, t, Crit(op, at))
  }

  function BeginClose(s: State, c: CtxId): State
    requires c in s.contexts
  {
    s.(contexts := s.contexts[c := s.contexts[c].(begun := s.contexts[c].begun + 1)])
  }

  function EndClose(s: State, c: CtxId): State
    requires c in s.contexts
  {
    s.(contexts := s.contexts[c := s.contexts[c].(ended := s.contexts[c].ended + 1)])
  }

  /** `due` false with `ok` true is a factory that returns no context and no error. */
  function BuildNewStep(s: State, t: Tid, op: Op, u: UiRef, j: Job, ch: Choice): State {
    if !ch.ok || !ch.due then At(s, t, op, BuildFailed(op, j))
    else if ch.name in s.contexts then s
    else At(s.(contexts := s.contexts[ch.name := Ctx(0, 0)]), t, op,
            if j.ForLogin? then LoggingIn(ch.name, LoginCheck) else Building(u, j, ReplaceLock(ch.name)))
  }

  function AcquireStep(s: State, t: Tid, op: Op, next: Label): State {
    if WriteLockFree(s) then At(s.(ctxWriter := Some(t)), t, op, next) else s
  }

  function ReplaceSwapStep(s: State, t: Tid, op: Op, u: UiRef, j: Job, c: CtxId): State {
    if s.closed then At(s.(ctxWriter := None), t, op, Closing(c, false, AfterReject(j)))
    else At(s.(ctxWriter := None, protoCtx := Some(c)), t, op,
            match s.protoCtx
            case Some(o) => Closing(o, false, AfterReplace(u, j))
            case None => Building(u, j, Replaced))
  }

  function ClosingStep(s: State, t: Tid, op: Op, c: CtxId, begun: bool, k: Then): State {
    if c !in s.contexts then s
    else if !begun then At(BeginClose(s, c), t, op, Closing(c, true, k))
    else if NobodyUses(s, c) then At(EndClose(s, c), t, op, AfterClose(op, k))
    else s
  }

  function LoginSwapStep(s: State, t: Tid, op: Op, c: CtxId): State
    requires op.Login?
  {
    var v := s.vault.(ui := Some(op.candidate), dirty := false);
    var h := s.hist.(issued := if v.Info().Some? then v.Info().value.refreshToken else "", offer := None,
                     good := (v.Session(), Some(c)));
    At(s.(ctxWriter := None, protoCtx := Some(c), vault := v, hist := h), t, op,
       match s.protoCtx
       case Some(o) => Closing(o, false, AfterLogin)
       case None => Exit(true))
  }

  /** Where a thread goes once it has released `mu`. */
  function AfterExit(op: Op, ok: bool): Pc {
    match op
    case EnsureFresh(p) => if p && ok then WantRead else Idle
    case Load(p) => if p && ok then WantRead else Idle
    case Login(u, device) => if ok && device then WantMu(FetchStart(u)) else Idle
    case FetchStart(u) => if ok then ProfileCall(u) else Idle
    case _ => Idle
  }

  function ExitStep(s: State, t: Tid, op: Op, ok: bool): State {
    Go(s.(mu := None,
          boot := if op.Load? && s.boot.Loading? then Ready else s.boot,
          hist := if op.Load? || op.FetchApply? then s.hist.(good := (s.vault.Session(), s.protoCtx)) else s.hist),
       t, AfterExit(op, ok))
  }

  function LoginLockStep(s: State, t: Tid, op: Op, c: CtxId, at: LoginAt): State
    requires at.LoginLock? || at.LoginAbort? || at.LoginSwap?
  {
    match at
    case LoginLock(tmp) => AcquireStep(s, t, op, LoggingIn(c, LoginPublish(tmp)))
    case LoginAbort(tmp) => At(s.(ctxWriter := None), t, op, Closing(c, false, AfterLoginReject(Some(tmp))))
    case LoginSwap => if op.Login? then LoginSwapStep(s, t, op, c) else s
  }

  function CloseDownStep(s: State, t: Tid, op: Op, f: bool, at: CloseAt): State {
    match at
    case CloseLock => AcquireStep(s, t, op, ClosingDown(f, CloseTake))
    case CloseTake =>
      At(s.(ctxWriter := None, closed := true, protoCtx := None), t, op, ClosingDown(f, CloseRelease(s.protoCtx)))
    case CloseRelease(c) => Go(s.(mu := None), t, CloseCurrent(c, false, f))
  }

  function LockStep(s: State, t: Tid, op: Op, at: Label, ch: Choice): State
    requires !IsWork(at)
  {
    match at
    case Building(u, j, BuildNew) => BuildNewStep(s, t, op, u, j, ch)
    case Building(u, j, ReplaceLock(c)) => AcquireStep(s, t, op, Building(u, j, ReplaceSwap(c)))
    case Building(u, j, ReplaceSwap(c)) => ReplaceSwapStep(s, t, op, u, j, c)
    case Closing(c, begun, k) => ClosingStep(s, t, op, c, begun, k)
    case LoggingIn(c, l) => LoginLockStep(s, t, op, c, l)
    case ClosingDown(f, c) => CloseDownStep(s, t, op, f, c)
    case Exit(ok) => ExitStep(s, t, op, ok)
  }

  function CritStep(s: State, t: Tid, op: Op, at: Label, ch: Choice): State {
    if !IsWork(at) then LockStep(s, t, op, at, ch)
    else if ReadsClosed(op, at) && s.ctxWriter.Some? then s
    else Do(s, t, op, WorkAt(s, op, at, ch))
  }

  // ---------- steps outside `mu` ----------

  /** The start-up load of a writable manager runs alone; nothing else starts before it ends. */
  function StartStep(s: State, t: Tid, ch: Choice): State {
    if ch.start.ExternalWrite? then
      // Only a read-only manager shares its file with another program.
      if s.readOnly then s.(vault := s.vault.(file := if ch.ok then Some(ch.info) else None)) else s
    else if s.boot.Loading? && !s.readOnly then s
    else if ch.start.StartLoad? then
      if s.readOnly || s.boot.Fresh? then Go(s.(boot := Loading), t, WantMu(Load(false))) else s
    else if ch.start.StartClose? then
      if s.once.NotRun? then Go(s.(boot := Ready, once := Running(t)), t, WantMu(CloseManager)) else s
    else
      Go(s.(boot := Ready), t,
         match ch.start
         case StartPrepare => PrepareEntry
         case StartForce => WantMu(if s.readOnly then Load(false) else ForceRefresh)
         case StartLogin(d) => if s.readOnly then Idle else LoginPoll(d)
         case _ => Idle)
  }

  function OutStep(s: State, t: Tid, pc: Pc, ch: Choice): State
    requires !pc.Crit?
  {
    match pc
    case Idle => StartStep(s, t, ch)
    case PrepareEntry =>
      if s.ctxWriter.Some? then s
      else Go(s, t, if s.closed then Idle else WantMu(if s.readOnly then Load(true) else EnsureFresh(true)))
    case LoginPoll(d) =>
      if !ch.ok then Go(s, t, Idle)
      else if ch.name in s.vault.records then s
      else Go(s.(vault := s.vault.(records := s.vault.records[ch.name := ch.info])), t, WantMu(Login(ch.name, d)))
    case WantMu(op) =>
      if s.mu.Some? then s else Go(s.(mu := Some(t), hist := s.hist.(entry := Snap(s))), t, Crit(op, Entry))
    case ProfileCall(u) =>
      Go(s, t, if ch.ok then WantMu(FetchApply(u, ch.profile)) else Idle)
    case WantRead =>
      if s.ctxWriter.Some? then s else Go(s, t, ReadCheck)
    case ReadCheck =>
      // prepareWithCurrentContext, then the closed flag inside the context itself
      if s.closed || s.protoCtx.None? then Go(s, t, EndRead)
      else if s.protoCtx.value in s.contexts && s.contexts[s.protoCtx.value].ended > 0 then Go(s, t, EndRead)
      else Go(s, t, Using(s.protoCtx.value))
    case Using(_) => Go(s, t, EndRead)
    case EndRead => Go(s, t, Idle)
    case CloseCurrent(cur, begun, f) =>
      (match cur
       case None => Go(s.(once := Done(f)), t, Idle)
       case Some(c) =>
         if c !in s.contexts then s
         else if !begun then
           Go(BeginClose(s, c), t, CloseCurrent(cur, true, f))
         else if !NobodyUses(s, c) then s
         else Go(EndClose(s, c), t, CloseCurrent(None, false, f || !ch.ok)))
  }

  function Next(s: State, t: Tid, ch: Choice): State {
    var pc := PcOf(s, t);
    if pc.Crit? then CritStep(s, t, pc.op, pc.at, ch) else OutStep(s, t, pc, ch)
  }

  /** A schedule names, step by step, the thread that moves and the outcomes it meets. */
  type Schedule = seq<(Tid, Choice)>

  function Run(s: State, moves: Schedule): State
    decreases |moves|
  {
    if moves == [] then s else Run(Next(s, moves[0].0, moves[0].1), moves[1..])
  }

  /** A new manager: no user, no context, whatever the credential file holds. */
  function Init(readOnly: bool, file: Option<UserInfo>): State {
    State(readOnly, Fresh, None, None, NotRun, false, None, map[],
          Vault(map[], None, false, file, map[]),
          History(Snapshot(None, None, file, false, None, ""), "", None, (None, None), 0), map[])
  }
}
