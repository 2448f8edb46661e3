/** Start-up and shutdown of the gateway process (app.go): the deferred cleanup of `run`, the
    refresh ticker, the shutdown goroutine and the gate that admits HTTP handlers.

    Each goroutine has a program counter; one step takes or frees the gate's mutex, counts a
    handler in or out, starts or ends a goroutine, or passes one blocking call. Requests may
    arrive at any time once the server listens, also while it shuts down. */
module AppShutdown {

  type Hid = nat

  datatype MainPc =
    | MakingServices | MakingAuth
    | Loading                  // a login, which ends run, or the credentials and a first refresh
    | Preparing                // ticker runs; model map, catalogue and resolver are read
    | Listening                // shutdown goroutine runs; inside listenAndServe
    | Cancelling | WaitingGoroutines | ClosingAuth | ClosingServices | Ended

  /** Without a source of ticks the goroutine is started all the same and returns at once. */
  datatype TickerPc = NoTicker | Tickless | TickerIdle | Ticking | TickerDone

  datatype ShutdownPc =
    | NoShutdown | AwaitCancel | LockGate | SetClosing | ShuttingServer | ForcingServer | AwaitHandlers | ShutdownDone

  datatype HandlerPc = Arrived | GateLocked | Serving | Left

  /** What was made and how often it was closed. */
  datatype Resources = Resources(services: bool, auth: bool, authCloses: nat, servicesCloses: nat)

  /** Whether the orderly shutdown of the server failed, and whether the server was closed by force. */
  datatype Server = Server(failed: bool, forced: bool)

  datatype GateOwner = Free | ByShutdown | ByHandler(h: Hid)

  datatype State = State(
    main: MainPc, ticker: TickerPc, shutdown: ShutdownPc,
    cancelled: bool, goroutines: nat,
    gateMu: GateOwner, closing: bool, active: nat,
    handlers: map<Hid, HandlerPc>,
    held: Resources, server: Server, ticks: bool)

  datatype Move =
    | CancelParent                  // the caller's context is cancelled from outside
    | Main(ok: bool, ticks: bool)   // ok false: the current stage of run fails; ticks false: no ticker was made
    | Ticker(tick: bool)
    | Shutdown(ok: bool)
    | Arrive(h: Hid)
    | Handler(h: Hid)

  function Init(): State {
    State(MakingServices, NoTicker, NoShutdown, false, 0, Free, false, 0, map[],
          Resources(false, false, 0, 0), Server(false, false), false)
  }

  function MainStep(s: State, ok: bool, ticks: bool): State {
    match s.main
    case MakingServices =>
      if ok then s.(main := MakingAuth, held := s.held.(services := true)) else s.(main := Cancelling)
    case MakingAuth =>
      if ok then s.(main := Loading, held := s.held.(auth := true)) else s.(main := Cancelling)
    case Loading =>
      if ok then
        s.(main := Preparing, ticker := if ticks then TickerIdle else Tickless, ticks := ticks,
           goroutines := s.goroutines + 1)
      else s.(main := Cancelling)
    case Preparing =>
      if ok then s.(main := Listening, shutdown := AwaitCancel, goroutines := s.goroutines + 1)
      else s.(main := Cancelling)
    case Listening =>
      // listenAndServe returns on a listen error at any time and after a shutdown
      s.(main := Cancelling)
    case Cancelling => s.(main := WaitingGoroutines, cancelled := true)
    case WaitingGoroutines => if s.goroutines == 0 then s.(main := ClosingAuth) else s
    case ClosingAuth =>
      s.(main := ClosingServices,
         held := if s.held.auth then s.held.(authCloses := s.held.authCloses + 1) else s.held)
    case ClosingServices =>
      s.(main := Ended,
         held := if s.held.services then s.held.(servicesCloses := s.held.servicesCloses + 1) else s.held)
    case Ended => s
  }

  function Done(s: State): State {
    s.(goroutines := if s.goroutines > 0 then s.goroutines - 1 else 0)
  }

  /** select: with the context cancelled and a tick ready either branch may be taken. */
  function TickerStep(s: State, tick: bool): State {
    match s.ticker
    case Tickless => Done(s).(ticker := TickerDone)
    case TickerIdle =>
      if s.cancelled && !tick then Done(s).(ticker := TickerDone)
      else if tick then s.(ticker := Ticking)
      else s
    case Ticking => s.(ticker := TickerIdle)
    case _ => s
  }

  function ShutdownStep(s: State, ok: bool): State {
    match s.shutdown
    case AwaitCancel => if s.cancelled then s.(shutdown := LockGate) else s
    case LockGate => if s.gateMu.Free? then s.(gateMu := ByShutdown, shutdown := SetClosing) else s
    case SetClosing => s.(closing := true, gateMu := Free, shutdown := ShuttingServer)
    case ShuttingServer =>
      if ok then s.(shutdown := AwaitHandlers)
      else s.(shutdown := ForcingServer, server := s.server.(failed := true))
    case ForcingServer => s.(shutdown := AwaitHandlers, server := s.server.(forced := true))
    case AwaitHandlers => if s.active == 0 then Done(s).(shutdown := ShutdownDone) else s
    case _ => s
  }

  function HandlerStep(s: State, h: Hid): State {
    if h !in s.handlers then s
    else match s.handlers[h]
         case Arrived =>
           if s.gateMu.Free? then s.(gateMu := ByHandler(h), handlers := s.handlers[h := GateLocked]) else s
         case GateLocked =>
           if s.closing then s.(gateMu := Free, handlers := s.handlers[h := Left])
           else s.(gateMu := Free, active := s.active + 1, handlers := s.handlers[h := Serving])
         case Serving =>
           s.(active := if s.active > 0 then s.active - 1 else 0, handlers := s.handlers[h := Left])
         case Left => s
  }

  function Next(s: State, m: Move): State {
    match m
    case CancelParent => s.(cancelled := true)
    case Main(ok, ticks) => MainStep(s, ok, ticks)
    case Ticker(tick) => TickerStep(s, tick)
    case Shutdown(ok) => ShutdownStep(s, ok)
    case Arrive(h) =>
      // Only a server that has begun to listen has requests.
      if s.shutdown.NoShutdown? || h in s.handlers then s else s.(handlers := s.handlers[h := Arrived])
    case Handler(h) => HandlerStep(s, h)
  }

  function Run(s: State, moves: seq<Move>): State
    decreases |moves|
  {
    if moves == [] then s else Run(Next(s, moves[0]), moves[1..])
  }

  // ---------- the invariant ----------

  function ServingSet(s: State): set<Hid> {
    set h | h in s.handlers && s.handlers[h].Serving?
  }

  function TickerCount(s: State): nat {
    if s.ticker.Tickless? || s.ticker.TickerIdle? || s.ticker.Ticking? then 1 else 0
  }

  function ShutdownCount(s: State): nat {
    if s.shutdown.NoShutdown? || s.shutdown.ShutdownDone? then 0 else 1
  }

  predicate GateClosed(s: State) {
    s.shutdown.ShuttingServer? || s.shutdown.ForcingServer? || s.shutdown.AwaitHandlers? || s.shutdown.ShutdownDone?
  }

  predicate BeforeStart(m: MainPc) { m.MakingServices? || m.MakingAuth? || m.Loading? }

  predicate BeforeClose(m: MainPc) {
    BeforeStart(m) || m.Preparing? || m.Listening? || m.Cancelling? || m.WaitingGoroutines?
  }

  /** The two wait groups count exactly what is running. */
  predicate HandlersCounted(s: State) {
    s.active == |ServingSet(s)|
  }

  predicate GoroutinesCounted(s: State) {
    s.goroutines == TickerCount(s) + ShutdownCount(s)
  }

  ghost predicate Gate(s: State) {
    && (s.gateMu.ByShutdown? <==> s.shutdown.SetClosing?)
    && (forall h | h in s.handlers :: s.handlers[h].GateLocked? ==> s.gateMu == ByHandler(h))
    && (s.gateMu.ByHandler? ==> s.gateMu.h in s.handlers && s.handlers[s.gateMu.h].GateLocked?)
    && (s.closing <==> GateClosed(s))
  }

  /** Goroutines are started by run before it cleans up and are over before it closes anything. */
  predicate Order(s: State) {
    && (s.shutdown.NoShutdown? ==> s.handlers == map[])
    && (s.shutdown.ShutdownDone? ==> s.active == 0)
    && (BeforeStart(s.main) ==> s.ticker.NoTicker?)
    && (BeforeStart(s.main) || s.main.Preparing? ==> s.shutdown.NoShutdown?)
    && (s.main.Listening? ==> !s.shutdown.NoShutdown?)
    && (!BeforeClose(s.main) ==> s.goroutines == 0)
    && (!BeforeClose(s.main) || s.main.WaitingGoroutines? ==> s.cancelled)
  }

  /** auth is made after the services and closed before them, and nothing is closed before the cleanup gets there. */
  predicate Held(s: State) {
    && (s.held.auth ==> s.held.services)
    && (s.main.MakingAuth? ==> s.held.services)
    && (s.main.Loading? || s.main.Preparing? || s.main.Listening? ==> s.held.auth)
    && s.held.authCloses == (if s.held.auth && (s.main.ClosingServices? || s.main.Ended?) then 1 else 0)
    && s.held.servicesCloses == (if s.held.services && s.main.Ended? then 1 else 0)
  }

  /** A server that could not be shut down is closed by force before the handlers are waited for. */
  predicate Forced(s: State) {
    && (s.shutdown.AwaitHandlers? || s.shutdown.ShutdownDone? ==> s.server.forced == s.server.failed)
    && (s.shutdown.ForcingServer? ==> s.server.failed)
    && (!GateClosed(s) || s.shutdown.ShuttingServer? ==> s.server == Server(false, false))
  }

  /** Neither goroutine does anything about an end before the context is cancelled. */
  predicate Waits(s: State) {
    && (s.ticker.TickerDone? && s.ticks ==> s.cancelled)
    && (s.ticker.Tickless? || s.ticker.NoTicker? ==> !s.ticks)
    && (s.shutdown.NoShutdown? || s.shutdown.AwaitCancel? || s.cancelled)
  }

  ghost predicate Inv(s: State) {
    HandlersCounted(s) && GoroutinesCounted(s) && Gate(s) && Order(s) && Held(s) && Forced(s) && Waits(s)
  }

  lemma WaitsKept(s: State, m: Move)
    requires Waits(s) && Order(s)
    ensures Waits(Next(s, m))
  {}

  lemma HeldMain(s: State, ok: bool, ticks: bool)
    requires Held(s)
    ensures Held(MainStep(s, ok, ticks))
  {}

  lemma HeldKept(s: State, m: Move)
    requires Held(s)
    ensures Held(Next(s, m))
  {
    hide MainStep;
    if m.Main? {
      HeldMain(s, m.ok, m.ticks);
    }
  }

  lemma ForcedShutdown(s: State, ok: bool)
    requires Forced(s)
    ensures Forced(ShutdownStep(s, ok))
  {}

  lemma ForcedMain(s: State, ok: bool, ticks: bool)
    requires Forced(s) && Order(s)
    ensures Forced(MainStep(s, ok, ticks))
  {}

  lemma ForcedHandler(s: State, h: Hid)
    ensures HandlerStep(s, h).server == s.server && HandlerStep(s, h).shutdown == s.shutdown
  {}

  lemma ForcedKept(s: State, m: Move)
    requires Forced(s) && Order(s)
    ensures Forced(Next(s, m))
  {
    hide MainStep, TickerStep, ShutdownStep, HandlerStep;
    match m
    case Main(ok, ticks) => ForcedMain(s, ok, ticks);
    case Ticker(tick) => KeptByTicker(s, tick);
    case Shutdown(ok) => ForcedShutdown(s, ok);
    case Handler(h) => ForcedHandler(s, h);
    case _ =>
  }

  lemma HandlerCounts(s: State, h: Hid)
    requires HandlersCounted(s)
    ensures HandlersCounted(HandlerStep(s, h))
  {
    if h in s.handlers {
      var s2 := HandlerStep(s, h);
      ServingAfter(s, s2, h);
    }
  }

  /** One handler moved: the set of handlers inside changes by that handler at most. */
  lemma ServingAfter(s: State, s2: State, h: Hid)
    requires h in s.handlers && s2.handlers.Keys == s.handlers.Keys
    requires forall k | k in s.handlers && k != h :: s2.handlers[k] == s.handlers[k]
    ensures s2.handlers[h].Serving? && !s.handlers[h].Serving? ==> |ServingSet(s2)| == |ServingSet(s)| + 1
    ensures !s2.handlers[h].Serving? && s.handlers[h].Serving? ==> |ServingSet(s2)| == |ServingSet(s)| - 1
    ensures s2.handlers[h].Serving? == s.handlers[h].Serving? ==> ServingSet(s2) == ServingSet(s)
  {
    if s2.handlers[h].Serving? && !s.handlers[h].Serving? {
      assert ServingSet(s2) == ServingSet(s) + {h} && h !in ServingSet(s);
    } else if !s2.handlers[h].Serving? && s.handlers[h].Serving? {
      assert ServingSet(s2) == ServingSet(s) - {h} && h in ServingSet(s);
    } else {
      assert ServingSet(s2) == ServingSet(s);
    }
  }

  lemma HandlerGate(s: State, h: Hid)
    requires Gate(s)
    ensures Gate(HandlerStep(s, h))
  {
  }

  lemma HandlerOrder(s: State, h: Hid)
    requires Gate(s) && Order(s)
    ensures Order(HandlerStep(s, h))
  {
  }

  lemma HandlerGoroutines(s: State, h: Hid)
    requires GoroutinesCounted(s)
    ensures GoroutinesCounted(HandlerStep(s, h))
  {
    HandlerLeaves(s, h);
    hide HandlerStep;
  }

  lemma HandlerLeaves(s: State, h: Hid)
    ensures var s2 := HandlerStep(s, h);
      s2.ticker == s.ticker && s2.shutdown == s.shutdown && s2.goroutines == s.goroutines
  {}

  lemma OtherHandlers(s: State, m: Move)
    requires HandlersCounted(s) && !m.Handler?
    ensures HandlersCounted(Next(s, m))
  {
    hide HandlersCounted, ServingSet;
    KeptServing(s, m);
    SameServing(s, Next(s, m));
    SameCounted(s, Next(s, m));
  }

  lemma KeptServing(s: State, m: Move)
    requires !m.Handler?
    ensures Next(s, m).active == s.active
    ensures forall h | h in s.handlers :: h in Next(s, m).handlers && Next(s, m).handlers[h] == s.handlers[h]
    ensures forall h | h in Next(s, m).handlers :: h in s.handlers || Next(s, m).handlers[h].Arrived?
  {
    if !m.Arrive? {
      KeptHandlers(s, m);
    }
    hide MainStep, TickerStep, ShutdownStep;
  }

  lemma KeptHandlers(s: State, m: Move)
    requires m.Main? || m.Ticker? || m.Shutdown? || m.CancelParent?
    ensures Next(s, m).active == s.active && Next(s, m).handlers == s.handlers
  {
    hide MainStep, TickerStep, ShutdownStep;
    match m
    case Main(ok, ticks) => KeptByMain(s, ok, ticks);
    case Ticker(tick) => KeptByTicker(s, tick);
    case Shutdown(ok) => KeptByShutdown(s, ok);
    case CancelParent =>
  }

  lemma KeptByMain(s: State, ok: bool, ticks: bool)
    ensures MainStep(s, ok, ticks).active == s.active && MainStep(s, ok, ticks).handlers == s.handlers
    ensures MainStep(s, ok, ticks).server == s.server
  {}

  lemma KeptByTicker(s: State, tick: bool)
    ensures TickerStep(s, tick).active == s.active && TickerStep(s, tick).handlers == s.handlers
    ensures TickerStep(s, tick).server == s.server && TickerStep(s, tick).shutdown == s.shutdown
  {}

  lemma KeptByShutdown(s: State, ok: bool)
    ensures ShutdownStep(s, ok).active == s.active && ShutdownStep(s, ok).handlers == s.handlers
  {}

  lemma SameCounted(s: State, s2: State)
    requires HandlersCounted(s) && ServingSet(s2) == ServingSet(s) && s2.active == s.active
    ensures HandlersCounted(s2)
  {}

  lemma SameServing(s: State, s2: State)
    requires forall h | h in s.handlers :: h in s2.handlers && s2.handlers[h] == s.handlers[h]
    requires forall h | h in s2.handlers :: h in s.handlers || s2.handlers[h].Arrived?
    ensures ServingSet(s2) == ServingSet(s)
  {
  }

  lemma MainGoroutines(s: State, ok: bool, ticks: bool)
    requires GoroutinesCounted(s) && Order(s)
    ensures GoroutinesCounted(MainStep(s, ok, ticks))
  {}

  lemma TickerGoroutines(s: State, tick: bool)
    requires GoroutinesCounted(s) && Order(s)
    ensures GoroutinesCounted(TickerStep(s, tick))
  {}

  lemma ShutdownGoroutines(s: State, ok: bool)
    requires GoroutinesCounted(s) && Order(s)
    ensures GoroutinesCounted(ShutdownStep(s, ok))
  {}

  lemma OtherGoroutines(s: State, m: Move)
    requires GoroutinesCounted(s) && Order(s) && !m.Handler?
    ensures GoroutinesCounted(Next(s, m))
  {
    hide MainStep, TickerStep, ShutdownStep;
    match m
    case Main(ok, ticks) => MainGoroutines(s, ok, ticks);
    case Ticker(tick) => TickerGoroutines(s, tick);
    case Shutdown(ok) => ShutdownGoroutines(s, ok);
    case _ =>
  }

  lemma MainGate(s: State, ok: bool, ticks: bool)
    requires Gate(s) && Order(s)
    ensures Gate(MainStep(s, ok, ticks))
  {}

  lemma TickerGate(s: State, tick: bool)
    requires Gate(s) && Order(s)
    ensures Gate(TickerStep(s, tick))
  {}

  lemma ShutdownGate(s: State, ok: bool)
    requires Gate(s) && Order(s)
    ensures Gate(ShutdownStep(s, ok))
  {}

  lemma OtherGate(s: State, m: Move)
    requires Gate(s) && Order(s) && !m.Handler?
    ensures Gate(Next(s, m))
  {
    hide MainStep, TickerStep, ShutdownStep;
    match m
    case Main(ok, ticks) => MainGate(s, ok, ticks);
    case Ticker(tick) => TickerGate(s, tick);
    case Shutdown(ok) => ShutdownGate(s, ok);
    case _ =>
  }

  lemma MainOrder(s: State, ok: bool, ticks: bool)
    requires GoroutinesCounted(s) && Order(s)
    ensures Order(MainStep(s, ok, ticks))
  {}

  lemma TickerOrder(s: State, tick: bool)
    requires GoroutinesCounted(s) && Order(s)
    ensures Order(TickerStep(s, tick))
  {}

  lemma ShutdownOrder(s: State, ok: bool)
    requires GoroutinesCounted(s) && Order(s)
    ensures Order(ShutdownStep(s, ok))
  {}

  lemma OtherOrder(s: State, m: Move)
    requires GoroutinesCounted(s) && Order(s) && !m.Handler?
    ensures Order(Next(s, m))
  {
    hide MainStep, TickerStep, ShutdownStep;
    match m
    case Main(ok, ticks) => MainOrder(s, ok, ticks);
    case Ticker(tick) => TickerOrder(s, tick);
    case Shutdown(ok) => ShutdownOrder(s, ok);
    case _ =>
  }

  lemma NobodyServes(s: State)
    requires ServingSet(s) == {}
    ensures forall h | h in s.handlers :: !s.handlers[h].Serving?
  {
    assert forall h | h in s.handlers && s.handlers[h].Serving? :: h in ServingSet(s);
  }

  lemma NextKeeps(s: State, m: Move)
    requires Inv(s)
    ensures Inv(Next(s, m))
  {
    hide HandlersCounted, GoroutinesCounted, Gate, Order, Held, Forced, Waits;
    WaitsKept(s, m);
    HeldKept(s, m);
    ForcedKept(s, m);
    if m.Handler? {
      HandlerCounts(s, m.h);
      HandlerGoroutines(s, m.h);
      HandlerGate(s, m.h);
      HandlerOrder(s, m.h);
    } else {
      OtherHandlers(s, m);
      OtherGoroutines(s, m);
      OtherGate(s, m);
      OtherOrder(s, m);
    }
  }

  lemma {:induction false} RunKeeps(s: State, moves: seq<Move>)
    requires Inv(s)
    ensures Inv(Run(s, moves))
    decreases |moves|
  {
    hide Inv;
    if moves != [] {
      NextKeeps(s, moves[0]);
      RunKeeps(Next(s, moves[0]), moves[1..]);
    }
  }

  // ---------- theorems over every run ----------

  lemma InvFirst(s: State)
    requires s.main.MakingServices? && s.ticker.NoTicker? && s.shutdown.NoShutdown?
    requires s.held == Resources(false, false, 0, 0) && s.server == Server(false, false) && !s.ticks
    requires s.goroutines == 0 && s.gateMu.Free? && !s.closing && s.active == 0 && s.handlers == map[]
    ensures Inv(s)
  {
    assert ServingSet(s) == {};
  }

  lemma InvInit()
    ensures Inv(Init())
  {
    hide Inv;
    InvFirst(Init());
  }

  predicate NothingRuns(s: State) {
    && (forall h | h in s.handlers :: !s.handlers[h].Serving?)
    && (s.ticker.NoTicker? || s.ticker.TickerDone?)
    && (s.shutdown.NoShutdown? || s.shutdown.ShutdownDone?)
  }

  lemma NothingRunsThen(s: State)
    requires Inv(s) && !BeforeClose(s.main)
    ensures NothingRuns(s)
  {
    if s.shutdown.NoShutdown? { assert ServingSet(s) == {}; }
    NobodyServes(s);
  }

  /** When run reaches auth.Close, and ever after, no handler is inside the server's handler, no
      refresh tick runs, and both goroutines are over. */
  lemma NothingRunsAtClose(moves: seq<Move>)
    ensures var s := Run(Init(), moves); !BeforeClose(s.main) ==> NothingRuns(s)
  {
    hide Inv, NothingRuns;
    InvInit();
    RunKeeps(Init(), moves);
    if !BeforeClose(Run(Init(), moves).main) { NothingRunsThen(Run(Init(), moves)); }
  }

  /** Whatever was made is closed exactly once when run has ended, the services after auth; and the
      server only ever listens on an auth manager that was made. */
  lemma CleanupCloses(moves: seq<Move>)
    ensures var s := Run(Init(), moves);
            && (s.main.Ended? ==>
                  && s.held.authCloses == (if s.held.auth then 1 else 0)
                  && s.held.servicesCloses == (if s.held.services then 1 else 0))
            && s.held.authCloses <= 1 && s.held.servicesCloses <= 1
            && (s.held.servicesCloses > 0 && s.held.auth ==> s.held.authCloses == 1)
            && (s.held.authCloses + s.held.servicesCloses > 0 ==> NothingRuns(s))
            && (s.main.Listening? ==> s.held.auth && s.held.services)
  {
    hide Inv, NothingRuns;
    InvInit();
    RunKeeps(Init(), moves);
    HeldTells(Run(Init(), moves));
  }

  lemma HeldTells(s: State)
    requires Inv(s)
    ensures s.main.Ended? ==> s.held.authCloses == (if s.held.auth then 1 else 0)
    ensures s.main.Ended? ==> s.held.servicesCloses == (if s.held.services then 1 else 0)
    ensures s.held.authCloses <= 1 && s.held.servicesCloses <= 1
    ensures s.held.servicesCloses > 0 && s.held.auth ==> s.held.authCloses == 1
    ensures s.held.authCloses + s.held.servicesCloses > 0 ==> NothingRuns(s)
    ensures s.main.Listening? ==> s.held.auth && s.held.services
  {
    if s.held.authCloses + s.held.servicesCloses > 0 {
      NothingRunsThen(s);
    }
  }

  /** The server is closed by force exactly if its orderly shutdown failed, before the handlers are waited for. */
  lemma ForcedIfFailed(moves: seq<Move>)
    ensures var s := Run(Init(), moves);
            s.shutdown.AwaitHandlers? || s.shutdown.ShutdownDone? ==> s.server.forced == s.server.failed
  {
    hide Inv;
    InvInit();
    RunKeeps(Init(), moves);
    ForcedTells(Run(Init(), moves));
  }

  /** The refresher runs on and admission stays open until the context is cancelled. */
  lemma RunsUntilCancelled(moves: seq<Move>)
    ensures var s := Run(Init(), moves);
            !s.cancelled ==> !GateClosed(s) && (s.ticks ==> s.ticker.TickerIdle? || s.ticker.Ticking?)
  {
    hide Inv;
    InvInit();
    RunKeeps(Init(), moves);
    WaitsTells(Run(Init(), moves));
  }

  lemma WaitsTells(s: State)
    requires Inv(s)
    ensures !s.cancelled ==> !GateClosed(s) && (s.ticks ==> s.ticker.TickerIdle? || s.ticker.Ticking?)
  {}

  lemma ForcedTells(s: State)
    requires Inv(s)
    ensures s.shutdown.AwaitHandlers? || s.shutdown.ShutdownDone? ==> s.server.forced == s.server.failed
  {}

  /** Once closeAdmission has returned no handler is admitted any more, however the run goes on. */
  lemma NoAdmissionAfterClose(before: seq<Move>, after: seq<Move>)
    ensures var s := Run(Init(), before);
            GateClosed(s) ==> ServingSet(Run(s, after)) <= ServingSet(s)
  {
    hide Inv;
    InvInit();
    RunKeeps(Init(), before);
    if GateClosed(Run(Init(), before)) { ServingShrinks(Run(Init(), before), after); }
  }

  lemma {:induction false} ServingShrinks(s: State, moves: seq<Move>)
    requires Inv(s) && GateClosed(s)
    ensures ServingSet(Run(s, moves)) <= ServingSet(s)
    decreases |moves|
  {
    hide Inv, GateClosed;
    if moves != [] {
      var s2 := Next(s, moves[0]);
      NextKeeps(s, moves[0]);
      ClosedStep(s, moves[0]);
      ServingShrinks(s2, moves[1..]);
    }
  }

  lemma ClosedStep(s: State, m: Move)
    requires Inv(s) && GateClosed(s)
    ensures GateClosed(Next(s, m)) && ServingSet(Next(s, m)) <= ServingSet(s)
  {
    hide ServingSet, HandlersCounted;
    StaysClosed(s, m);
    if m.Handler? {
      NoneEnters(s, m.h);
    } else {
      KeptServing(s, m);
      SameServing(s, Next(s, m));
    }
  }

  lemma StaysClosed(s: State, m: Move)
    requires GateClosed(s) && Order(s)
    ensures GateClosed(Next(s, m))
  {}

  lemma NoneEnters(s: State, h: Hid)
    requires s.closing
    ensures ServingSet(HandlerStep(s, h)) <= ServingSet(s)
  {}

  /** A handler that has the gate's mutex is let in exactly when admission has not been closed. */
  lemma AdmittedIff(moves: seq<Move>, h: Hid)
    ensures var s := Run(Init(), moves);
            h in s.handlers && s.handlers[h].GateLocked? ==>
              h in Next(s, Handler(h)).handlers && (Next(s, Handler(h)).handlers[h].Serving? <==> !GateClosed(s))
  {
    hide Inv;
    InvInit();
    RunKeeps(Init(), moves);
    var s := Run(Init(), moves);
    if h in s.handlers && s.handlers[h].GateLocked? {
      AdmissionStep(s, h);
    }
  }

  lemma AdmissionStep(s: State, h: Hid)
    requires Inv(s) && h in s.handlers && s.handlers[h].GateLocked?
    ensures h in Next(s, Handler(h)).handlers && (Next(s, Handler(h)).handlers[h].Serving? <==> !GateClosed(s))
  {}

  /** The gate's wait group counts the handlers that are inside; it never counts below zero and
      nothing is added to it once it is waited for. */
  lemma GateCountsHandlers(moves: seq<Move>, m: Move)
    ensures var s := Run(Init(), moves);
            && s.active == |ServingSet(s)|
            && (s.shutdown.AwaitHandlers? ==> Next(s, m).active <= s.active)
            && (m.Handler? && m.h in s.handlers && s.handlers[m.h].Serving? ==> s.active > 0)
  {
    hide Inv;
    InvInit();
    RunKeeps(Init(), moves);
    CountStep(Run(Init(), moves), m);
  }

  lemma CountStep(s: State, m: Move)
    requires Inv(s)
    ensures s.active == |ServingSet(s)|
    ensures s.shutdown.AwaitHandlers? ==> Next(s, m).active <= s.active
    ensures m.Handler? && m.h in s.handlers && s.handlers[m.h].Serving? ==> s.active > 0
  {
    if m.Handler? && m.h in s.handlers && s.handlers[m.h].Serving? { assert m.h in ServingSet(s); }
  }
}
