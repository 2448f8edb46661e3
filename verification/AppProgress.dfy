/**
 * The shutdown comes to an end (app.go:286-300, 347-426): once the context is cancelled the
 * two goroutines, the handlers and the cleanup of run never wait for each other in a circle,
 * and no run of steps is longer than a bound that each of them lowers.
 */
module AppProgress {
  import opened AppShutdown

  // ---------- how far it is to the end ----------

  function MainRank(m: MainPc): nat {
    match m
    case MakingServices => 32
    case MakingAuth => 31
    case Loading => 30
    case Preparing => 20
    case Listening => 10
    case Cancelling => 4
    case WaitingGoroutines => 3
    case ClosingAuth => 2
    case ClosingServices => 1
    case Ended => 0
  }

  function TickerRank(t: TickerPc): nat {
    match t
    case Tickless => 1
    case TickerIdle => 1
    case Ticking => 2
    case _ => 0
  }

  function ShutdownRank(p: ShutdownPc): nat {
    match p
    case NoShutdown => 0
    case AwaitCancel => 7
    case LockGate => 6
    case SetClosing => 5
    case ShuttingServer => 4
    case ForcingServer => 3
    case AwaitHandlers => 2
    case ShutdownDone => 0
  }

  function HandlerRank(p: HandlerPc): nat {
    match p
    case Arrived => 3
    case GateLocked => 2
    case Serving => 1
    case Left => 0
  }

  /** The handlers that have at least so many steps before them. */
  function Within(handlers: map<Hid, HandlerPc>, n: nat): set<Hid> {
    set h | h in handlers && n <= HandlerRank(handlers[h])
  }

  function HandlersRank(handlers: map<Hid, HandlerPc>): nat {
    |Within(handlers, 1)| + |Within(handlers, 2)| + |Within(handlers, 3)|
  }

  function Rank(s: State): nat {
    MainRank(s.main) + TickerRank(s.ticker) + ShutdownRank(s.shutdown) + HandlersRank(s.handlers)
  }

  lemma WithinMoved(handlers: map<Hid, HandlerPc>, h: Hid, pc: HandlerPc, n: nat)
    requires h in handlers && HandlerRank(pc) < HandlerRank(handlers[h])
    ensures var after := Within(handlers[h := pc], n);
      && after == Within(handlers, n) - (if HandlerRank(pc) < n then {h} else {})
      && |after| <= |Within(handlers, n)|
      && (n == HandlerRank(handlers[h]) ==> |after| < |Within(handlers, n)|)
  {
    hide HandlerRank;
    var before, after := Within(handlers, n), Within(handlers[h := pc], n);
    assert after == before - (if HandlerRank(pc) < n then {h} else {});
    assert after <= before;
    if n == HandlerRank(handlers[h]) {
      assert h in before && after == before - {h};
    }
  }

  /** A handler that moves on lowers the rank. */
  lemma HandlerLowers(handlers: map<Hid, HandlerPc>, h: Hid, pc: HandlerPc)
    requires h in handlers && HandlerRank(pc) < HandlerRank(handlers[h])
    ensures HandlersRank(handlers[h := pc]) < HandlersRank(handlers)
  {
    hide Within;
    WithinMoved(handlers, h, pc, 1);
    WithinMoved(handlers, h, pc, 2);
    WithinMoved(handlers, h, pc, 3);
  }

  // ---------- the steps that need nobody's help ----------

  /**
   * Steps that take place by themselves, a handler inside being one that will leave.  A new
   * request, a tick and the caller's cancel come from outside; listenAndServe returns for
   * sure only once the server is being shut down.
   */
  predicate Own(s: State, m: Move) {
    match m
    case Main(_, _) => s.main.Listening? ==> GateClosed(s)
    case Ticker(tick) => s.ticker.TickerIdle? ==> !tick
    case Shutdown(_) => true
    case Handler(_) => true
    case _ => false
  }

  lemma HandlerDescends(s: State, h: Hid)
    ensures HandlerStep(s, h) == s || Rank(HandlerStep(s, h)) < Rank(s)
  {
    hide HandlersRank;
    var s2 := HandlerStep(s, h);
    if s2 != s {
      HandlerLowers(s.handlers, h, s2.handlers[h]);
    }
  }

  lemma MainDescends(s: State, ok: bool, ticks: bool)
    requires Inv(s)
    ensures var t := MainStep(s, ok, ticks); t == s || Rank(t) < Rank(s)
  {
    hide HandlersRank;
    OrderFacts(s);
    hide Inv;
  }

  /** Every such step that changes anything brings the end nearer. */
  lemma StepsDescend(s: State, m: Move)
    requires Inv(s) && Own(s, m)
    ensures Next(s, m) == s || Rank(Next(s, m)) < Rank(s)
  {
    hide HandlersRank;
    match m
    case Handler(h) => HandlerDescends(s, h);
    case Main(ok, ticks) => MainDescends(s, ok, ticks);
    case Ticker(tick) =>
    case Shutdown(ok) =>
  }

  lemma OrderFacts(s: State)
    requires Inv(s)
    ensures Order(s)
  {}

  // ---------- nobody waits in a circle ----------

  predicate Helps(s: State, m: Move) { Own(s, m) && Next(s, m) != s }

  /** A handler that holds the gate's mutex, or one that is inside. */
  lemma HandlerHelps(s: State, h: Hid)
    requires h in s.handlers && (s.handlers[h].GateLocked? || s.handlers[h].Serving?)
    ensures Helps(s, Handler(h))
  {
    assert HandlerStep(s, h).handlers[h] != s.handlers[h];
  }

  lemma ShutdownMoves(s: State)
    requires Inv(s) && s.cancelled && !s.shutdown.NoShutdown? && !s.shutdown.ShutdownDone?
    ensures exists m :: Helps(s, m)
  {
    if s.shutdown.LockGate? && !s.gateMu.Free? {
      GateOwner(s);
      HandlerHelps(s, s.gateMu.h);
    } else if s.shutdown.AwaitHandlers? && s.active > 0 {
      var h := SomeHandler(s);
      HandlerHelps(s, h);
    } else {
      assert Helps(s, Shutdown(true));
    }
  }

  lemma GateOwner(s: State)
    requires Inv(s) && s.shutdown.LockGate? && !s.gateMu.Free?
    ensures s.gateMu.ByHandler? && s.gateMu.h in s.handlers && s.handlers[s.gateMu.h].GateLocked?
  {}

  lemma SomeHandler(s: State) returns (h: Hid)
    requires Inv(s) && s.active > 0
    ensures h in s.handlers && s.handlers[h].Serving?
  {
    assert ServingSet(s) != {};
    h :| h in ServingSet(s);
  }

  lemma GoroutinesMove(s: State)
    requires Inv(s) && s.cancelled && s.goroutines > 0
    ensures exists m :: Helps(s, m)
  {
    if TickerCount(s) == 1 {
      assert Helps(s, Ticker(false));
    } else {
      ShutdownMoves(s);
    }
  }

  lemma ListeningMoves(s: State)
    requires Inv(s) && s.main.Listening? && s.cancelled
    ensures exists m :: Helps(s, m)
  {
    if GateClosed(s) {
      assert Helps(s, Main(true, true));
    } else {
      ShutdownMoves(s);
    }
  }

  lemma WaitingMoves(s: State)
    requires Inv(s) && s.main.WaitingGoroutines?
    ensures exists m :: Helps(s, m)
  {
    OrderFacts(s);
    if s.goroutines > 0 {
      GoroutinesMove(s);
    } else {
      assert Helps(s, Main(true, true));
    }
  }

  /** Unless run has ended, or the server listens and nobody cancelled, something moves by itself. */
  lemma SomethingMoves(s: State)
    requires Inv(s) && !s.main.Ended? && (s.main.Listening? ==> s.cancelled)
    ensures exists m :: Helps(s, m)
  {
    hide Inv;
    if s.main.Listening? {
      ListeningMoves(s);
    } else if s.main.WaitingGoroutines? {
      WaitingMoves(s);
    } else {
      assert Helps(s, Main(true, true));
    }
  }

  lemma NeverStuck(moves: seq<Move>)
    ensures var s := Run(Init(), moves);
      !s.main.Ended? && (s.main.Listening? ==> s.cancelled) ==> exists m :: Helps(s, m)
  {
    hide Inv, Helps;
    InvInit();
    RunKeeps(Init(), moves);
    var s := Run(Init(), moves);
    if !s.main.Ended? && (s.main.Listening? ==> s.cancelled) {
      SomethingMoves(s);
    }
  }

  // ---------- the end ----------

  /** A run of steps that each take place by themselves and change something. */
  predicate OwnRun(s: State, moves: seq<Move>)
    decreases |moves|
  {
    moves == [] || (Helps(s, moves[0]) && OwnRun(Next(s, moves[0]), moves[1..]))
  }

  lemma {:induction false} OwnRunBound(s: State, moves: seq<Move>)
    requires Inv(s) && OwnRun(s, moves)
    ensures |moves| + Rank(Run(s, moves)) <= Rank(s)
    ensures s.cancelled ==> Run(s, moves).cancelled
    decreases |moves|
  {
    hide Inv, Rank, Next;
    if moves != [] {
      NextKeeps(s, moves[0]);
      StepsDescend(s, moves[0]);
      StaysCancelled(s, moves[0]);
      OwnRunBound(Next(s, moves[0]), moves[1..]);
    }
  }

  lemma StaysCancelled(s: State, m: Move)
    ensures s.cancelled ==> Next(s, m).cancelled
  {}

  /**
   * Once the context is cancelled, run ends: no run of its own steps is longer than the
   * rank, and one that cannot be prolonged has reached the end, where nothing runs and
   * what was made is closed exactly once.
   */
  lemma ShutdownEnds(before: seq<Move>, after: seq<Move>)
    requires Run(Init(), before).cancelled && OwnRun(Run(Init(), before), after)
    ensures var s := Run(Init(), before);
      var t := Run(s, after);
      && |after| <= Rank(s)
      && ((forall m :: !Helps(t, m)) ==>
            && t.main.Ended? && NothingRuns(t)
            && t.held.authCloses == (if t.held.auth then 1 else 0)
            && t.held.servicesCloses == (if t.held.services then 1 else 0))
  {
    hide Inv, Helps, Rank, NothingRuns;
    InvInit();
    RunKeeps(Init(), before);
    var s := Run(Init(), before);
    OwnRunBound(s, after);
    RunKeeps(s, after);
    var t := Run(s, after);
    if forall m :: !Helps(t, m) {
      if !t.main.Ended? {
        SomethingMoves(t);
      }
      NothingRunsThen(t);
      HeldTells(t);
    }
  }
}
