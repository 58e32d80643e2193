/**
 `ReconnectingSecureWebSocketClient`: connection attempts, exponential backoff, and the generation and
 state checks that make late callbacks harmless, over the connecting side of its base class, whose
 completions carry no generation.

 Pending callbacks are the environment: each is delivered at most once, at any time, or never.
 */
module Reconnect {
  import opened Powers

  datatype State = Idle | Connecting | Connected | WaitingReconnect

  // The state of the base class. It is `closing` only while do_close runs.
  datatype BaseState = Down | Opening | Up

  // The four operations of a connection being opened, one after the other.
  datatype Stage = Resolve | TcpConnect | SslHandshake | WebsocketHandshake

  datatype Callback =
    | Ready(generation: nat)                // given to prepare_connection
    | Completion(generation: nat, stage: Stage)  // of a connect operation, with the attempt whose handler it holds
    | Timer(generation: nat)                // the reconnect timer handler

  // A call of one of the functions the user passed to connect(), and which connect() that was.
  datatype UserCall =
    | PrepareConnection(session: nat)
    | ConnectHandler(session: nat, ok: bool)

  // What the client has done, in order.
  datatype Entry =
    | Begun(prepare: bool, handler: bool)  // connect() accepted, with or without the two functions
    | Asked(called: bool)                  // an attempt begins; prepare_connection is called, if there is one
    | Completed(stage: Stage, ok: bool)    // a connect operation of the attempt, while the base class is connecting
    | Reported(ok: bool, called: bool, at: State)   // the connect handler is called, if there is one
    | Scheduled(delay: int)                // the reconnect timer is armed
    | Fired                                // it has fired
    | Lost                                 // the connection has been lost
    | Closed

  datatype Client = Client(
    state: State,
    base: BaseState,
    generation: nat,
    initial: int,
    max: int,
    current: int,
    hasPrepare: bool,
    hasHandler: bool,
    pending: multiset<Callback>,
    hist: History)

  // All of it; and of that, for convenience, connect() calls accepted, calls of the user's functions, the
  // delays scheduled since connect() or the last success, and whether it was a success.
  datatype History = History(
    log: seq<Entry>,
    session: nat,
    calls: seq<UserCall>,
    delays: seq<int>,
    restarted: bool,
    refused: seq<bool>)      // connect() calls refused, and whether there was a handler to tell

  datatype Event =
    | Connect(prepare: bool, handler: bool)
    | Close
    | SetInitial(delay: int)
    | SetMax(delay: int)
    | ConnectionReady(generation: nat)
    | ConnectCompletes(generation: nat, stage: Stage, ok: bool)   // not ok also if the next stage cannot be set up
    | TimerFired(generation: nat, ok: bool)
    | ConnectionLost                                              // a read, a write or the read timeout fails

  function Min(a: int, b: int): int {
    if a <= b then a else b
  }

  // Durations are ticks of the steady clock, nanoseconds.
  const SECOND: int := 1_000_000_000

  const FRESH: Client :=
    Client(Idle, Down, 0, SECOND, 60 * SECOND, SECOND, false, false, multiset{},
           History([], 0, [], [], false, []))

  function Note(c: Client, entry: Entry): Client {
    c.(hist := c.hist.(log := c.hist.log + [entry]))
  }

  function Await(c: Client, cb: Callback): Client {
    c.(pending := c.pending + multiset{cb})
  }

  function Take(c: Client, cb: Callback): Client {
    c.(pending := c.pending - multiset{cb})
  }

  // start_connect_attempt
  function StartAttempt(c: Client): Client {
    var d := Note(c.(state := Connecting, generation := c.generation + 1), Asked(c.hasPrepare));
    if c.hasPrepare then 
      Await(d.(hist := d.hist.(calls := c.hist.calls + [PrepareConnection(c.hist.session)])), Ready(d.generation))
    else d
  }

  // schedule_reconnect
  function Schedule(c: Client): Client {
    if c.state == Idle then c
    else Await(Note(c.(state := WaitingReconnect, current := Min(c.current * 2, c.max),
                       hist := c.hist.(delays := c.hist.delays + [c.current])), Scheduled(c.current)),
               Timer(c.generation))
  }

  function CallHandler(c: Client, ok: bool): Client {
    var d := Note(c, Reported(ok, c.hasHandler, c.state));
    if c.hasHandler then d.(hist := d.hist.(calls := c.hist.calls + [ConnectHandler(c.hist.session, ok)])) else d
  }

  // handle_connect_result
  function HandleResult(c: Client, generation: nat, ok: bool): Client {
    if generation != c.generation || c.state != Connecting then c
    else if ok then 
      CallHandler(c.(current := c.initial, state := Connected, hist := c.hist.(delays := [], restarted := true)), true)
    else Schedule(CallHandler(c, false))
  }

  // do_connect of the base class: refused with already_connected, or the first operation is started
  function OpenConnection(c: Client, generation: nat): Client {
    if c.base != Down then HandleResult(c, generation, false)
    else Await(c.(base := Opening), Completion(generation, Resolve))
  }

  // handle_connection_ready
  function HandleReady(c: Client, generation: nat): Client {
    if generation != c.generation || c.state != Connecting then c else OpenConnection(c, generation)
  }

  // handle_resolve, handle_connect, handle_ssl_handshake and handle_websocket_handshake of the base
  // class: dropped with its handler, unless connecting; fail_connection; the next operation; connected
  function HandleCompletion(c: Client, generation: nat, stage: Stage, ok: bool): Client {
    if c.base != Opening then c
    else GoOn(if generation == c.generation then Note(c, Completed(stage, ok)) else c, generation, stage, ok)
  }

  function GoOn(c: Client, generation: nat, stage: Stage, ok: bool): Client {
    if !ok then HandleResult(c.(base := Down), generation, false)
    else if stage == WebsocketHandshake then HandleResult(c.(base := Up), generation, true)
    else Await(c, Completion(generation, NextStage(stage)))
  }

  function NextStage(stage: Stage): Stage
    requires stage != WebsocketHandshake
  {
    match stage
    case Resolve => TcpConnect
    case TcpConnect => SslHandshake
    case SslHandshake => WebsocketHandshake
  }

  // handle_reconnect_timer
  function HandleTimer(c: Client, generation: nat, ok: bool): Client {
    if !ok || generation != c.generation || c.state != WaitingReconnect then c
    else StartAttempt(Note(c, Fired))
  }

  // connect, posted
  function DoConnect(c: Client, prepare: bool, handler: bool): Client {
    if c.state != Idle then c.(hist := c.hist.(refused := c.hist.refused + [handler]))
    else StartAttempt(NewSession(c, prepare, handler))
  }

  function NewSession(c: Client, prepare: bool, handler: bool): Client {
    Note(c.(hasPrepare := prepare, hasHandler := handler, current := Min(c.initial, c.max),
            hist := c.hist.(session := c.hist.session + 1, delays := [], restarted := false)), Begun(prepare, handler))
  }

  // stop_reconnecting
  function Stop(c: Client): Client {
    Note(c.(generation := c.generation + 1, state := Idle, hasPrepare := false, hasHandler := false,
            current := c.initial), Closed)
  }

  // handle_unexpected_disconnect of the base class, then on_unexpected_disconnect
  function Lose(c: Client): Client {
    if c.base != Up then c
    else if c.state == Connected then Schedule(Note(c.(base := Down), Lost))
    else c.(base := Down)
  }

  predicate Possible(c: Client, e: Event) {
    match e
    case ConnectionReady(g) => Ready(g) in c.pending
    case ConnectCompletes(g, stage, _) => Completion(g, stage) in c.pending
    case TimerFired(g, _) => Timer(g) in c.pending
    case _ => true
  }

  function Step(c: Client, e: Event): Client {
    match e
    case Connect(prepare, handler) => DoConnect(c, prepare, handler)
    case Close => Stop(c).(base := Down)
    case SetInitial(d) => c.(initial := d, current := if c.state == Idle then d else c.current)
    case SetMax(d) => c.(max := d, current := Min(c.current, d))
    case ConnectionReady(g) => HandleReady(Take(c, Ready(g)), g)
    case ConnectCompletes(g, stage, ok) => HandleCompletion(Take(c, Completion(g, stage)), g, stage, ok)
    case TimerFired(g, ok) => HandleTimer(Take(c, Timer(g)), g, ok)
    case ConnectionLost => Lose(c)
  }

  ghost predicate Executes(c: Client, es: seq<Event>, d: Client)
    decreases |es|
  {
    if es == [] then c == d else Possible(c, es[0]) && Executes(Step(c, es[0]), es[1..], d)
  }

  ghost predicate Reachable(c: Client) {
    exists es :: Executes(FRESH, es, c)
  }

  // ----- At most one live callback -----

  // The callback is of the current attempt or wait, so that it can bring the client on.
  predicate Live(c: Client, cb: Callback) {
    cb.generation == c.generation && c.state == if cb.Timer? then WaitingReconnect else Connecting
  }

  // The connect operations in flight that hold the handler of the current attempt.
  function Operations(c: Client): nat {
    CompletionsOf(c.pending, c.generation)
  }

  function CompletionsOf(pending: multiset<Callback>, g: nat): nat {
    pending[Completion(g, Resolve)] + pending[Completion(g, TcpConnect)]
    + pending[Completion(g, SslHandshake)] + pending[Completion(g, WebsocketHandshake)]
  }

  lemma CompletionsChange(pending: multiset<Callback>, g: nat, cb: Callback)
    ensures var n := if cb.Completion? && cb.generation == g then 1 else 0;
            && CompletionsOf(pending + multiset{cb}, g) == CompletionsOf(pending, g) + n
            && (cb in pending ==> CompletionsOf(pending - multiset{cb}, g) == CompletionsOf(pending, g) - n)
  {
    if cb.Completion? {
      match cb.stage
      case Resolve =>
      case TcpConnect =>
      case SslHandshake =>
      case WebsocketHandshake =>
    }
  }

  lemma CompletionsOfNone(pending: multiset<Callback>, g: nat)
    ensures CompletionsOf(pending, g) == 0 <==> forall stage :: Completion(g, stage) !in pending
  {
    if CompletionsOf(pending, g) == 0 {
      forall stage ensures Completion(g, stage) !in pending {
        match stage
        case Resolve =>
        case TcpConnect =>
        case SslHandshake =>
        case WebsocketHandshake =>
      }
    }
  }

  function Readies(c: Client): nat {
    c.pending[Ready(c.generation)]
  }

  function Timers(c: Client): nat {
    c.pending[Timer(c.generation)]
  }

  // No callback is of a later generation than the client.
  ghost predicate Aged(c: Client) {
    forall cb :: cb in c.pending ==> cb.generation <= c.generation
  }

  // The base class is where the state says, but for an attempt: its connection may have been taken away.
  predicate BaseFits(c: Client) {
    match c.state
    case Idle => c.base == Down
    case WaitingReconnect => c.base == Down
    case Connected => c.base == Up
    case Connecting => (Readies(c) == 1 ==> c.base == Down) && (c.base == Opening ==> Operations(c) == 1)
  }

  ghost predicate Inv(c: Client) {
    && Aged(c) && BaseFits(c)
    && Readies(c) + Operations(c) <= (if c.state == Connecting && c.hasPrepare then 1 else 0)
    && Timers(c) <= (if c.state == WaitingReconnect then 1 else 0)
    // an idle client keeps no function of the user alive
    && (c.state == Idle ==> !c.hasPrepare && !c.hasHandler)
  }

  // Something is going to happen: the client is not stuck in an attempt or in a wait. (An attempt for
  // which there is no prepare_connection to call waits for close().)
  ghost predicate Progressing(c: Client) {
    && (c.state == Connecting && c.hasPrepare ==> Readies(c) == 1 || c.base == Opening)
    && (c.state == WaitingReconnect ==> Timers(c) == 1)
  }

  // What a step from `c` to `d` keeps.
  ghost predicate Kept(c: Client, d: Client) {
    Inv(d) && c.generation <= d.generation
  }

  lemma StartAttemptKeeps(c: Client)
    requires Aged(c) && c.base == Down
    ensures Kept(c, StartAttempt(c)) && Progressing(StartAttempt(c))
  {
    hide CompletionsOf;
    var g := c.generation + 1;
    assert c.pending[Ready(g)] == 0 && c.pending[Timer(g)] == 0;
    CompletionsOfNone(c.pending, g);
    CompletionsChange(c.pending, g, Ready(g));
  }

  // All callbacks of the current attempt have been delivered.
  ghost predicate Spent(c: Client) {
    Aged(c) && Readies(c) == 0 && Operations(c) == 0 && Timers(c) == 0
  }

  lemma ScheduleKeeps(c: Client)
    requires c.state != Idle && Spent(c) && c.base == Down
    ensures Kept(c, Schedule(c)) && Progressing(Schedule(c))
  {
    hide CompletionsOf;
    CompletionsChange(c.pending, c.generation, Timer(c.generation));
  }

  lemma ResultKeeps(c: Client, g: nat, ok: bool)
    requires g == c.generation && c.state == Connecting && Spent(c) && c.base == if ok then Up else Down
    ensures Kept(c, HandleResult(c, g, ok)) && Progressing(HandleResult(c, g, ok))
  {
    hide CompletionsOf;
    if !ok {
      ScheduleKeeps(CallHandler(c, false));
    }
  }

  // Taking out a callback that is not live, or the live one.
  lemma TakeKeeps(c: Client, cb: Callback)
    requires Inv(c) && cb in c.pending
    ensures Live(c, cb) ==> Spent(Take(c, cb)) && (cb.Ready? ==> c.base == Down)
    ensures !Live(c, cb) ==> Inv(Take(c, cb)) && (Progressing(Take(c, cb)) <==> Progressing(c))
    ensures cb.Timer? ==> Inv(Take(c, cb)) && (Live(c, cb) ==> c.base == Down && !Progressing(Take(c, cb)))
    ensures Live(c, cb) && cb.Timer? ==> Progressing(c)
  {
    hide CompletionsOf;
    CompletionsChange(c.pending, c.generation, cb);
    assert cb.Completion? && cb.generation == c.generation ==> CompletionsOf(c.pending, c.generation) > 0 by {
      CompletionsOfNone(c.pending, c.generation);
    }
  }

  lemma ReadyKeeps(c: Client, g: nat)
    requires Inv(c) && Ready(g) in c.pending
    ensures Kept(c, Step(c, ConnectionReady(g))) && (Progressing(c) <==> Progressing(Step(c, ConnectionReady(g))))
  {
    hide CompletionsOf;
    TakeKeeps(c, Ready(g));
    CompletionsChange(c.pending - multiset{Ready(g)}, c.generation, Completion(g, Resolve));
  }

  // A completion that passes the check of the base class, but holds the handler of an earlier attempt,
  // and that ends the opening of the connection.
  ghost predicate Disturbs(c: Client, e: Event) {
    && e.ConnectCompletes? && c.base == Opening && e.generation != c.generation
    && (!e.ok || e.stage == WebsocketHandshake)
  }

  // Of the current attempt.
  lemma OwnCompletionKeeps(c: Client, stage: Stage, ok: bool)
    requires Inv(c) && Completion(c.generation, stage) in c.pending
    ensures var d := Step(c, ConnectCompletes(c.generation, stage, ok));
            Kept(c, d) && (Progressing(c) <==> Progressing(d))
  {
    hide CompletionsOf, HandleResult;
    var g := c.generation;
    TakeKeeps(c, Completion(g, stage));
    var c' := Note(Take(c, Completion(g, stage)), Completed(stage, ok));
    if c.base == Opening && (!ok || stage == WebsocketHandshake) {
      ResultKeeps(c'.(base := if ok then Up else Down), g, ok);
    } else if c.base == Opening {
      CompletionsChange(c'.pending, g, Completion(g, NextStage(stage)));
    }
  }

  // Of an earlier one.
  lemma LateCompletionKeeps(c: Client, g: nat, stage: Stage, ok: bool)
    requires Inv(c) && Completion(g, stage) in c.pending && g != c.generation
    ensures var e := ConnectCompletes(g, stage, ok);
            Kept(c, Step(c, e)) && (Progressing(Step(c, e)) <==> Progressing(c) && !Disturbs(c, e))
  {
    hide CompletionsOf, Schedule, CallHandler;
    var c' := Take(c, Completion(g, stage));
    TakeKeeps(c, Completion(g, stage));
    if c.base == Opening && ok && stage != WebsocketHandshake {
      CompletionsChange(c'.pending, c.generation, Completion(g, NextStage(stage)));
    }
  }

  // A wait that has not been cancelled ends without an error.
  ghost predicate AbortsLiveTimer(c: Client, e: Event) {
    e.TimerFired? && !e.ok && Live(c, Timer(e.generation))
  }

  lemma TimerKeeps(c: Client, g: nat, ok: bool)
    requires Inv(c) && Timer(g) in c.pending
    ensures Kept(c, Step(c, TimerFired(g, ok)))
    ensures Progressing(Step(c, TimerFired(g, ok))) <==> Progressing(c) && !AbortsLiveTimer(c, TimerFired(g, ok))
  {
    hide CompletionsOf, StartAttempt, Inv, Progressing;
    TakeKeeps(c, Timer(g));
    if ok && Live(c, Timer(g)) {
      StartAttemptKeeps(Note(Take(c, Timer(g)), Fired));
    }
  }

  lemma DoConnectKeeps(c: Client, prepare: bool, handler: bool)
    requires Inv(c)
    ensures Kept(c, DoConnect(c, prepare, handler)) && (Progressing(c) <==> Progressing(DoConnect(c, prepare, handler)))
  {
    hide CompletionsOf;
    if c.state == Idle {
      StartAttemptKeeps(NewSession(c, prepare, handler));
    }
  }

  lemma CloseKeeps(c: Client)
    requires Inv(c)
    ensures Kept(c, Step(c, Close)) && Progressing(Step(c, Close))
  {
    hide CompletionsOf;
    CompletionsOfNone(c.pending, c.generation + 1);
  }

  lemma LoseKeeps(c: Client)
    requires Inv(c)
    ensures Kept(c, Lose(c)) && (Progressing(c) <==> Progressing(Lose(c)))
  {
    hide CompletionsOf;
    if c.state == Connected {
      ScheduleKeeps(Note(c.(base := Down), Lost));
    }
  }

  // Every step keeps the invariant. The client stays free to progress exactly as long as no completion
  // of an earlier attempt ends the opening of a connection, and no timer that is waited for fails.
  // Once it is stuck, only close() helps.
  lemma StepKeeps(c: Client, e: Event)
    requires Inv(c) && Possible(c, e)
    ensures Kept(c, Step(c, e))
    ensures Progressing(Step(c, e)) <==>
              e.Close? || (Progressing(c) && !Disturbs(c, e) && !AbortsLiveTimer(c, e))
  {
    hide CompletionsOf;
    match e
    case Connect(prepare, handler) => DoConnectKeeps(c, prepare, handler);
    case ConnectionReady(g) => ReadyKeeps(c, g);
    case ConnectCompletes(g, stage, ok) =>
      if g == c.generation {
        OwnCompletionKeeps(c, stage, ok);
      } else {
        LateCompletionKeeps(c, g, stage, ok);
      }
    case TimerFired(g, ok) => TimerKeeps(c, g, ok);
    case ConnectionLost => LoseKeeps(c);
    case Close => CloseKeeps(c);
    case SetInitial(_) =>
    case SetMax(_) =>
  }

  lemma {:induction false} RunKeeps(c: Client, es: seq<Event>, d: Client)
    requires Inv(c) && Executes(c, es, d)
    ensures Kept(c, d)
    decreases |es|
  {
    if es != [] {
      StepKeeps(c, es[0]);
      RunKeeps(Step(c, es[0]), es[1..], d);
    }
  }

  lemma ReachableInv(c: Client)
    requires Reachable(c)
    ensures Inv(c)
  {
    var es :| Executes(FRESH, es, c);
    RunKeeps(FRESH, es, c);
  }

  // At most one pending callback is live, it is pending once, and the state says of which kind it is.
  lemma OneLiveCallback(c: Client, a: Callback, b: Callback)
    requires Reachable(c)
    requires a in c.pending && b in c.pending && Live(c, a) && Live(c, b)
    ensures a == b && c.pending[a] == 1
    ensures a.Timer? <==> c.state == WaitingReconnect
  {
    ReachableInv(c);
    TakeKeeps(c, a);
    NothingLive(Take(c, a), b);
  }

  lemma NothingLive(c: Client, cb: Callback)
    requires Spent(c) && cb.generation == c.generation
    ensures cb !in c.pending
  {
    CompletionsOfNone(c.pending, c.generation);
  }

  // A ready callback that passes its check finds the base class disconnected, so the connection is
  // never refused as already connected.
  lemma ReadyIsNeverRefused(c: Client, g: nat)
    requires Reachable(c) && Ready(g) in c.pending && Live(c, Ready(g))
    ensures Step(c, ConnectionReady(g)) == Await(Take(c, Ready(g)).(base := Opening), Completion(g, Resolve))
  {
    ReachableInv(c);
  }

  // ----- Progress -----

  ghost predicate AlwaysProgressing(c: Client, es: seq<Event>)
    decreases |es|
  {
    Progressing(c) && (es == [] || AlwaysProgressing(Step(c, es[0]), es[1..]))
  }

  ghost predicate Undisturbed(c: Client, es: seq<Event>)
    decreases |es|
  {
    es == [] || (!Disturbs(c, es[0]) && !AbortsLiveTimer(c, es[0]) && Undisturbed(Step(c, es[0]), es[1..]))
  }

  // An attempt or a wait always has its next callback to come if and only if no completion of an
  // earlier attempt ends the opening of a later connection, and no timer that is waited for fails.
  lemma {:induction false} NeverStuckExactly(c: Client, es: seq<Event>, d: Client)
    requires Inv(c) && Progressing(c) && Executes(c, es, d)
    ensures AlwaysProgressing(c, es) <==> Undisturbed(c, es)
    decreases |es|
  {
    if es != [] {
      StepKeeps(c, es[0]);
      if Progressing(Step(c, es[0])) {
        NeverStuckExactly(Step(c, es[0]), es[1..], d);
        CloseDisturbsNothing(c, es[0]);
      }
    }
  }

  lemma CloseDisturbsNothing(c: Client, e: Event)
    ensures e.Close? ==> !Disturbs(c, e) && !AbortsLiveTimer(c, e)
  {
  }

  // A stuck client stays stuck until close().
  lemma {:induction false} StuckUntilClose(c: Client, es: seq<Event>, d: Client)
    requires Inv(c) && !Progressing(c) && Executes(c, es, d) && Close !in es
    ensures !Progressing(d)
    decreases |es|
  {
    if es != [] {
      assert es[0] in es;
      StepKeeps(c, es[0]);
      StuckUntilClose(Step(c, es[0]), es[1..], d);
    }
  }

  lemma ExecutesCons(c: Client, e: Event, es: seq<Event>, d: Client)
    requires Possible(c, e) && Executes(Step(c, e), es, d)
    ensures Executes(c, [e] + es, d)
  {
    assert ([e] + es)[1..] == es;
  }

  lemma ExecutesNone(c: Client)
    ensures Executes(c, [], c)
  {
  }

  lemma {:induction false} ExecutesConcat(c: Client, es: seq<Event>, m: Client, fs: seq<Event>, d: Client)
    requires Executes(c, es, m) && Executes(m, fs, d)
    ensures Executes(c, es + fs, d)
    decreases |es|
  {
    hide Step, Possible;
    if es == [] {
      assert es + fs == fs;
    } else {
      ExecutesConcat(Step(c, es[0]), es[1..], m, fs, d);
      assert (es + fs)[1..] == es[1..] + fs;
    }
  }

  // connect() by an idle client, and its user answering with a host.
  lemma Dials(c: Client) returns (es: seq<Event>, d: Client)
    requires c.state == Idle && c.base == Down
    ensures Executes(c, es, d)
    ensures d.state == Connecting && d.base == Opening && d.generation == c.generation + 1
    ensures d.pending == c.pending + multiset{Completion(d.generation, Resolve)}
    ensures d.hasPrepare && d.hasHandler && d.initial == c.initial && d.max == c.max
  {
    hide Executes;
    var g := c.generation + 1;
    var c1 := Step(c, Connect(true, true));
    assert c1.state == Connecting && c1.base == Down && c1.generation == g;
    assert c1.pending == c.pending + multiset{Ready(g)};
    d := Step(c1, ConnectionReady(g));
    assert Take(c1, Ready(g)).pending == c.pending;
    ExecutesNone(d);
    ExecutesCons(c1, ConnectionReady(g), [], d);
    ExecutesCons(c, Connect(true, true), [ConnectionReady(g)] + [], d);
    es := [Connect(true, true)] + ([ConnectionReady(g)] + []);
  }

  // An earlier lookup, of attempt `g`, is aborted, and then the lookup of the current attempt completes.
  lemma GetsStuck(c: Client, g: nat) returns (es: seq<Event>, d: Client)
    requires c.state == Connecting && c.base == Opening && g != c.generation
    requires c.pending == multiset{Completion(g, Resolve), Completion(c.generation, Resolve)}
    ensures Executes(c, es, d) && d == c.(base := Down, pending := multiset{})
  {
    hide Executes, Schedule, CallHandler;
    var e, f := ConnectCompletes(g, Resolve, false), ConnectCompletes(c.generation, Resolve, false);
    var c1 := c.(base := Down, pending := multiset{Completion(c.generation, Resolve)});
    assert c.pending - multiset{Completion(g, Resolve)} == c1.pending;
    assert Step(c, e) == c1;
    d := c.(base := Down, pending := multiset{});
    assert c1.pending - multiset{Completion(c.generation, Resolve)} == d.pending;
    assert Step(c1, f) == d;
    ExecutesNone(d);
    ExecutesCons(c1, f, [], d);
    ExecutesCons(c, e, [f] + [], d);
    es := [e] + ([f] + []);
  }

  // It does happen: close() and connect() while the first name lookup is still running. The aborted
  // lookup fails the second connection, whose own lookup is then dropped together with its handler.
  lemma MayGetStuck() returns (es: seq<Event>, d: Client)
    ensures Executes(FRESH, es, d)
    ensures d.state == Connecting && d.hasPrepare && d.hasHandler && d.pending == multiset{} && d.base == Down
  {
    hide Executes;
    var es1, c1 := Dials(FRESH);
    var c2 := Step(c1, Close);
    assert c2.pending == multiset{Completion(1, Resolve)} && c2.generation == 2;
    var es3, c3 := Dials(c2);
    assert c3.pending == multiset{Completion(1, Resolve), Completion(3, Resolve)};
    es, d := GetsStuck(c3, 1);
    ExecutesConcat(c2, es3, c3, es, d);
    ExecutesCons(c1, Close, es3 + es, d);
    ExecutesConcat(FRESH, es1, c1, [Close] + (es3 + es), d);
    es := es1 + ([Close] + (es3 + es));
  }

  // ----- What the user is told -----

  // A call of the connect handler comes right after a call of prepare_connection of the same session,
  // and between two calls of prepare_connection of one session there is one of the connect handler.
  ghost predicate Alternating(calls: seq<UserCall>) {
    && (forall i :: 0 <= i < |calls| && calls[i].ConnectHandler? ==>
          i > 0 && calls[i - 1] == PrepareConnection(calls[i].session))
    && (forall i :: 0 < i < |calls| && calls[i].PrepareConnection? && calls[i - 1].session == calls[i].session ==>
          calls[i - 1].ConnectHandler?)
    && (forall i :: 0 < i < |calls| ==> calls[i - 1].session <= calls[i].session)
  }

  // The last call tells how far the client has got.
  ghost predicate Told(c: Client) {
    && Alternating(c.hist.calls)
    && (c.hist.calls != [] ==> c.hist.calls[|c.hist.calls| - 1].session <= c.hist.session)
    && (c.state != Idle ==>
          c.hasPrepare && c.hasHandler && c.hist.calls != [] && ToldLast(c, c.hist.calls[|c.hist.calls| - 1]))
  }

  predicate ToldLast(c: Client, last: UserCall) {
    match c.state
    case Idle => true
    case Connecting => last == PrepareConnection(c.hist.session)
    case Connected => last == ConnectHandler(c.hist.session, true)
    case WaitingReconnect => last.ConnectHandler? && last.session == c.hist.session
  }

  // What the user is told does not depend on the base class, what is pending and what is noted.
  lemma TellsAnyway(c: Client, base: BaseState, pending: multiset<Callback>, log: seq<Entry>)
    requires Told(c)
    ensures Told(c.(base := base, pending := pending, hist := c.hist.(log := log)))
  {
  }

  lemma AttemptTells(c: Client)
    requires Told(c) && c.state == WaitingReconnect
    ensures Told(StartAttempt(c))
  {
  }

  lemma ResultTells(c: Client, g: nat, ok: bool)
    requires Told(c)
    ensures Told(HandleResult(c, g, ok))
  {
  }

  lemma ConnectTells(c: Client)
    requires Told(c)
    ensures Told(DoConnect(c, true, true))
  {
  }

  lemma CompletionTells(c: Client, g: nat, stage: Stage, ok: bool)
    requires Told(c)
    ensures Told(HandleCompletion(c, g, stage, ok))
  {
    hide Told, HandleResult;
    var log := if g == c.generation then c.hist.log + [Completed(stage, ok)] else c.hist.log;
    TellsAnyway(c, if ok then Up else Down, c.pending, log);
    ResultTells(c.(base := if ok then Up else Down, hist := c.hist.(log := log)), g, ok);
    if stage != WebsocketHandshake {
      TellsAnyway(c, c.base, c.pending + multiset{Completion(g, NextStage(stage))}, log);
    }
  }

  lemma TimerTells(c: Client, g: nat, ok: bool)
    requires Told(c)
    ensures Told(HandleTimer(c, g, ok))
  {
    hide Told, StartAttempt;
    TellsAnyway(c, c.base, c.pending, c.hist.log + [Fired]);
    if c.state == WaitingReconnect {
      AttemptTells(Note(c, Fired));
    }
  }

  lemma ReadyTells(c: Client, g: nat)
    requires Told(c)
    ensures Told(HandleReady(c, g))
  {
    hide Told, HandleResult;
    ResultTells(c, g, false);
    TellsAnyway(c, Opening, c.pending + multiset{Completion(g, Resolve)}, c.hist.log);
  }

  lemma LossTells(c: Client)
    requires Told(c)
    ensures Told(Lose(c))
  {
    TellsAnyway(c, Down, c.pending, c.hist.log);
    TellsAnyway(c, Down, c.pending, c.hist.log + [Lost]);
  }

  lemma StepTells(c: Client, e: Event)
    requires Told(c) && Possible(c, e)
    requires e.Connect? ==> e.prepare && e.handler
    ensures Told(Step(c, e))
  {
    hide Told, HandleReady, HandleCompletion, HandleTimer, DoConnect, Lose;
    match e
    case Connect(_, _) => ConnectTells(c);
    case ConnectionReady(g) =>
      TellsAnyway(c, c.base, Take(c, Ready(g)).pending, c.hist.log);
      ReadyTells(Take(c, Ready(g)), g);
    case ConnectCompletes(g, stage, ok) =>
      TellsAnyway(c, c.base, Take(c, Completion(g, stage)).pending, c.hist.log);
      CompletionTells(Take(c, Completion(g, stage)), g, stage, ok);
    case TimerFired(g, ok) =>
      TellsAnyway(c, c.base, Take(c, Timer(g)).pending, c.hist.log);
      TimerTells(Take(c, Timer(g)), g, ok);
    case ConnectionLost => LossTells(c);
    case Close => SettingTells(c, e);
    case SetInitial(_) => SettingTells(c, e);
    case SetMax(_) => SettingTells(c, e);
  }

  lemma SettingTells(c: Client, e: Event)
    requires Told(c) && (e.Close? || e.SetInitial? || e.SetMax?)
    ensures Told(Step(c, e))
  {
  }

  lemma {:induction false} RunTells(c: Client, es: seq<Event>, d: Client)
    requires Told(c) && Executes(c, es, d)
    requires forall e :: e in es && e.Connect? ==> e.prepare && e.handler
    ensures Told(d)
    decreases |es|
  {
    if es != [] {
      assert es[0] in es;
      StepTells(c, es[0]);
      RunTells(Step(c, es[0]), es[1..], d);
    }
  }

  // If every connect() passes both functions, each attempt asks for a connection once, and unless the
  // session is closed its result, a failure or a success, is reported exactly once before the next
  // attempt begins; only the attempt under way is not reported yet.
  lemma EveryAttemptIsReported(es: seq<Event>, d: Client)
    requires Executes(FRESH, es, d)
    requires forall e :: e in es && e.Connect? ==> e.prepare && e.handler
    ensures Alternating(d.hist.calls)
    ensures d.state != Idle ==> d.hist.calls != [] && ToldLast(d, d.hist.calls[|d.hist.calls| - 1])
  {
    RunTells(FRESH, es, d);
  }

  // ----- After close() -----

  // The event that delivers a callback, whatever its outcome.
  predicate Delivers(e: Event, cb: Callback) {
    match cb
    case Ready(g) => e.ConnectionReady? && e.generation == g
    case Completion(g, stage) => e.ConnectCompletes? && e.generation == g && e.stage == stage
    case Timer(g) => e.TimerFired? && e.generation == g
  }

  // A callback that existed when close() ran calls no function of the user and changes nothing about
  // the attempts, whenever it is delivered and whatever has happened in between, new sessions included.
  // It does nothing at all if and only if it is not a connect operation delivered while another
  // connection is being opened.
  lemma ClosedCallbacksAreInert(c: Client, es: seq<Event>, d: Client, e: Event, cb: Callback)
    requires Reachable(c) && Executes(Step(c, Close), es, d)
    requires cb.generation <= c.generation && Delivers(e, cb) && Possible(d, e)
    ensures Step(d, e).(base := d.base, pending := d.pending) == d
    ensures Step(d, e).base == d.base <==> !Disturbs(d, e)
    ensures Step(d, e) == Take(d, cb) <==> !(cb.Completion? && d.base == Opening)
  {
    ReachableInv(c);
    StepKeeps(c, Close);
    RunKeeps(Step(c, Close), es, d);
    LateCallback(d, e, cb);
  }

  lemma LateCallback(d: Client, e: Event, cb: Callback)
    requires cb.generation < d.generation && Delivers(e, cb) && Possible(d, e)
    ensures Step(d, e).(base := d.base, pending := d.pending) == d
    ensures Step(d, e).base == d.base <==> !Disturbs(d, e)
    ensures Step(d, e) == Take(d, cb) <==> !(cb.Completion? && d.base == Opening)
  {
    if cb.Completion? && d.base == Opening && e.ok && cb.stage != WebsocketHandshake {
      var next := Completion(cb.generation, NextStage(cb.stage));
      assert Step(d, e).pending[next] == Take(d, cb).pending[next] + 1;
    }
  }

  // Only functions of a later session have been called since there were `n` calls.
  ghost predicate CallsAfter(c: Client, n: nat, session: nat) {
    && n <= |c.hist.calls|
    && (forall i :: n <= i < |c.hist.calls| ==> c.hist.calls[i].session > session)
    && session <= c.hist.session && (c.state != Idle ==> session < c.hist.session)
  }

  lemma ResultCallsAfter(c: Client, g: nat, ok: bool, n: nat, session: nat)
    requires CallsAfter(c, n, session)
    ensures CallsAfter(HandleResult(c, g, ok), n, session)
  {
  }

  lemma CallsAfterAnyway(c: Client, base: BaseState, pending: multiset<Callback>, log: seq<Entry>, n: nat, session: nat)
    requires CallsAfter(c, n, session)
    ensures CallsAfter(c.(base := base, pending := pending, hist := c.hist.(log := log)), n, session)
  {
  }

  lemma CompletionCallsAfter(c: Client, g: nat, stage: Stage, ok: bool, n: nat, session: nat)
    requires CallsAfter(c, n, session)
    ensures CallsAfter(HandleCompletion(c, g, stage, ok), n, session)
  {
    hide CallsAfter, HandleResult;
    var log := if g == c.generation then c.hist.log + [Completed(stage, ok)] else c.hist.log;
    CallsAfterAnyway(c, if ok then Up else Down, c.pending, log, n, session);
    ResultCallsAfter(c.(base := if ok then Up else Down, hist := c.hist.(log := log)), g, ok, n, session);
    if stage != WebsocketHandshake {
      CallsAfterAnyway(c, c.base, c.pending + multiset{Completion(g, NextStage(stage))}, log, n, session);
    }
  }

  lemma LossCallsAfter(c: Client, n: nat, session: nat)
    requires CallsAfter(c, n, session)
    ensures CallsAfter(Lose(c), n, session)
  {
  }

  lemma TimerCallsAfter(c: Client, g: nat, ok: bool, n: nat, session: nat)
    requires CallsAfter(c, n, session)
    ensures CallsAfter(HandleTimer(c, g, ok), n, session)
  {
    if c.state == WaitingReconnect {
      AttemptCallsAfter(Note(c, Fired), n, session);
    }
  }

  lemma ReadyCallsAfter(c: Client, g: nat, n: nat, session: nat)
    requires CallsAfter(c, n, session)
    ensures CallsAfter(HandleReady(c, g), n, session)
  {
    hide CallsAfter, HandleResult;
    ResultCallsAfter(c, g, false, n, session);
    CallsAfterAnyway(c, Opening, c.pending + multiset{Completion(g, Resolve)}, c.hist.log, n, session);
  }

  lemma SettingCallsAfter(c: Client, e: Event, n: nat, session: nat)
    requires CallsAfter(c, n, session) && (e.Close? || e.SetInitial? || e.SetMax?)
    ensures CallsAfter(Step(c, e), n, session)
  {
  }

  lemma ConnectCallsAfter(c: Client, prepare: bool, handler: bool, n: nat, session: nat)
    requires CallsAfter(c, n, session)
    ensures CallsAfter(DoConnect(c, prepare, handler), n, session)
  {
    if c.state == Idle {
      AttemptCallsAfter(NewSession(c, prepare, handler), n, session);
    }
  }

  lemma AttemptCallsAfter(c: Client, n: nat, session: nat)
    requires CallsAfter(c, n, session) && session < c.hist.session
    ensures CallsAfter(StartAttempt(c), n, session)
  {
  }

  lemma StepCallsAfter(c: Client, e: Event, n: nat, session: nat)
    requires CallsAfter(c, n, session) && Possible(c, e)
    ensures CallsAfter(Step(c, e), n, session)
  {
    hide CallsAfter, HandleReady, HandleCompletion, HandleTimer, DoConnect, Lose;
    match e
    case Connect(prepare, handler) => ConnectCallsAfter(c, prepare, handler, n, session);
    case ConnectionReady(g) =>
      CallsAfterAnyway(c, c.base, Take(c, Ready(g)).pending, c.hist.log, n, session);
      ReadyCallsAfter(Take(c, Ready(g)), g, n, session);
    case ConnectCompletes(g, stage, ok) =>
      CallsAfterAnyway(c, c.base, Take(c, Completion(g, stage)).pending, c.hist.log, n, session);
      CompletionCallsAfter(Take(c, Completion(g, stage)), g, stage, ok, n, session);
    case TimerFired(g, ok) =>
      CallsAfterAnyway(c, c.base, Take(c, Timer(g)).pending, c.hist.log, n, session);
      TimerCallsAfter(Take(c, Timer(g)), g, ok, n, session);
    case ConnectionLost => LossCallsAfter(c, n, session);
    case Close => SettingCallsAfter(c, e, n, session);
    case SetInitial(_) => SettingCallsAfter(c, e, n, session);
    case SetMax(_) => SettingCallsAfter(c, e, n, session);
  }

  lemma {:induction false} RunCallsAfter(c: Client, es: seq<Event>, d: Client, n: nat, session: nat)
    requires CallsAfter(c, n, session) && Executes(c, es, d)
    ensures CallsAfter(d, n, session)
    decreases |es|
  {
    if es != [] {
      StepCallsAfter(c, es[0], n, session);
      RunCallsAfter(Step(c, es[0]), es[1..], d, n, session);
    }
  }

  // After close() no function passed to an earlier connect() is ever called again.
  lemma ClosedSessionIsSilent(c: Client, es: seq<Event>, d: Client, i: nat)
    requires Executes(Step(c, Close), es, d)
    requires |c.hist.calls| <= i < |d.hist.calls|
    ensures d.hist.calls[i].session > c.hist.session
  {
    RunCallsAfter(Step(c, Close), es, d, |c.hist.calls|, c.hist.session);
  }

  // ----- Backoff -----

  // The k-th delay of the exponential backoff.
  function Backoff(initial: int, max: int, k: nat): int {
    Min(initial * Pow2(k), max)
  }

  // The k-th delay scheduled since connect(), or since the last success: the first delay after a
  // success is not limited to the maximum.
  function DelayOf(c: Client, k: nat): int {
    if c.hist.restarted && k == 0 then c.initial else Backoff(c.initial, c.max, k)
  }

  predicate Sets(e: Event) {
    e.SetInitial? || e.SetMax?
  }

  ghost predicate BackoffInv(c: Client) {
    && 0 <= c.initial && 0 <= c.max
    && (c.state != Idle ==>
          && c.current == DelayOf(c, |c.hist.delays|)
          && forall k :: 0 <= k < |c.hist.delays| ==> c.hist.delays[k] == DelayOf(c, k))
  }

  lemma NextDelay(initial: int, max: int, k: nat)
    requires 0 <= initial && 0 <= max
    ensures Min(Backoff(initial, max, k) * 2, max) == Backoff(initial, max, k + 1)
    ensures Min(initial * 2, max) == Backoff(initial, max, 1)
    ensures Backoff(initial, max, 0) == Min(initial, max)
  {
    assert initial * Pow2(k + 1) == 2 * (initial * Pow2(k));
    assert Pow2(1) == 2 && Pow2(0) == 1;
  }

  predicate SameLimits(c: Client, d: Client) {
    c.initial == d.initial && c.max == d.max
  }

  lemma ScheduleBackoff(c: Client)
    requires BackoffInv(c)
    ensures BackoffInv(Schedule(c)) && SameLimits(c, Schedule(c))
  {
    NextDelay(c.initial, c.max, |c.hist.delays|);
  }

  lemma TimerBackoff(c: Client, g: nat, ok: bool)
    requires BackoffInv(c)
    ensures BackoffInv(HandleTimer(c, g, ok)) && SameLimits(c, HandleTimer(c, g, ok))
  {
  }

  lemma ResultBackoff(c: Client, g: nat, ok: bool)
    requires BackoffInv(c)
    ensures BackoffInv(HandleResult(c, g, ok)) && SameLimits(c, HandleResult(c, g, ok))
  {
    NextDelay(c.initial, c.max, 0);
    ScheduleBackoff(CallHandler(c, false));
  }

  lemma ConnectBackoff(c: Client, prepare: bool, handler: bool)
    requires BackoffInv(c)
    ensures BackoffInv(DoConnect(c, prepare, handler)) && SameLimits(c, DoConnect(c, prepare, handler))
  {
    NextDelay(c.initial, c.max, 0);
  }

  // The delays do not depend on the base class, what is pending and what is noted.
  lemma BackoffAnyway(c: Client, base: BaseState, pending: multiset<Callback>, log: seq<Entry>)
    requires BackoffInv(c)
    ensures BackoffInv(c.(base := base, pending := pending, hist := c.hist.(log := log)))
  {
  }

  lemma ReadyBackoff(c: Client, g: nat)
    requires BackoffInv(c)
    ensures BackoffInv(HandleReady(c, g)) && SameLimits(c, HandleReady(c, g))
  {
    hide BackoffInv, HandleResult;
    ResultBackoff(c, g, false);
    BackoffAnyway(c, Opening, c.pending + multiset{Completion(g, Resolve)}, c.hist.log);
  }

  lemma LossBackoff(c: Client)
    requires BackoffInv(c)
    ensures BackoffInv(Lose(c)) && SameLimits(c, Lose(c))
  {
    hide BackoffInv, Schedule;
    BackoffAnyway(c, Down, c.pending, c.hist.log);
    BackoffAnyway(c, Down, c.pending, c.hist.log + [Lost]);
    ScheduleBackoff(Note(c.(base := Down), Lost));
  }

  lemma CompletionBackoff(c: Client, g: nat, stage: Stage, ok: bool)
    requires BackoffInv(c)
    ensures BackoffInv(HandleCompletion(c, g, stage, ok)) && SameLimits(c, HandleCompletion(c, g, stage, ok))
  {
    hide BackoffInv, HandleResult;
    var log := if g == c.generation then c.hist.log + [Completed(stage, ok)] else c.hist.log;
    BackoffAnyway(c, if ok then Up else Down, c.pending, log);
    ResultBackoff(c.(base := if ok then Up else Down, hist := c.hist.(log := log)), g, ok);
    if stage != WebsocketHandshake {
      BackoffAnyway(c, c.base, c.pending + multiset{Completion(g, NextStage(stage))}, log);
    }
  }

  lemma StepBackoff(c: Client, e: Event)
    requires BackoffInv(c) && Possible(c, e) && !Sets(e)
    ensures BackoffInv(Step(c, e)) && SameLimits(c, Step(c, e))
  {
    hide BackoffInv, HandleReady, HandleCompletion, HandleTimer, DoConnect, Lose;
    match e
    case Connect(prepare, handler) => ConnectBackoff(c, prepare, handler);
    case ConnectionReady(g) =>
      BackoffAnyway(c, c.base, Take(c, Ready(g)).pending, c.hist.log);
      ReadyBackoff(Take(c, Ready(g)), g);
    case ConnectCompletes(g, stage, ok) =>
      BackoffAnyway(c, c.base, Take(c, Completion(g, stage)).pending, c.hist.log);
      CompletionBackoff(Take(c, Completion(g, stage)), g, stage, ok);
    case TimerFired(g, ok) =>
      BackoffAnyway(c, c.base, Take(c, Timer(g)).pending, c.hist.log);
      TimerBackoff(Take(c, Timer(g)), g, ok);
    case ConnectionLost => LossBackoff(c);
    case Close => CloseBackoff(c);
  }

  lemma CloseBackoff(c: Client)
    requires BackoffInv(c)
    ensures BackoffInv(Step(c, Close)) && SameLimits(c, Step(c, Close))
  {
  }

  lemma {:induction false} RunBackoff(c: Client, es: seq<Event>, d: Client)
    requires BackoffInv(c) && Executes(c, es, d)
    requires forall e :: e in es ==> !Sets(e)
    ensures BackoffInv(d) && SameLimits(c, d)
    decreases |es|
  {
    if es != [] {
      assert es[0] in es;
      StepBackoff(c, es[0]);
      RunBackoff(Step(c, es[0]), es[1..], d);
    }
  }

  lemma {:induction false} BackoffGrows(initial: int, max: int, j: nat, k: nat)
    requires 0 <= initial && 0 <= max && j <= k
    ensures 0 <= Backoff(initial, max, j) <= Backoff(initial, max, k) <= max
    decreases k - j
  {
    if j < k {
      BackoffGrows(initial, max, j + 1, k);
      NextDelay(initial, max, j);
    } else {
      assert 0 <= initial * Pow2(k);
    }
  }

  // With the two delays fixed since the client was idle, and not negative, the delays scheduled since
  // connect() or the last success are min(initial * 2^k, max), except that the first one after a
  // success is the initial delay itself; so they follow the closed form, stay within the maximum and
  // never shrink if and only if this exception makes no difference.
  lemma BackoffClosedForm(c: Client, es: seq<Event>, d: Client)
    requires c.state == Idle && 0 <= c.initial && 0 <= c.max
    requires Executes(c, es, d) && (forall e :: e in es ==> !Sets(e))
    requires d.state != Idle && d.hist.delays != []
    ensures forall k :: 0 <= k < |d.hist.delays| ==> d.hist.delays[k] == DelayOf(d, k)
    ensures (forall k :: 0 <= k < |d.hist.delays| ==> d.hist.delays[k] == Backoff(c.initial, c.max, k))
              <==> (d.hist.restarted ==> c.initial <= c.max)
    ensures (forall k :: 0 <= k < |d.hist.delays| ==> d.hist.delays[k] <= c.max)
              <==> (d.hist.restarted ==> c.initial <= c.max)
    ensures (d.hist.restarted ==> c.initial <= c.max) ==>
              forall j, k :: 0 <= j <= k < |d.hist.delays| ==> d.hist.delays[j] <= d.hist.delays[k]
  {
    RunBackoff(c, es, d);
    NextDelay(c.initial, c.max, 0);
    forall j, k | 0 <= j <= k < |d.hist.delays|
      ensures Backoff(c.initial, c.max, j) <= Backoff(c.initial, c.max, k) <= c.max
    {
      BackoffGrows(c.initial, c.max, j, k);
    }
    assert d.hist.delays[0] == DelayOf(d, 0);
  }

  // The exception at work: with an initial delay of 90 s and the default maximum of 60 s, the first
  // reconnect after a success waits 90 s.
  lemma FirstDelayMayExceedMax() returns (es: seq<Event>, d: Client)
    ensures Executes(FRESH, es, d) && d.state == WaitingReconnect
    ensures d.hist.delays == [90 * SECOND] && d.max == 60 * SECOND
  {
    hide Executes;
    var c1 := Step(FRESH, SetInitial(90 * SECOND));
    var es2, c2 := Dials(c1);
    var es3, c3 := Opens(c2, Resolve);
    d := Step(c3, ConnectionLost);
    ExecutesNone(d);
    ExecutesCons(c3, ConnectionLost, [], d);
    es := [ConnectionLost] + [];
    ExecutesConcat(c2, es3, c3, es, d);
    ExecutesConcat(c1, es2, c2, es3 + es, d);
    ExecutesCons(FRESH, SetInitial(90 * SECOND), es2 + (es3 + es), d);
    es := [SetInitial(90 * SECOND)] + (es2 + (es3 + es));
  }

  function StagesLeft(stage: Stage): nat {
    match stage
    case Resolve => 3
    case TcpConnect => 2
    case SslHandshake => 1
    case WebsocketHandshake => 0
  }

  // The remaining operations of a connection succeed, one after the other.
  lemma {:induction false} Opens(c: Client, stage: Stage) returns (es: seq<Event>, d: Client)
    requires c.state == Connecting && c.base == Opening && Completion(c.generation, stage) in c.pending
    ensures Executes(c, es, d)
    ensures d.state == Connected && d.base == Up && d.hist.delays == [] && d.current == c.initial && d.max == c.max
    decreases StagesLeft(stage)
  {
    hide Executes;
    var e := ConnectCompletes(c.generation, stage, true);
    if stage == WebsocketHandshake {
      d := Step(c, e);
      ExecutesNone(d);
      es := [];
    } else {
      es, d := Opens(Step(c, e), NextStage(stage));
    }
    ExecutesCons(c, e, es, d);
    es := [e] + es;
  }

  const INT64_MAX: int := 0x7FFF_FFFF_FFFF_FFFF

  lemma ReachesMax(initial: int, max: int)
    requires 0 < initial <= max
    ensures Backoff(initial, max, max) == max
  {
    Pow2Exceeds(max);
    MultipleIsLarge(initial, Pow2(max));
  }

  // No doubling of a delay overflows, on any run, if and only if twice the maximum can be represented.
  lemma DoublingFitsExactly(initial: int, max: int)
    requires 0 < initial <= max
    ensures (forall k: nat :: Backoff(initial, max, k) <= INT64_MAX / 2) <==> max * 2 <= INT64_MAX
  {
    ReachesMax(initial, max);
    forall k: nat ensures Backoff(initial, max, k) <= max {
      BackoffGrows(initial, max, k, k);
    }
  }

  // The delay the client is about to double is one of these.
  lemma DoublingFits(c: Client, es: seq<Event>, d: Client)
    requires c.state == Idle && 0 <= c.initial && 0 <= c.max
    requires Executes(c, es, d) && (forall e :: e in es ==> !Sets(e)) && d.state != Idle
    ensures d.current == DelayOf(d, |d.hist.delays|)
    ensures c.initial * 2 <= INT64_MAX && c.max * 2 <= INT64_MAX ==> 0 <= d.current * 2 <= INT64_MAX
  {
    RunBackoff(c, es, d);
    BackoffGrows(c.initial, c.max, |d.hist.delays|, |d.hist.delays|);
  }
}
