/**
 The read timeout of `SecureWebSocketClient`. The timer is not touched when a message arrives; when it
 fires too early, it is armed again for the rest. It is compared with a timer that every message resets.
 Times are ticks of the steady clock.
 */
module ReadTimeout {
  import opened Options

  // The fields the read timeout uses. `expiry` is what the pending wait of read_timer is armed for, and
  // `stale` counts the waits that had expired, with their handler on its way, before they were cancelled.
  // History: last_read_time when the pending wait was armed, the times at which the handler has run since
  // the timeout was last set, and the stale waits there were then.
  datatype Client = Client(
    connected: bool,
    timeout: int,
    lastRead: int,
    expiry: Option<int>,
    stale: nat,
    armedFor: int,
    fires: seq<int>,
    staleThen: nat)

  datatype Event =
    | Arrival(now: int)                 // a message has been read
    | Tick(now: int)                    // the executor looks at the timer, maybe late
    // `queued`: the pending wait has expired, and its handler is on its way, when it is cancelled
    | StaleFire(now: int, queued: bool)
    | SetTimeout(now: int, timeout: int, queued: bool)

  // ----- The client -----

  function StaleAfter(c: Client, queued: bool): nat {
    if queued && c.expiry.Some? then c.stale + 1 else c.stale
  }

  // start_read_timer; arming the timer cancels a pending wait
  function StartReadTimer(c: Client): Client {
    if c.timeout <= 0 || !c.connected then c
    else c.(expiry := Some(c.lastRead + c.timeout), armedFor := c.lastRead)
  }

  // handle_websocket_handshake
  function Connect(timeout: int, now: int): Client {
    StartReadTimer(Client(true, timeout, now, None, 0, now, [], 0))
  }

  // handle_read, without an error
  function HandleRead(c: Client, now: int): Client {
    if c.connected then c.(lastRead := now) else c
  }

  // handle_read_timeout, without an error
  function HandleReadTimeout(c: Client, now: int): Client {
    if !c.connected || c.timeout <= 0 then c
    else if now < c.lastRead + c.timeout then StartReadTimer(c)
    else c.(connected := false, expiry := None)
  }

  // set_read_timeout
  function SetReadTimeout(c: Client, now: int, timeout: int, queued: bool): Client {
    if !c.connected then c.(timeout := timeout, fires := [], staleThen := c.stale)
    else
      var stale := StaleAfter(c, queued);
      StartReadTimer(c.(timeout := timeout, lastRead := now, expiry := None, stale := stale,
                        fires := [], staleThen := stale))
  }

  function Step(c: Client, e: Event): Client {
    match e
    case Arrival(now) => HandleRead(c, now)
    case Tick(now) =>
      if Expired(c, now)
      then HandleReadTimeout(c.(expiry := None, fires := c.fires + [now]), now)
      else c
    case StaleFire(now, queued) => HandleReadTimeout(TakeStale(c, now, queued), now)
    case SetTimeout(now, timeout, queued) => SetReadTimeout(c, now, timeout, queued)
  }

  // The handler of a stale wait runs; it cancels the pending wait, unless it has nothing to do.
  function TakeStale(c: Client, now: int, queued: bool): Client {
    var left := if c.stale > 0 then c.stale - 1 else 0;
    var cancels := c.connected && 0 < c.timeout && queued && c.expiry.Some?;
    c.(stale := if cancels then left + 1 else left, fires := c.fires + [now])
  }

  predicate Possible(c: Client, e: Event) {
    match e
    case Arrival(_) => true
    case Tick(_) => true
    case StaleFire(now, queued) => c.stale > 0 && (queued ==> Expired(c, now))
    case SetTimeout(now, _, queued) => queued ==> Expired(c, now)
  }

  predicate Expired(c: Client, now: int) {
    c.expiry.Some? && c.expiry.value <= now
  }

  function Run(c: Client, es: seq<Event>): Client {
    if es == [] then c else Step(Run(c, es[..|es| - 1]), es[|es| - 1])
  }

  // ----- The reference: every message resets the timer -----

  datatype Eager = Eager(connected: bool, timeout: int, deadline: Option<int>)

  function Deadline(now: int, timeout: int): Option<int> {
    if timeout <= 0 then None else Some(now + timeout)
  }

  function EagerConnect(timeout: int, now: int): Eager {
    Eager(true, timeout, Deadline(now, timeout))
  }

  function EagerStep(c: Eager, e: Event): Eager {
    if !c.connected then (if e.SetTimeout? then c.(timeout := e.timeout) else c)
    else
      match e
      case Arrival(now) => c.(deadline := Deadline(now, c.timeout))
      case SetTimeout(now, timeout, _) => Eager(true, timeout, Deadline(now, timeout))
      case Tick(now) => if c.deadline.Some? && c.deadline.value <= now then c.(connected := false) else c
      case StaleFire(now, _) => if c.deadline.Some? && c.deadline.value <= now then c.(connected := false) else c
  }

  function EagerRun(c: Eager, es: seq<Event>): Eager {
    if es == [] then c else EagerStep(EagerRun(c, es[..|es| - 1]), es[|es| - 1])
  }

  // ----- Refinement -----

  // The clock never goes back.
  ghost predicate Timed(start: int, es: seq<Event>) {
    && (forall i :: 0 <= i < |es| ==> start <= es[i].now)
    && (forall i, j :: 0 <= i < j < |es| ==> es[i].now <= es[j].now)
  }

  function Clock(start: int, es: seq<Event>): int {
    if es == [] then start else es[|es| - 1].now
  }

  ghost predicate Agree(c: Client, e: Eager) {
    && c.connected == e.connected && c.timeout == e.timeout
    && (c.connected ==> e.deadline == Deadline(c.lastRead, c.timeout))
    // armed whenever the timeout is on, and never for later than the deadline
    && (c.connected && c.timeout > 0 ==> c.expiry.Some? && c.expiry.value <= c.lastRead + c.timeout)
  }

  lemma StepAgrees(c: Client, e: Eager, ev: Event)
    requires Agree(c, e) && c.lastRead <= ev.now
    ensures Agree(Step(c, ev), EagerStep(e, ev)) && Step(c, ev).lastRead <= ev.now
  {
  }

  // For every trace of messages, settings and looks at the timer, however late, the client
  // disconnects at the very event at which the eager timer does.
  lemma {:induction false} LazyRefinesEager(timeout: int, start: int, es: seq<Event>)
    requires Timed(start, es)
    ensures Agree(Run(Connect(timeout, start), es), EagerRun(EagerConnect(timeout, start), es))
    ensures Run(Connect(timeout, start), es).lastRead <= Clock(start, es)
  {
    if es != [] {
      var n := |es| - 1;
      LazyRefinesEager(timeout, start, es[..n]);
      StepAgrees(Run(Connect(timeout, start), es[..n]), EagerRun(EagerConnect(timeout, start), es[..n]), es[n]);
    }
  }

  lemma {:induction false} LastReadIsLatest(timeout: int, start: int, es: seq<Event>)
    requires Timed(start, es)
    ensures var c := Run(Connect(timeout, start), es);
            c.connected ==>
              && start <= c.lastRead
              && forall i :: 0 <= i < |es| && (es[i].Arrival? || es[i].SetTimeout?) ==> es[i].now <= c.lastRead
  {
    if es != [] {
      var n := |es| - 1;
      LastReadIsLatest(timeout, start, es[..n]);
      LazyRefinesEager(timeout, start, es[..n]);
      var c := Run(Connect(timeout, start), es[..n]);
      forall i | 0 <= i < |es| && (es[i].Arrival? || es[i].SetTimeout?) && Step(c, es[n]).connected
        ensures es[i].now <= Step(c, es[n]).lastRead
      {
        if i < n {
          assert es[..n][i] == es[i];
        }
      }
    }
  }

  // A client that disconnects has heard nothing, on this connection, for the whole timeout.
  lemma NeverEarly(timeout: int, start: int, es: seq<Event>, ev: Event)
    requires Timed(start, es + [ev])
    requires Run(Connect(timeout, start), es).connected && !Run(Connect(timeout, start), es + [ev]).connected
    ensures var t := Run(Connect(timeout, start), es).timeout;
            && t > 0 && start + t <= ev.now
            && forall i :: 0 <= i < |es| && (es[i].Arrival? || es[i].SetTimeout?) ==> es[i].now + t <= ev.now
  {
    TimedPrefix(start, es, ev);
    RunOneMore(Connect(timeout, start), es, ev);
    hide Run, Step, Timed;
    LastReadIsLatest(timeout, start, es);
    DisconnectsLate(Run(Connect(timeout, start), es), ev);
  }

  lemma DisconnectsLate(c: Client, ev: Event)
    requires c.connected && !Step(c, ev).connected
    ensures c.timeout > 0 && c.lastRead + c.timeout <= ev.now
  {
  }

  lemma TimedPrefix(start: int, es: seq<Event>, ev: Event)
    requires Timed(start, es + [ev])
    ensures Timed(start, es)
  {
    forall i | 0 <= i < |es| ensures es[i] == (es + [ev])[i] {
    }
  }

  lemma RunOneMore(c: Client, es: seq<Event>, ev: Event)
    ensures Run(c, es + [ev]) == Step(Run(c, es), ev)
  {
    assert (es + [ev])[..|es|] == es;
  }

  // ----- The timer fires rarely -----

  // A stale handler runs only if there is one.
  ghost predicate Feasible(timeout: int, start: int, es: seq<Event>) {
    forall i :: 0 <= i < |es| ==> Possible(Run(Connect(timeout, start), es[..i]), es[i])
  }

  // Fires that are `gap` apart in the sequence are a whole timeout apart in time.
  ghost predicate Apart(fires: seq<int>, gap: nat, timeout: int) {
    forall i, j :: 0 <= i && i + gap <= j < |fires| ==> fires[i] + timeout <= fires[j]
  }

  // The pending wait may still fire within a timeout of `fire`.
  function Soon(c: Client, fire: int): nat {
    if c.expiry.Some? && c.expiry.value < fire + c.timeout then 1 else 0
  }

  // Until a timeout has passed since fire `k`, the handlers that have run since and those that may
  // still run are limited in number.
  ghost predicate FewLeft(c: Client, now: int, k: nat)
    requires k < |c.fires|
  {
    now < c.fires[k] + c.timeout ==> |c.fires| - 1 - k + c.stale + Soon(c, c.fires[k]) <= c.staleThen + 1
  }

  ghost predicate Armed(c: Client) {
    var n := |c.fires|;
    && (c.expiry.Some? ==>
          && c.expiry.value == c.armedFor + c.timeout && c.armedFor <= c.lastRead
          && (n >= 1 ==> c.armedFor == c.lastRead || c.fires[n - 1] <= c.lastRead))
    && (c.expiry.Some? <==> c.connected && c.timeout > 0)
    && c.stale + (if c.expiry.Some? then 1 else 0) <= c.staleThen + 1
  }

  ghost predicate Spaced(c: Client, now: int) {
    && c.lastRead <= now
    && (forall k :: 0 <= k < |c.fires| ==> c.fires[k] <= now)
    && (forall j, k :: 0 <= j < k < |c.fires| ==> c.fires[j] <= c.fires[k])
    && Apart(c.fires, c.staleThen + 2, c.timeout)
    && Armed(c)
    && forall k :: 0 <= k < |c.fires| ==> FewLeft(c, now, k)
  }

  // Any handler of the read timer runs: of the pending wait, or of a stale one.
  ghost predicate IsFire(c: Client, e: Event) {
    Possible(c, e) && (e.StaleFire? || (e.Tick? && Expired(c, e.now)))
  }

  lemma FireIsArmed(c: Client, was: int, e: Event)
    requires Spaced(c, was) && was <= e.now && IsFire(c, e)
    ensures Armed(Step(c, e)) && Step(c, e).lastRead <= e.now
    ensures Step(c, e).fires == c.fires + [e.now]
  {
    hide Apart, FewLeft;
  }

  lemma FireIsFar(c: Client, was: int, e: Event, k: nat)
    requires Spaced(c, was) && was <= e.now && IsFire(c, e) && k < |c.fires|
    ensures FewLeft(Step(c, e), e.now, k)
    ensures k + c.staleThen + 2 <= |c.fires| ==> c.fires[k] + c.timeout <= e.now
  {
    hide Apart;
    assert FewLeft(c, was, k);
  }

  lemma FireSpaced(c: Client, was: int, e: Event)
    requires Spaced(c, was) && was <= e.now && IsFire(c, e)
    ensures Spaced(Step(c, e), e.now)
  {
    hide IsFire, Armed, Possible;
    var n, d := |c.fires|, Step(c, e);
    FireIsArmed(c, was, e);
    forall k | 0 <= k < n
      ensures FewLeft(d, e.now, k) && (k + c.staleThen + 2 <= n ==> c.fires[k] + c.timeout <= e.now)
    {
      FireIsFar(c, was, e, k);
    }
    assert FewLeft(d, e.now, n) by {
      LastLeavesFew(d, e.now);
    }
  }

  lemma LastLeavesFew(c: Client, now: int)
    requires Armed(c) && c.fires != []
    ensures FewLeft(c, now, |c.fires| - 1)
  {
  }

  lemma StepSpaced(c: Client, was: int, e: Event)
    requires Spaced(c, was) && was <= e.now && Possible(c, e)
    ensures Spaced(Step(c, e), e.now)
  {
    if IsFire(c, e) {
      FireSpaced(c, was, e);
    } else if !e.SetTimeout? {
      forall k | 0 <= k < |c.fires| ensures FewLeft(Step(c, e), e.now, k) {
        assert FewLeft(c, was, k);
      }
    }
  }

  lemma {:induction false} RunSpaced(timeout: int, start: int, es: seq<Event>)
    requires Timed(start, es) && Feasible(timeout, start, es)
    ensures Spaced(Run(Connect(timeout, start), es), Clock(start, es))
  {
    if es != [] {
      var n := |es| - 1;
      forall i | 0 <= i < n ensures Possible(Run(Connect(timeout, start), es[..n][..i]), es[..n][i]) {
        assert es[..n][..i] == es[..i];
      }
      RunSpaced(timeout, start, es[..n]);
      StepSpaced(Run(Connect(timeout, start), es[..n]), Clock(start, es[..n]), es[n]);
    }
  }

  // Since the timeout was last set, and however many messages have arrived, the handler has run at most
  // twice in any period shorter than the timeout, and once more for each wait that was stale then.
  lemma FiresAreRare(timeout: int, start: int, es: seq<Event>, k: nat)
    requires Timed(start, es) && Feasible(timeout, start, es)
    ensures var c := Run(Connect(timeout, start), es);
            k + 2 + c.staleThen < |c.fires| ==> c.fires[k + 2 + c.staleThen] - c.fires[k] >= c.timeout
  {
    RunSpaced(timeout, start, es);
  }

  // ----- The methods -----

  class ReadTimer {
    var isConnected: bool
    var readTimeout: int
    var lastReadTime: int
    var timerExpiry: Option<int>
    // environment: the handlers on their way of waits that have been cancelled
    var staleHandlers: nat
    ghost var armedFor: int
    ghost var fires: seq<int>
    ghost var staleThen: nat

    ghost function View(): Client
      reads this
    {
      Client(isConnected, readTimeout, lastReadTime, timerExpiry, staleHandlers, armedFor, fires, staleThen)
    }

    // handle_websocket_handshake, once the handshake has succeeded
    constructor (timeout: int, now: int)
      ensures View() == Connect(timeout, now)
    {
      isConnected := true;
      readTimeout := timeout;
      lastReadTime := now;
      timerExpiry := None;
      staleHandlers := 0;
      armedFor, fires, staleThen := now, [], 0;
      new;
      StartTimer();
    }

    // start_read_timer
    method StartTimer()
      modifies `timerExpiry, `armedFor
      ensures View() == StartReadTimer(old(View()))
    {
      if readTimeout <= 0 || !isConnected {
        return;
      }
      timerExpiry := Some(lastReadTime + readTimeout);
      armedFor := lastReadTime;
    }

    // handle_read
    method HandleMessage(now: int)
      modifies `lastReadTime
      ensures View() == Step(old(View()), Arrival(now))
    {
      if !isConnected {
        return;
      }
      lastReadTime := now;
    }

    // handle_read_timeout
    method HandleTimeout(now: int)
      modifies `timerExpiry, `armedFor, `isConnected
      ensures View() == HandleReadTimeout(old(View()), now)
    {
      if !isConnected || readTimeout <= 0 {
        return;
      }
      if now < lastReadTime + readTimeout {
        StartTimer();
        return;
      }
      isConnected := false;
      timerExpiry := None;
    }

    // the pending wait of read_timer, when it has expired by now
    method LookAtTimer(now: int)
      modifies this
      ensures View() == Step(old(View()), Tick(now))
    {
      if timerExpiry.Some? && timerExpiry.value <= now {
        timerExpiry := None;
        fires := fires + [now];
        HandleTimeout(now);
      }
    }

    // a handler that was on its way when its wait was cancelled
    method RunStaleHandler(now: int, queued: bool)
      requires Possible(View(), StaleFire(now, queued))
      modifies this
      ensures View() == Step(old(View()), StaleFire(now, queued))
    {
      var cancels := isConnected && 0 < readTimeout && queued;
      staleHandlers := if cancels then staleHandlers else staleHandlers - 1;
      fires := fires + [now];
      HandleTimeout(now);
    }

    // set_read_timeout
    method SetTimeout(timeout: int, now: int, queued: bool)
      requires Possible(View(), Event.SetTimeout(now, timeout, queued))
      modifies this
      ensures View() == Step(old(View()), Event.SetTimeout(now, timeout, queued))
    {
      readTimeout := timeout;
      fires, staleThen := [], staleHandlers;
      if !isConnected {
        return;
      }
      lastReadTime := now;
      // stop_read_timer
      if queued {
        staleHandlers := staleHandlers + 1;
      }
      timerExpiry := None;
      staleThen := staleHandlers;
      StartTimer();
    }
  }
}
