/**
 The doorbell protocol of `Executor` as an interleaving step system.

 One step is one access to shared memory (an atomic, the eventfd, the io_context queues), so a run
 of `Apply` is any interleaving of producers calling `ring()`, the kernel completing the eventfd
 read, the executor thread, and `stop()` called from outside or from a callback.
 The initial state is the one `setup_doorbell` leaves behind.
 */
module Doorbell {

  // Largest value an eventfd counter can hold; a write that would pass it fails.
  const EVENTFD_MAX: nat := 0xFFFF_FFFF_FFFF_FFFE

  // A producer: idle, between its push and the exchange in ring(), or holding the right to write.
  datatype Producer = Idle | Pushed | Token

  // The single asynchronous read of the eventfd.
  datatype Wait = NoWait | Waiting(cancelled: bool) | ReadDone | Aborted

  // Where the executor thread is.
  datatype Phase =
    | Polling                                  // in io_context.run, between two handlers
    | Entered                                  // handle_doorbell, before the is_stopping check
    | Arming                                   // check passed, about to exchange(true)
    | Draining(popped: bool, sawEmpty: bool)   // inside doorbell_handler()
    | Disarming                                // the handler returned true
    | SelfRinging                              // disarmed, about to write the eventfd
    | Rechecking                               // about to check is_stopping again
    | Rewaiting                                // check passed, about to start a new wait
    | Retiring                                 // about to store false and return
    | Cancelling                               // in the closure posted by stop(), after its store
    | InPost                                   // in some other posted callback
    | Exited                                   // io_context.run returned

  // Where a call of stop() is.
  datatype Stop = Out | Flagged(force: bool) | CancelPosted(force: bool) | GuardGone(force: bool) | Joining

  // History variables; no step reads them.
  datatype History = History(
    runs: nat,               // calls of doorbell_handler begun
    ringWrites: nat,         // eventfd writes made by ring()
    selfWrites: nat,         // eventfd writes made by run_doorbell_handler
    lateRuns: nat,           // handler calls begun after is_stopping was stored
    ownStop: bool,           // stop() has stored is_stopping on the executor thread
    runsAfterOwnStop: nat,   // handler calls begun after that
    rung: bool,              // some ring() has made its exchange since the handler armed last
    selfRung: bool,          // disarmed for a self-ring and not armed since
    everPosted: bool,        // some stop() has posted its closure
    cancelRan: bool,         // some such closure has stored false
    retired: bool)           // handle_doorbell has returned early

  datatype State = State(
    armed: bool,
    stopping: bool,
    counter: nat,
    wait: Wait,
    phase: Phase,
    producers: seq<Producer>,
    items: nat,
    cancels: nat,
    posts: nat,
    guard: bool,
    forced: bool,
    joined: bool,
    outer: Stop,
    inner: Stop,
    hist: History)

  // A producer: pushing an item, then inside ring().
  datatype RingStep = Push(i: nat) | Exchange(i: nat) | WriteToken(i: nat)

  // The kernel completing the read, and the executor thread taking its next callback.
  datatype PollStep =
    | PostWork | KernelRead | KernelAbort | StartHandler | StartCancel | StartPost | RunReturns

  // The executor thread inside a callback.
  datatype ExecStep = PopItem | ObserveEmpty | HandlerReturns(more: bool) | Advance

  // stop(), called from another thread (outer) or from a callback (inner).
  datatype StopStep = OuterStop(force: bool) | InnerStop(force: bool) | OuterAdvance | InnerAdvance

  datatype Action = Ring(ring: RingStep) | Poll(poll: PollStep) | Exec(exec: ExecStep) | Stops(stop: StopStep)

  // Steps the library does not take by itself: a new item, a new callback, a new call of stop().
  predicate IsEnvironment(a: Action) {
    match a
    case Ring(r) => r.Push?
    case Poll(p) => p.PostWork?
    case Exec(_) => false
    case Stops(c) => c.OuterStop? || c.InnerStop?
  }

  function Init(n: nat): State {
    State(true, false, 0, Waiting(false), Polling, seq(n, _ => Idle), 0, 0, 0, true, false, false, Out, Out,
          History(0, 0, 0, 0, false, 0, false, false, false, false, false))
  }

  predicate InUserCode(p: Phase) {
    p.Draining? || p.InPost?
  }

  predicate RingEnabled(s: State, r: RingStep) {
    && r.i < |s.producers|
    && s.producers[r.i] == (match r case Push(_) => Idle case Exchange(_) => Pushed case WriteToken(_) => Token)
  }

  predicate PollEnabled(s: State, p: PollStep) {
    match p
    case PostWork => true
    case KernelRead => s.wait.Waiting? && s.counter > 0
    case KernelAbort => s.wait == Waiting(true)
    case StartHandler => s.phase == Polling && !s.forced && (s.wait == ReadDone || s.wait == Aborted)
    case StartCancel => s.phase == Polling && !s.forced && s.cancels > 0
    case StartPost => s.phase == Polling && !s.forced && s.posts > 0
    case RunReturns =>
      s.phase == Polling && (s.forced || (!s.guard && s.cancels == 0 && s.posts == 0 && s.wait == NoWait))
  }

  predicate ExecEnabled(s: State, e: ExecStep) {
    && s.inner == Out
    && match e
       case PopItem => s.phase.Draining? && s.items > 0
       case ObserveEmpty => s.phase.Draining? && !s.phase.sawEmpty && s.items == 0
       case HandlerReturns(more) => s.phase.Draining? && if more then s.phase.popped else s.phase.sawEmpty
       case Advance => !s.phase.Polling? && !s.phase.Draining? && !s.phase.Exited?
  }

  predicate StopEnabled(s: State, c: StopStep) {
    match c
    case OuterStop(_) => s.outer == Out
    case InnerStop(_) => s.inner == Out && InUserCode(s.phase)
    case OuterAdvance => s.outer != Out && (s.outer == Joining ==> s.phase == Exited)
    case InnerAdvance => s.inner != Out
  }

  predicate Enabled(s: State, a: Action) {
    match a
    case Ring(r) => RingEnabled(s, r)
    case Poll(p) => PollEnabled(s, p)
    case Exec(e) => ExecEnabled(s, e)
    case Stops(c) => StopEnabled(s, c)
  }

  // write() on the eventfd: a write that would overflow fails and is ignored.
  function Written(counter: nat): nat {
    if counter < EVENTFD_MAX then counter + 1 else counter
  }

  function RingApply(s: State, r: RingStep): State
    requires RingEnabled(s, r)
  {
    match r
    case Push(i) => s.(producers := s.producers[i := Pushed], items := s.items + 1)
    case Exchange(i) =>
      s.(armed := false, producers := s.producers[i := if s.armed then Token else Idle], hist := s.hist.(rung := true))
    case WriteToken(i) =>
      s.(counter := Written(s.counter), producers := s.producers[i := Idle],
         hist := s.hist.(ringWrites := s.hist.ringWrites + 1))
  }

  function PollApply(s: State, p: PollStep): State
    requires PollEnabled(s, p)
  {
    match p
    case PostWork => s.(posts := s.posts + 1)
    case KernelRead => s.(counter := 0, wait := ReadDone)
    case KernelAbort => s.(wait := Aborted)
    case StartHandler => s.(wait := NoWait, phase := if s.wait == ReadDone then Entered else Retiring)
    case StartCancel =>
      s.(cancels := s.cancels - 1, armed := false, phase := Cancelling, hist := s.hist.(cancelRan := true))
    case StartPost => s.(posts := s.posts - 1, phase := InPost)
    case RunReturns => s.(phase := Exited)
  }

  // The handler is called right after the arming exchange.
  function BeginRun(h: History, stopping: bool): History {
    h.(runs := h.runs + 1,
       lateRuns := if stopping then h.lateRuns + 1 else h.lateRuns,
       runsAfterOwnStop := if h.ownStop then h.runsAfterOwnStop + 1 else h.runsAfterOwnStop,
       rung := false, selfRung := false)
  }

  // The executor thread inside a library function: handle_doorbell, or a posted closure.
  function AdvanceApply(s: State): State
    requires ExecEnabled(s, Advance)
  {
    match s.phase
    case Entered => s.(phase := if s.stopping then Retiring else Arming)
    case Arming => s.(armed := true, phase := Draining(false, false), hist := BeginRun(s.hist, s.stopping))
    case Disarming => s.(armed := false, phase := SelfRinging, hist := s.hist.(selfRung := true))
    case SelfRinging =>
      s.(counter := Written(s.counter), phase := Rechecking, hist := s.hist.(selfWrites := s.hist.selfWrites + 1))
    case Rechecking => s.(phase := if s.stopping then Polling else Rewaiting)
    case Rewaiting => s.(wait := Waiting(false), phase := Polling)
    case Retiring => s.(armed := false, phase := Polling, hist := s.hist.(retired := true))
    case Cancelling => s.(wait := if s.wait.Waiting? then Waiting(true) else s.wait, phase := Polling)
    case InPost => s.(phase := Polling)
  }

  function ExecApply(s: State, e: ExecStep): State
    requires ExecEnabled(s, e)
  {
    match e
    case PopItem => s.(items := s.items - 1, phase := s.phase.(popped := true))
    case ObserveEmpty => s.(phase := s.phase.(sawEmpty := true))
    case HandlerReturns(more) => s.(phase := if more then Disarming else Rechecking)
    case Advance => AdvanceApply(s)
  }

  // What a call of stop() that has come to `at` does next; a joined thread is no longer joinable.
  function StopEffect(s: State, at: Stop): State {
    match at
    case Flagged(_) =>
      if s.joined then s else s.(cancels := s.cancels + 1, hist := s.hist.(everPosted := true))
    case CancelPosted(_) => s.(guard := false)
    case GuardGone(force) => s.(forced := s.forced || force)
    case Joining => s.(joined := true)
    case Out => s
  }

  // Where it is then. A call on the executor thread (`own`) does not join.
  function StopNext(at: Stop, joined: bool, own: bool): Stop {
    match at
    case Flagged(force) => if joined then Out else CancelPosted(force)
    case CancelPosted(force) => GuardGone(force)
    case GuardGone(_) => if own then Out else Joining
    case Joining => Out
    case Out => Out
  }

  function StopApply(s: State, c: StopStep): State
    requires StopEnabled(s, c)
  {
    match c
    case OuterStop(force) => s.(stopping := true, outer := Flagged(force))
    case InnerStop(force) => s.(stopping := true, inner := Flagged(force), hist := s.hist.(ownStop := true))
    case OuterAdvance => StopEffect(s, s.outer).(outer := StopNext(s.outer, s.joined, false))
    case InnerAdvance => StopEffect(s, s.inner).(inner := StopNext(s.inner, s.joined, true))
  }

  function Apply(s: State, a: Action): State
    requires Enabled(s, a)
  {
    match a
    case Ring(r) => RingApply(s, r)
    case Poll(p) => PollApply(s, p)
    case Exec(e) => ExecApply(s, e)
    case Stops(c) => StopApply(s, c)
  }

  // The run `run` is possible from `s` and ends in `t`.
  ghost predicate Executes(s: State, run: seq<Action>, t: State)
    decreases |run|
  {
    if run == [] then s == t
    else Enabled(s, run[0]) && Executes(Apply(s, run[0]), run[1..], t)
  }

  // `s` can be reached with `n` producers.
  ghost predicate Reachable(n: nat, s: State) {
    exists run :: Executes(Init(n), run, s)
  }

  function Count(ps: seq<Producer>, p: Producer): nat {
    if ps == [] then 0 else (if ps[0] == p then 1 else 0) + Count(ps[1..], p)
  }

  lemma {:induction false} CountUpdate(ps: seq<Producer>, i: nat, q: Producer, p: Producer)
    requires i < |ps|
    ensures Count(ps[i := q], p) == Count(ps, p) - (if ps[i] == p then 1 else 0) + (if q == p then 1 else 0)
  {
    if i == 0 {
      assert ps[i := q][1..] == ps[1..];
    } else {
      assert ps[i := q][1..] == ps[1..][i - 1 := q];
      CountUpdate(ps[1..], i - 1, q, p);
    }
  }

  // The three counts partition the producers.
  lemma {:induction false} CountsPartition(ps: seq<Producer>)
    ensures Count(ps, Idle) + Count(ps, Pushed) + Count(ps, Token) == |ps|
  {
    if ps != [] {
      CountsPartition(ps[1..]);
    }
  }

  lemma {:induction false} CountWitness(ps: seq<Producer>, p: Producer) returns (i: nat)
    requires Count(ps, p) > 0
    ensures i < |ps| && ps[i] == p
  {
    if ps[0] == p {
      i := 0;
    } else {
      var j := CountWitness(ps[1..], p);
      i := j + 1;
    }
  }
}
