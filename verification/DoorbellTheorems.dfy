/** What the doorbell promises, for every reachable state and every run. */
module DoorbellTheorems {
  import opened Doorbell
  import opened DoorbellInvariant

  // ----- What each kind of step leaves alone -----

  lemma RingLeaves(s: State, r: RingStep)
    requires RingEnabled(s, r)
    ensures var t := RingApply(s, r);
            t.stopping == s.stopping && t.forced == s.forced && t.posts == s.posts && t.phase == s.phase
            && t.hist.cancelRan == s.hist.cancelRan
  {
  }

  lemma PollLeaves(s: State, p: PollStep)
    requires PollEnabled(s, p)
    ensures var t := PollApply(s, p);
            t.stopping == s.stopping && t.forced == s.forced && t.producers == s.producers
            && t.hist.ringWrites == s.hist.ringWrites && (s.hist.cancelRan ==> t.hist.cancelRan)
  {
  }

  lemma AdvanceLeaves(s: State)
    requires ExecEnabled(s, Advance)
    ensures AdvanceApply(s).stopping == s.stopping && AdvanceApply(s).forced == s.forced
    ensures AdvanceApply(s).producers == s.producers && AdvanceApply(s).posts == s.posts
    ensures AdvanceApply(s).hist.ringWrites == s.hist.ringWrites
    ensures AdvanceApply(s).hist.cancelRan == s.hist.cancelRan
    ensures AdvanceApply(s).phase != Exited
  {
    match s.phase {
      case Entered =>
      case Arming =>
      case Disarming =>
      case SelfRinging =>
      case Rechecking =>
      case Rewaiting =>
      case Retiring =>
      case Cancelling =>
      case InPost =>
    }
  }

  lemma ExecLeaves(s: State, e: ExecStep)
    requires ExecEnabled(s, e)
    ensures ExecApply(s, e).stopping == s.stopping && ExecApply(s, e).forced == s.forced
    ensures ExecApply(s, e).producers == s.producers && ExecApply(s, e).posts == s.posts
    ensures ExecApply(s, e).phase != Exited && s.phase != Exited
    ensures ExecApply(s, e).hist.ringWrites == s.hist.ringWrites
    ensures ExecApply(s, e).hist.cancelRan == s.hist.cancelRan
  {
    if e.Advance? {
      AdvanceLeaves(s);
    }
  }

  lemma StopEffectLeaves(s: State, at: Stop)
    ensures var t := StopEffect(s, at);
            t.stopping == s.stopping && (s.forced ==> t.forced) && t.producers == s.producers && t.posts == s.posts
            && t.phase == s.phase
            && t.hist.ringWrites == s.hist.ringWrites && t.hist.cancelRan == s.hist.cancelRan
  {
  }

  // ----- Safety -----

  // The executor is going to look at the queue: some producer is inside ring() with a say in it,
  // the eventfd is or has been read, or the handler has not made its last empty-check.
  ghost predicate WakeupComing(s: State) {
    || (exists i :: 0 <= i < |s.producers| && s.producers[i] != Idle)
    || s.counter > 0
    || Woken(s)
    || (s.phase.Draining? && !s.phase.sawEmpty)
    || s.phase == Disarming || s.phase == SelfRinging
  }

  lemma NoLostWakeup(n: nat, s: State)
    requires Reachable(n, s)
    requires !s.stopping && s.items > 0
    ensures WakeupComing(s)
  {
    ReachableInv(n, s);
    if Pushes(s) > 0 {
      var i := CountWitness(s.producers, Pushed);
    } else if Tokens(s) > 0 {
      var i := CountWitness(s.producers, Token);
    }
  }

  // No eventfd write, by a producer or by the executor, ever hits the limit.
  lemma EventfdNeverOverflows(n: nat, s: State)
    requires Reachable(n, s)
    ensures s.counter <= n + 3
    ensures n + 3 <= EVENTFD_MAX ==>
              && (forall i :: RingEnabled(s, WriteToken(i)) ==>
                    RingApply(s, WriteToken(i)).counter == s.counter + 1)
              && (ExecEnabled(s, Advance) && s.phase == SelfRinging ==>
                    ExecApply(s, Advance).counter == s.counter + 1)
  {
    ReachableInv(n, s);
    forall i | RingEnabled(s, WriteToken(i)) ensures Tokens(s) > 0 {
      CountUpdate(s.producers, i, Idle, Token);
    }
  }

  // However many rings there are, each handler run accounts for at most one write by a ring, and
  // each run was caused by a write.
  lemma WakeupsCoalesce(n: nat, s: State)
    requires Reachable(n, s)
    ensures s.hist.ringWrites + Tokens(s) + One(s.armed) <= 1 + s.hist.runs
    ensures s.hist.runs <= s.hist.ringWrites + s.hist.selfWrites
    ensures s.hist.selfWrites <= s.hist.runs
  {
    ReachableInv(n, s);
  }

  lemma ExecutesCons(s: State, a: Action, run: seq<Action>, t: State)
    requires Enabled(s, a) && Executes(Apply(s, a), run, t)
    ensures Executes(s, [a] + run, t)
  {
    assert ([a] + run)[1..] == run;
  }

  // The header says that a busy executor costs no eventfd write. That is not exact: the handler arms
  // before it drains, so a ring during the drain does get a token.
  lemma BusyRingMayWrite() returns (run: seq<Action>, t: State)
    ensures Executes(Init(2), run, t)
    ensures t.phase.Draining? && t.wait == NoWait && t.producers == [Idle, Token]
  {
    var s1 := Apply(Init(2), Ring(Push(0)));
    var s2 := Apply(s1, Ring(Exchange(0)));
    var s3 := Apply(s2, Ring(WriteToken(0)));
    var s4 := Apply(s3, Poll(KernelRead));
    assert s4.producers == [Idle, Idle] && s4.wait == ReadDone && s4.phase == Polling;
    run, t := BusyRing(s4);
    ExecutesCons(s3, Poll(KernelRead), run, t);
    run := [Poll(KernelRead)] + run;
    ExecutesCons(s2, Ring(WriteToken(0)), run, t);
    run := [Ring(WriteToken(0))] + run;
    ExecutesCons(s1, Ring(Exchange(0)), run, t);
    run := [Ring(Exchange(0))] + run;
    ExecutesCons(Init(2), Ring(Push(0)), run, t);
    run := [Ring(Push(0))] + run;
  }

  // From any state in which the read is done: handling it, and a ring during the drain.
  lemma BusyRing(s: State) returns (run: seq<Action>, t: State)
    requires s.producers == [Idle, Idle] && s.wait == ReadDone && s.phase == Polling
    requires s.inner == Out && !s.stopping && !s.forced
    ensures Executes(s, run, t)
    ensures t.phase.Draining? && t.wait == NoWait && t.producers == [Idle, Token]
  {
    var s1 := Apply(s, Poll(StartHandler));
    var s2 := Apply(s1, Exec(Advance));
    var s3 := Apply(s2, Exec(Advance));
    assert s3.armed && s3.phase == Draining(false, false) && s3.producers == [Idle, Idle] && s3.wait == NoWait;
    var s4 := Apply(s3, Ring(Push(1)));
    t := Apply(s4, Ring(Exchange(1)));
    assert Executes(t, [], t);
    ExecutesCons(s4, Ring(Exchange(1)), [], t);
    run := [Ring(Exchange(1))] + [];
    ExecutesCons(s3, Ring(Push(1)), run, t);
    run := [Ring(Push(1))] + run;
    ExecutesCons(s2, Exec(Advance), run, t);
    run := [Exec(Advance)] + run;
    ExecutesCons(s1, Exec(Advance), run, t);
    run := [Exec(Advance)] + run;
    ExecutesCons(s, Poll(StartHandler), run, t);
    run := [Poll(StartHandler)] + run;
  }

  // A ring writes if and only if it is the first one since the handler armed, the executor has not
  // disarmed for a self-ring since, and the doorbell has been neither retired nor cancelled.
  lemma RingWritesExactly(n: nat, s: State, i: nat)
    requires Reachable(n, s) && RingEnabled(s, Exchange(i))
    ensures RingApply(s, Exchange(i)).producers[i] == Token <==> FirstRing(s.hist)
    ensures RingApply(s, Exchange(i)).producers[i] == Idle <==> !FirstRing(s.hist)
  {
    ReachableInv(n, s);
  }

  predicate IsRing(a: Action) {
    a.Ring? && a.ring.Exchange?
  }

  // What the header promises of a run: a ring gets a token only while the executor waits.
  ghost predicate WritesOnlyWaiting(s: State, run: seq<Action>)
    decreases |run|
  {
    run != [] ==>
      && Enabled(s, run[0])
      && (IsRing(run[0]) && Apply(s, run[0]).producers[run[0].ring.i] == Token ==> s.wait.Waiting?)
      && WritesOnlyWaiting(Apply(s, run[0]), run[1..])
  }

  // The first ring since the handler armed always comes while the executor waits.
  ghost predicate FirstRingsWaiting(s: State, run: seq<Action>)
    decreases |run|
  {
    run != [] ==>
      && Enabled(s, run[0])
      && (IsRing(run[0]) && FirstRing(s.hist) ==> s.wait.Waiting?)
      && FirstRingsWaiting(Apply(s, run[0]), run[1..])
  }

  lemma {:induction false} PromiseAlong(n: nat, s: State, run: seq<Action>, t: State)
    requires Inv(n, s) && Executes(s, run, t)
    ensures WritesOnlyWaiting(s, run) <==> FirstRingsWaiting(s, run)
    decreases |run|
  {
    if run != [] {
      InvKept(n, s, run[0]);
      PromiseAlong(n, Apply(s, run[0]), run[1..], t);
    }
  }

  // When the header's promise holds: on exactly the runs on which no ring that is the first since
  // the handler armed falls into the time between the read and the next wait.
  lemma HeaderPromiseExactly(n: nat, run: seq<Action>, t: State)
    requires Executes(Init(n), run, t)
    ensures WritesOnlyWaiting(Init(n), run) <==> FirstRingsWaiting(Init(n), run)
  {
    InvInit(n);
    PromiseAlong(n, Init(n), run, t);
  }

  // Without an exchange no producer gets a token, so none writes.
  lemma TokenlessStep(s: State, a: Action)
    requires Enabled(s, a) && (a.Ring? ==> !a.ring.Exchange?)
    requires Tokens(s) == 0
    ensures Tokens(Apply(s, a)) == 0 && Apply(s, a).hist.ringWrites == s.hist.ringWrites
  {
    match a
    case Ring(r) =>
      CountsAfter(s, r);
      if r.WriteToken? {
        CountUpdate(s.producers, r.i, Idle, Token);
      }
    case Poll(p) => PollLeaves(s, p);
    case Exec(e) => ExecLeaves(s, e);
    case Stops(_) => StopEffectLeaves(s, s.outer); StopEffectLeaves(s, s.inner);
  }

  lemma {:induction false} TokenlessAlong(s: State, run: seq<Action>, t: State)
    requires Executes(s, run, t)
    requires forall a :: a in run && a.Ring? ==> !a.ring.Exchange?
    requires Tokens(s) == 0
    ensures Tokens(t) == 0 && t.hist.ringWrites == s.hist.ringWrites
    decreases |run|
  {
    if run != [] {
      assert run[0] in run;
      TokenlessStep(s, run[0]);
      TokenlessAlong(Apply(s, run[0]), run[1..], t);
    }
  }

  // The handler is never called unless somebody called ring().
  lemma {:induction false} NoRunWithoutRing(n: nat, run: seq<Action>, t: State)
    requires Executes(Init(n), run, t)
    requires forall a :: a in run && a.Ring? ==> !a.ring.Exchange?
    ensures t.hist.runs == 0
  {
    InvInit(n);
    InvAlong(n, Init(n), run, t);
    CountIdle(n, Token);
    TokenlessAlong(Init(n), run, t);
  }

  // ----- Stopping -----

  // After is_stopping is stored at most one more handler call begins. After a stop() on the executor
  // thread none does, and no new wait is started.
  lemma AtMostOneLateRun(n: nat, s: State)
    requires Reachable(n, s)
    ensures s.hist.lateRuns <= 1
    ensures s.hist.runsAfterOwnStop == 0
    ensures s.hist.ownStop ==> s.phase != Rewaiting
  {
    ReachableInv(n, s);
  }

  // A wait that keeps io_context.run from returning is about to be cancelled.
  lemma StopCancelsTheWait(n: nat, s: State)
    requires Reachable(n, s)
    requires s.stopping && (s.wait == Waiting(false) || s.phase == Rewaiting)
    ensures s.outer.Flagged? || s.inner.Flagged? || s.cancels > 0 || s.phase == Cancelling
  {
    ReachableInv(n, s);
  }

  lemma CancelRanStep(s: State, a: Action)
    requires Enabled(s, a) && s.hist.cancelRan
    ensures Apply(s, a).hist.cancelRan
  {
    match a
    case Ring(r) => RingLeaves(s, r);
    case Poll(p) => PollLeaves(s, p);
    case Exec(e) => ExecLeaves(s, e);
    case Stops(_) => StopEffectLeaves(s, s.outer); StopEffectLeaves(s, s.inner);
  }

  lemma {:induction false} CancelRanStays(s: State, run: seq<Action>, t: State)
    requires Executes(s, run, t) && s.hist.cancelRan
    ensures t.hist.cancelRan
    decreases |run|
  {
    if run != [] {
      CancelRanStep(s, run[0]);
      CancelRanStays(Apply(s, run[0]), run[1..], t);
    }
  }

  // Once a closure of stop() has run, no uncancelled wait is pending or ever started again, and no
  // ring ever writes to the eventfd again.
  lemma {:induction false} NoWaitAfterCancel(n: nat, s: State, run: seq<Action>, t: State)
    requires Reachable(n, s) && s.hist.cancelRan && s.phase != Cancelling
    requires Executes(s, run, t)
    ensures t.phase != Rewaiting && (t.wait == Waiting(false) ==> t.phase == Cancelling)
    ensures !t.armed
  {
    ReachableInv(n, s);
    InvAlong(n, s, run, t);
    CancelRanStays(s, run, t);
  }

  lemma ForcedStays(s: State, a: Action)
    requires Enabled(s, a) && s.forced
    ensures Apply(s, a).forced
  {
    match a
    case Ring(r) => RingLeaves(s, r);
    case Poll(p) => PollLeaves(s, p);
    case Exec(e) => ExecLeaves(s, e);
    case Stops(_) => StopEffectLeaves(s, s.outer); StopEffectLeaves(s, s.inner);
  }

  predicate StartsCallback(a: Action) {
    a.Poll? && (a.poll.StartHandler? || a.poll.StartCancel? || a.poll.StartPost?)
  }

  lemma {:induction false} ForcedStartsNothing(s: State, run: seq<Action>, t: State)
    requires s.forced && Executes(s, run, t)
    ensures forall a :: a in run ==> !StartsCallback(a)
    decreases |run|
  {
    if run != [] {
      ForcedStays(s, run[0]);
      ForcedStartsNothing(Apply(s, run[0]), run[1..], t);
      assert run == [run[0]] + run[1..];
    }
  }

  // Once stop(true) has stopped the io_context, the executor starts no callback of any kind any more.
  lemma ForceStopStartsNothing(s: State, a: Action, run: seq<Action>, t: State)
    requires || (a == Stops(OuterAdvance) && s.outer == GuardGone(true))
             || (a == Stops(InnerAdvance) && s.inner == GuardGone(true))
    requires Executes(Apply(s, a), run, t)
    ensures forall b :: b in run ==> !StartsCallback(b)
  {
    ForcedStartsNothing(Apply(s, a), run, t);
  }

  // A call of stop() under way carries the flag it was given, and the io_context is stopped only for one.
  predicate Carries(at: Stop, asked: bool) {
    (at.Flagged? || at.CancelPosted? || at.GuardGone?) && at.force ==> asked
  }

  ghost predicate ForceIsAsked(s: State, asked: bool) {
    (s.forced ==> asked) && Carries(s.outer, asked) && Carries(s.inner, asked)
  }

  predicate AsksForce(a: Action) {
    a == Stops(OuterStop(true)) || a == Stops(InnerStop(true))
  }

  lemma ForceIsAskedStep(s: State, a: Action, asked: bool)
    requires Enabled(s, a) && ForceIsAsked(s, asked)
    ensures ForceIsAsked(Apply(s, a), asked || AsksForce(a))
  {
    hide AdvanceApply, StopEffect;
    match a
    case Ring(_) =>
    case Poll(_) =>
    case Exec(e) =>
      if e.Advance? {
        AdvanceLeaves(s);
        AdvanceLeavesStops(s);
      }
    case Stops(c) => ForceIsAskedByStop(s, c, asked);
  }

  lemma ForceIsAskedByStop(s: State, c: StopStep, asked: bool)
    requires StopEnabled(s, c) && ForceIsAsked(s, asked)
    ensures ForceIsAsked(StopApply(s, c), asked || AsksForce(Stops(c)))
  {
    hide StopEffect;
    var at := if c.OuterAdvance? then s.outer else s.inner;
    StopEffectLeavesStops(s, at);
  }

  lemma AdvanceLeavesStops(s: State)
    requires ExecEnabled(s, Advance)
    ensures AdvanceApply(s).outer == s.outer && AdvanceApply(s).inner == s.inner
    ensures AdvanceApply(s).joined == s.joined && s.hist.runs <= AdvanceApply(s).hist.runs
  {
    match s.phase
    case Entered =>
    case Arming =>
    case Disarming =>
    case SelfRinging =>
    case Rechecking =>
    case Rewaiting =>
    case Retiring =>
    case Cancelling =>
    case InPost =>
  }

  lemma StopEffectLeavesStops(s: State, at: Stop)
    ensures StopEffect(s, at).outer == s.outer && StopEffect(s, at).inner == s.inner
    ensures at != Joining ==> StopEffect(s, at).joined == s.joined
    ensures StopEffect(s, at).forced ==> s.forced || (at.GuardGone? && at.force)
  {
  }

  lemma {:induction false} ForceIsAskedAlong(s: State, run: seq<Action>, t: State, asked: bool)
    requires Executes(s, run, t) && ForceIsAsked(s, asked)
    ensures ForceIsAsked(t, asked || exists a :: a in run && AsksForce(a))
    decreases |run|
  {
    if run != [] {
      ForceIsAskedStep(s, run[0], asked);
      ForceIsAskedAlong(Apply(s, run[0]), run[1..], t, asked || AsksForce(run[0]));
      assert run == [run[0]] + run[1..];
      assert AsksForce(run[0]) ==> run[0] in run;
    }
  }

  // The io_context is stopped only if somebody called stop(true): a graceful stop drops no callback.
  lemma ForcedOnlyIfAsked(n: nat, run: seq<Action>, t: State)
    requires Executes(Init(n), run, t) && t.forced
    ensures exists a :: a in run && AsksForce(a)
  {
    ForceIsAskedAlong(Init(n), run, t, false);
  }

  // ----- Progress -----

  function ProducersWeight(ps: seq<Producer>): nat {
    10 * Count(ps, Pushed) + 9 * Count(ps, Token)
  }

  function WaitWeight(w: Wait): nat {
    match w
    case NoWait => 0
    case Aborted => 2
    case Waiting(_) => 3
    case ReadDone => 10
  }

  function PhaseWeight(p: Phase): nat {
    match p
    case Exited => 0
    case Polling => 1
    case Retiring => 2
    case Cancelling => 2
    case InPost => 2
    case Rewaiting => 5
    case Rechecking => 6
    case Draining(popped, sawEmpty) => (if popped then 17 else 7) + (if sawEmpty then 0 else 1)
    case Arming => 9
    case Entered => 10
    case SelfRinging => 15
    case Disarming => 16
  }

  function StopWeight(c: Stop): nat {
    match c
    case Out => 0
    case Joining => 1
    case GuardGone(_) => 2
    case CancelPosted(_) => 3
    case Flagged(_) => 6
  }

  // An upper bound on the steps left if nobody pushes, posts or calls stop() again.
  function StepsLeft(s: State): nat {
    ProducersWeight(s.producers) + 8 * s.counter + 11 * s.items + 2 * s.cancels + 2 * s.posts
    + WaitWeight(s.wait) + PhaseWeight(s.phase) + StopWeight(s.outer) + StopWeight(s.inner)
  }

  lemma RingStepCounts(s: State, r: RingStep)
    requires RingEnabled(s, r) && !r.Push?
    ensures StepsLeft(RingApply(s, r)) < StepsLeft(s)
  {
    CountsAfter(s, r);
  }

  lemma PollStepCounts(s: State, p: PollStep)
    requires PollEnabled(s, p) && !p.PostWork?
    ensures StepsLeft(PollApply(s, p)) < StepsLeft(s)
  {
  }

  lemma ExecStepCounts(s: State, e: ExecStep)
    requires Flow(s) && ExecEnabled(s, e)
    ensures StepsLeft(ExecApply(s, e)) < StepsLeft(s)
  {
  }

  lemma StopEffectCounts(s: State, at: Stop)
    ensures StepsLeft(StopEffect(s, at)) == StepsLeft(s) + if at.Flagged? && !s.joined then 2 else 0
    ensures StopEffect(s, at).outer == s.outer && StopEffect(s, at).inner == s.inner
  {
  }

  lemma StopStepCounts(s: State, c: StopStep)
    requires StopEnabled(s, c) && !c.OuterStop? && !c.InnerStop?
    ensures StepsLeft(StopApply(s, c)) < StepsLeft(s)
  {
    if c.OuterAdvance? {
      StopEffectCounts(s, s.outer);
    } else {
      StopEffectCounts(s, s.inner);
    }
  }

  lemma {:induction false} RunIsBounded(n: nat, s: State, run: seq<Action>, t: State)
    requires Inv(n, s) && Executes(s, run, t)
    requires forall a :: a in run ==> !IsEnvironment(a)
    ensures |run| + StepsLeft(t) <= StepsLeft(s)
    decreases |run|
  {
    if run != [] {
      var a := run[0];
      assert a in run;
      match a {
        case Ring(r) => RingStepCounts(s, r);
        case Poll(p) => PollStepCounts(s, p);
        case Exec(e) => ExecStepCounts(s, e);
        case Stops(c) => StopStepCounts(s, c);
      }
      InvKept(n, s, a);
      RunIsBounded(n, Apply(s, a), run[1..], t);
    }
  }

  // Nothing can happen unless the environment acts.
  ghost predicate Settled(s: State) {
    forall a :: Enabled(s, a) ==> IsEnvironment(a)
  }

  ghost predicate AllIdle(s: State) {
    forall i :: 0 <= i < |s.producers| ==> s.producers[i] == Idle
  }

  lemma {:induction false} SettledProducers(s: State)
    requires Settled(s)
    ensures AllIdle(s)
  {
    forall i | 0 <= i < |s.producers| ensures s.producers[i] == Idle {
      assert Enabled(s, Ring(Exchange(i))) ==> IsEnvironment(Ring(Exchange(i)));
      assert Enabled(s, Ring(WriteToken(i))) ==> IsEnvironment(Ring(WriteToken(i)));
    }
  }

  lemma {:induction false} IdleCounts(ps: seq<Producer>)
    requires forall i :: 0 <= i < |ps| ==> ps[i] == Idle
    ensures Count(ps, Pushed) == 0 && Count(ps, Token) == 0
  {
    if ps != [] {
      IdleCounts(ps[1..]);
    }
  }

  // A settled executor thread is not inside a callback, and no call of stop() is under way
  // except one that waits to join it.
  lemma SettledThread(n: nat, s: State)
    requires Inv(n, s) && Settled(s)
    ensures s.inner == Out
    ensures s.phase == Polling || s.phase == Exited
    ensures s.outer == Out || (s.outer == Joining && s.phase == Polling)
  {
    assert Enabled(s, Stops(InnerAdvance)) ==> IsEnvironment(Stops(InnerAdvance));
    assert Enabled(s, Stops(OuterAdvance)) ==> IsEnvironment(Stops(OuterAdvance));
    assert Enabled(s, Exec(Advance)) ==> IsEnvironment(Exec(Advance));
    assert Enabled(s, Exec(PopItem)) ==> IsEnvironment(Exec(PopItem));
    assert Enabled(s, Exec(ObserveEmpty)) ==> IsEnvironment(Exec(ObserveEmpty));
    assert Enabled(s, Exec(HandlerReturns(false))) ==> IsEnvironment(Exec(HandlerReturns(false)));
  }

  lemma SettledPolling(s: State)
    requires Settled(s) && s.phase == Polling
    ensures !s.forced && s.cancels == 0 && s.posts == 0 && s.wait != ReadDone && s.wait != Aborted
    ensures s.wait.Waiting? ==> s.counter == 0 && s.wait == Waiting(false)
    ensures s.guard || s.wait != NoWait
  {
    assert Enabled(s, Poll(StartHandler)) ==> IsEnvironment(Poll(StartHandler));
    assert Enabled(s, Poll(StartCancel)) ==> IsEnvironment(Poll(StartCancel));
    assert Enabled(s, Poll(StartPost)) ==> IsEnvironment(Poll(StartPost));
    assert Enabled(s, Poll(RunReturns)) ==> IsEnvironment(Poll(RunReturns));
    assert Enabled(s, Poll(KernelRead)) ==> IsEnvironment(Poll(KernelRead));
    assert Enabled(s, Poll(KernelAbort)) ==> IsEnvironment(Poll(KernelAbort));
  }

  // Where the executor comes to rest: waiting with an empty queue, or gone.
  lemma SettledStates(n: nat, s: State)
    requires Inv(n, s) && Settled(s)
    ensures AllIdle(s) && s.inner == Out && s.outer == Out
    ensures !s.stopping ==>
              s.phase == Polling && s.wait == Waiting(false) && s.items == 0 && s.posts == 0 && s.armed
    ensures s.stopping ==> s.phase == Exited && !s.guard
    ensures s.stopping && !s.forced ==> s.wait == NoWait && !s.armed
  {
    SettledProducers(s);
    IdleCounts(s.producers);
    SettledThread(n, s);
    if s.phase == Polling {
      SettledPolling(s);
    }
  }

  // If nobody pushes, posts or stops any more, every run is finite, with a bound known in advance,
  // and a run that cannot go on has drained every item.
  lemma {:induction false} EveryItemIsDrained(n: nat, s: State, run: seq<Action>, t: State)
    requires Reachable(n, s) && !s.stopping
    requires Executes(s, run, t)
    requires forall a :: a in run ==> !IsEnvironment(a)
    ensures |run| + StepsLeft(t) <= StepsLeft(s)
    ensures t.items > 0 ==> exists a :: Enabled(t, a) && !IsEnvironment(a)
    ensures Settled(t) ==> t.items == 0 && AllIdle(t) && t.wait == Waiting(false) && t.armed
  {
    ReachableInv(n, s);
    RunIsBounded(n, s, run, t);
    InvAlong(n, s, run, t);
    LibraryRun(s, run, t);
    if Settled(t) {
      SettledStates(n, t);
    }
  }

  // Steps of the library keep is_stopping, and io_context.run returns for good, by itself only when
  // no posted callback is left.
  lemma LibraryStep(s: State, a: Action)
    requires Enabled(s, a) && !IsEnvironment(a)
    ensures Apply(s, a).stopping == s.stopping && (s.forced ==> Apply(s, a).forced)
    ensures s.phase == Exited ==> Apply(s, a).phase == Exited && Apply(s, a).posts == s.posts
    ensures s.phase != Exited && Apply(s, a).phase == Exited && !s.forced ==> Apply(s, a).posts == 0
  {
    match a
    case Ring(r) => RingLeaves(s, r);
    case Poll(p) => PollLeaves(s, p);
    case Exec(e) => ExecLeaves(s, e);
    case Stops(_) => StopEffectLeaves(s, s.outer); StopEffectLeaves(s, s.inner);
  }

  lemma {:induction false} LibraryRun(s: State, run: seq<Action>, t: State)
    requires Executes(s, run, t)
    requires forall a :: a in run ==> !IsEnvironment(a)
    ensures t.stopping == s.stopping && (s.forced ==> t.forced)
    ensures s.phase == Exited ==> t.phase == Exited && t.posts == s.posts
    ensures s.phase != Exited && t.phase == Exited && !t.forced ==> t.posts == 0
    decreases |run|
  {
    if run != [] {
      assert run[0] in run;
      LibraryStep(s, run[0]);
      LibraryRun(Apply(s, run[0]), run[1..], t);
    }
  }

  // Once stop() is called, and nobody pushes, posts or stops any more, every run is finite and can
  // only come to rest with io_context.run returned and stop() returned. A graceful stop has then run
  // every posted callback, left no wait behind, and left the doorbell disarmed.
  lemma {:induction false} StopQuiesces(n: nat, s: State, run: seq<Action>, t: State)
    requires Reachable(n, s) && s.stopping
    requires Executes(s, run, t)
    requires forall a :: a in run ==> !IsEnvironment(a)
    ensures |run| + StepsLeft(t) <= StepsLeft(s)
    ensures Settled(t) ==> t.phase == Exited && t.outer == Out && t.inner == Out
    ensures Settled(t) && !t.forced ==> t.wait == NoWait && !t.armed && (s.phase != Exited ==> t.posts == 0)
  {
    ReachableInv(n, s);
    RunIsBounded(n, s, run, t);
    InvAlong(n, s, run, t);
    LibraryRun(s, run, t);
    if Settled(t) {
      SettledStates(n, t);
    }
  }
}
