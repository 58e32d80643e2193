/** The steps of each thread, and what the others leave alone in between. */
module ExecutorSteps {
  import opened Doorbell
  import opened DoorbellInvariant
  import opened DoorbellTheorems
  import opened Options

  datatype Thread = ProducerThread(i: nat) | ExecutorThread | StoppingThread | Environment

  // Who takes a step. A stop() called from a callback runs on the executor thread.
  function ThreadOf(a: Action): Thread {
    match a
    case Ring(r) => ProducerThread(r.i)
    case Poll(p) => if p.PostWork? || p.KernelRead? || p.KernelAbort? then Environment else ExecutorThread
    case Exec(_) => ExecutorThread
    case Stops(c) => if c.OuterStop? || c.OuterAdvance? then StoppingThread else ExecutorThread
  }

  // What one thread has done in a run.
  function StepsOf(t: Thread, run: seq<Action>): seq<Action> {
    if run == [] then [] else
      var n := |run| - 1;
      StepsOf(t, run[..n]) + if ThreadOf(run[n]) == t then [run[n]] else []
  }

  // The state after a step, if the step is possible.
  function After(s: State, a: Action): Option<State> {
    if Enabled(s, a) then Some(Apply(s, a)) else None
  }

  // What each step below does.

  lemma DoesExchange(s: State, i: nat)
    requires i < |s.producers| && s.producers[i] == Pushed
    ensures After(s, Ring(Exchange(i))) ==
              Some(s.(armed := false, producers := s.producers[i := if s.armed then Token else Idle],
                   hist := s.hist.(rung := true)))
  {
  }

  lemma DoesWriteToken(s: State, i: nat)
    requires i < |s.producers| && s.producers[i] == Token
    ensures After(s, Ring(WriteToken(i))) ==
              Some(s.(counter := Written(s.counter), producers := s.producers[i := Idle],
                   hist := s.hist.(ringWrites := s.hist.ringWrites + 1)))
  {
  }

  lemma DoesCheck(s: State)
    requires s.phase == Entered && s.inner == Out
    ensures After(s, Exec(Advance)) == Some(s.(phase := if s.stopping then Retiring else Arming))
  {
  }

  lemma DoesRetire(s: State)
    requires s.phase == Retiring && s.inner == Out
    ensures After(s, Exec(Advance)) == Some(s.(armed := false, phase := Polling, hist := s.hist.(retired := true)))
  {
  }

  lemma DoesArm(s: State)
    requires s.phase == Arming && s.inner == Out
    ensures After(s, Exec(Advance)) ==
              Some(s.(armed := true, phase := Draining(false, false), hist := BeginRun(s.hist, s.stopping)))
  {
  }

  lemma DoesReturn(s: State, more: bool)
    requires s.phase.Draining? && (if more then s.phase.popped else s.phase.sawEmpty) && s.inner == Out
    ensures After(s, Exec(HandlerReturns(more))) == Some(s.(phase := if more then Disarming else Rechecking))
  {
  }

  lemma DoesPop(s: State)
    requires s.phase.Draining? && s.items > 0 && s.inner == Out
    ensures After(s, Exec(PopItem)) == Some(s.(items := s.items - 1, phase := s.phase.(popped := true)))
  {
  }

  lemma DoesObserve(s: State)
    requires s.phase.Draining? && !s.phase.sawEmpty && s.items == 0 && s.inner == Out
    ensures After(s, Exec(ObserveEmpty)) == Some(s.(phase := s.phase.(sawEmpty := true)))
  {
  }

  lemma DoesDisarm(s: State)
    requires s.phase == Disarming && s.inner == Out
    ensures After(s, Exec(Advance)) ==
              Some(s.(armed := false, phase := SelfRinging, hist := s.hist.(selfRung := true)))
  {
  }

  lemma DoesSelfRing(s: State)
    requires s.phase == SelfRinging && s.inner == Out
    ensures After(s, Exec(Advance)) ==
              Some(s.(counter := Written(s.counter), phase := Rechecking,
                   hist := s.hist.(selfWrites := s.hist.selfWrites + 1)))
  {
  }

  lemma DoesRecheck(s: State)
    requires s.phase == Rechecking && s.inner == Out
    ensures After(s, Exec(Advance)) == Some(s.(phase := if s.stopping then Polling else Rewaiting))
  {
  }

  lemma DoesRewait(s: State)
    requires s.phase == Rewaiting && s.inner == Out
    ensures After(s, Exec(Advance)) == Some(s.(wait := Waiting(false), phase := Polling))
  {
  }

  lemma DoesStartHandler(s: State)
    requires s.phase == Polling && !s.forced && (s.wait == ReadDone || s.wait == Aborted)
    ensures After(s, Poll(StartHandler)) ==
              Some(s.(wait := NoWait, phase := if s.wait == ReadDone then Entered else Retiring))
  {
  }

  lemma DoesStartCancel(s: State)
    requires s.phase == Polling && !s.forced && s.cancels > 0
    ensures After(s, Poll(StartCancel)) ==
              Some(s.(cancels := s.cancels - 1, armed := false, phase := Cancelling,
                   hist := s.hist.(cancelRan := true)))
  {
  }

  lemma DoesCancel(s: State)
    requires s.phase == Cancelling && s.inner == Out
    ensures After(s, Exec(Advance)) ==
              Some(s.(wait := if s.wait.Waiting? then Waiting(true) else s.wait, phase := Polling))
  {
  }

  lemma DoesStartPost(s: State)
    requires s.phase == Polling && !s.forced && s.posts > 0
    ensures After(s, Poll(StartPost)) == Some(s.(posts := s.posts - 1, phase := InPost))
  {
  }

  lemma DoesEndPost(s: State)
    requires s.phase == InPost && s.inner == Out
    ensures After(s, Exec(Advance)) == Some(s.(phase := Polling))
  {
  }

  lemma DoesExit(s: State)
    requires PollEnabled(s, RunReturns)
    ensures After(s, Poll(RunReturns)) == Some(s.(phase := Exited))
  {
  }

  function StopCall(own: bool, force: bool): Action {
    Stops(if own then InnerStop(force) else OuterStop(force))
  }

  function StopAdvance(own: bool): Action {
    Stops(if own then InnerAdvance else OuterAdvance)
  }

  function StopAt(s: State, own: bool): Stop {
    if own then s.inner else s.outer
  }

  function MoveStop(s: State, own: bool, at: Stop): State {
    s.(outer := if own then s.outer else at, inner := if own then at else s.inner)
  }

  lemma DoesStop(s: State, own: bool, force: bool)
    requires StopAt(s, own) == Out && (own ==> InUserCode(s.phase))
    ensures After(s, StopCall(own, force)) ==
              Some(MoveStop(s.(stopping := true, hist := s.hist.(ownStop := s.hist.ownStop || own)), own,
                   Flagged(force)))
  {
  }

  lemma DoesReturnJoined(s: State, own: bool)
    requires StopAt(s, own).Flagged? && s.joined
    ensures After(s, StopAdvance(own)) == Some(MoveStop(s, own, Out))
  {
  }

  lemma DoesPostCancel(s: State, own: bool)
    requires StopAt(s, own).Flagged? && !s.joined
    ensures After(s, StopAdvance(own)) ==
              Some(MoveStop(s.(cancels := s.cancels + 1, hist := s.hist.(everPosted := true)), own,
                   CancelPosted(StopAt(s, own).force)))
  {
  }

  lemma DoesResetWork(s: State, own: bool)
    requires StopAt(s, own).CancelPosted?
    ensures After(s, StopAdvance(own)) == Some(MoveStop(s.(guard := false), own, GuardGone(StopAt(s, own).force)))
  {
  }

  lemma DoesStopContext(s: State, own: bool)
    requires StopAt(s, own).GuardGone?
    ensures After(s, StopAdvance(own)) ==
              Some(MoveStop(s.(forced := s.forced || StopAt(s, own).force), own, if own then Out else Joining))
  {
  }

  lemma DoesJoin(s: State)
    requires s.outer == Joining && s.phase == Exited
    ensures After(s, StopAdvance(false)) == Some(MoveStop(s.(joined := true), false, Out))
  {
  }

  // The state after a run, if it is possible.
  function Outcome(s: State, run: seq<Action>): Option<State> {
    if run == [] then Some(s) else
      var n := |run| - 1;
      match Outcome(s, run[..n])
      case None => None
      case Some(t) => After(t, run[n])
  }

  lemma {:induction false} ExecutesSnoc(s: State, run: seq<Action>, t: State, a: Action)
    requires Executes(s, run, t) && Enabled(t, a)
    ensures Executes(s, run + [a], Apply(t, a))
    decreases |run|
  {
    if run == [] {
      assert [a][1..] == [];
    } else {
      ExecutesSnoc(Apply(s, run[0]), run[1..], t, a);
      assert (run + [a])[1..] == run[1..] + [a];
    }
  }

  lemma {:induction false} OutcomeIsRun(s: State, run: seq<Action>, t: State)
    requires Outcome(s, run) == Some(t)
    ensures Executes(s, run, t)
  {
    if run != [] {
      var n := |run| - 1;
      var before := Outcome(s, run[..n]).value;
      OutcomeIsRun(s, run[..n], before);
      ExecutesSnoc(s, run[..n], before, run[n]);
      assert run[..n] + [run[n]] == run;
    }
  }

  // What the other threads cannot change while thread `me` is between two steps.
  ghost predicate LeftAlone(s: State, t: State, me: Thread) {
    && |t.producers| == |s.producers| && (s.stopping ==> t.stopping) && (s.forced ==> t.forced)
    && s.hist.runs <= t.hist.runs
    && (s.phase == Exited ==> t.phase == Exited)
    && match me
       case ProducerThread(i) => i < |s.producers| ==> t.producers[i] == s.producers[i]
       case ExecutorThread =>
         && t.phase == s.phase && t.inner == s.inner && s.items <= t.items && t.hist.runs == s.hist.runs
         && (!s.armed ==> !t.armed)
       case StoppingThread => t.outer == s.outer && t.joined == s.joined
       case Environment => true
  }

  lemma OthersLeaveAlone(s: State, a: Action, me: Thread)
    requires After(s, a).Some? && ThreadOf(a) != me && s.inner != Joining
    ensures LeftAlone(s, After(s, a).value, me)
  {
    hide LeftAlone;
    match a
    case Ring(r) => RingLeavesAlone(s, r, me);
    case Poll(p) => PollLeavesAlone(s, p, me);
    case Exec(e) => ExecLeavesAlone(s, e, me);
    case Stops(c) => StopLeavesAlone(s, c, me);
  }

  lemma RingLeavesAlone(s: State, r: RingStep, me: Thread)
    requires RingEnabled(s, r) && me != ProducerThread(r.i)
    ensures LeftAlone(s, RingApply(s, r), me)
  {
  }

  lemma PollLeavesAlone(s: State, p: PollStep, me: Thread)
    requires PollEnabled(s, p) && me != ThreadOf(Poll(p))
    ensures LeftAlone(s, PollApply(s, p), me)
  {
  }

  lemma ExecLeavesAlone(s: State, e: ExecStep, me: Thread)
    requires ExecEnabled(s, e) && me != ExecutorThread
    ensures LeftAlone(s, ExecApply(s, e), me)
  {
    hide AdvanceApply;
    if e.Advance? {
      AdvanceLeaves(s);
      AdvanceLeavesStops(s);
    }
  }

  lemma StopLeavesAlone(s: State, c: StopStep, me: Thread)
    requires StopEnabled(s, c) && me != ThreadOf(Stops(c)) && s.inner != Joining
    ensures LeftAlone(s, StopApply(s, c), me)
  {
    hide StopEffect;
    var at := if c.OuterAdvance? then s.outer else s.inner;
    StopEffectLeaves(s, at);
    StopEffectLeavesCounts(s, at);
    StopEffectLeavesStops(s, at);
  }

  // What a call of stop() does: the call, and a number of steps on.
  function StopSteps(own: bool, force: bool, advances: nat): seq<Action> {
    [StopCall(own, force)] + seq(advances, _ => StopAdvance(own))
  }

  // A thread has done just that, in between `before` and `now`.
  ghost predicate StopTook(before: seq<Action>, now: seq<Action>, own: bool, force: bool, advances: nat) {
    now == before + StopSteps(own, force, advances)
  }

  lemma StopTakes(before: seq<Action>, own: bool, force: bool)
    ensures StopTook(before, before + [StopCall(own, force)], own, force, 0)
  {
  }

  lemma StopTakesOneMore(before: seq<Action>, now: seq<Action>, own: bool, force: bool, advances: nat)
    requires StopTook(before, now, own, force, advances)
    ensures StopTook(before, now + [StopAdvance(own)], own, force, advances + 1)
  {
  }

  function StopThread(own: bool): Thread {
    if own then ExecutorThread else StoppingThread
  }

  // The trace has grown.
  ghost predicate Later(before: seq<Action>, now: seq<Action>) {
    before <= now
  }

  lemma LaterIsLonger(before: seq<Action>, now: seq<Action>)
    requires Later(before, now)
    ensures |before| <= |now|
  {
  }

  lemma LaterIsTransitive()
    ensures (forall a :: Later(a, a)) && (forall a, b, c :: Later(a, b) && Later(b, c) ==> Later(a, c))
  {
  }
}
