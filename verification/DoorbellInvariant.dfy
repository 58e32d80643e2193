/** What every step of the doorbell protocol keeps. */
module DoorbellInvariant {
  import opened Doorbell

  function One(b: bool): nat {
    if b then 1 else 0
  }

  function Pushes(s: State): nat {
    Count(s.producers, Pushed)
  }

  function Tokens(s: State): nat {
    Count(s.producers, Token)
  }

  // Inside handle_doorbell.
  predicate InHandler(p: Phase) {
    p != Polling && p != Cancelling && p != InPost && p != Exited
  }

  // The eventfd has been read and the handler has not armed yet.
  predicate Woken(s: State) {
    s.wait == ReadDone || s.phase == Entered || s.phase == Arming
  }

  // After the arming exchange, and not about to write the eventfd itself.
  predicate IsArmedPhase(p: Phase) {
    p == Polling || p == InPost || p.Draining? || p == Rechecking || p == Rewaiting
  }

  // After the last empty-check of the queue.
  predicate IsCommittedPhase(p: Phase) {
    IsArmedPhase(p) && (p.Draining? ==> p.sawEmpty)
  }

  ghost predicate Control(s: State) {
    && (InHandler(s.phase) ==> s.wait == NoWait)
    && (s.inner != Out ==> InUserCode(s.phase) && s.inner != Joining)
    && (s.phase == Exited ==> !s.guard)
    && (s.phase == Exited && !s.forced ==> s.wait == NoWait && s.hist.cancelRan)
    && (s.joined ==> s.phase == Exited)
    && (s.forced ==> !s.guard)
    && (!s.guard ==> s.hist.everPosted)
    && (s.cancels > 0 || s.hist.cancelRan ==> s.hist.everPosted)
    && (s.phase == Cancelling ==> s.hist.cancelRan)
    && (s.hist.everPosted ==> s.stopping && (s.cancels > 0 || s.hist.cancelRan))
    && (s.outer != Out || s.inner != Out || s.hist.ownStop ==> s.stopping)
    && (s.outer.CancelPosted? || s.inner.CancelPosted? ==> s.hist.everPosted)
    && (s.outer.GuardGone? || s.outer.Joining? || s.inner.GuardGone? ==> !s.guard)
  }

  ghost predicate Running(s: State) {
    !s.stopping ==>
      && s.phase != Exited && s.phase != Retiring && s.phase != Cancelling
      && (InHandler(s.phase) || s.wait == Waiting(false) || s.wait == ReadDone)
      && s.guard && !s.forced && s.cancels == 0
  }

  ghost predicate Stopping(s: State) {
    && (s.stopping && !s.hist.everPosted ==> s.outer.Flagged? || s.inner.Flagged?)
    && (s.stopping && s.guard ==>
          s.outer.Flagged? || s.outer.CancelPosted? || s.inner.Flagged? || s.inner.CancelPosted?)
    && (s.hist.everPosted && (s.phase == Rewaiting || s.wait == Waiting(false)) ==>
          !s.hist.cancelRan || s.phase == Cancelling)
    && (s.hist.cancelRan || s.hist.retired ==> s.stopping && !s.armed && s.phase != Arming)
  }

  ghost predicate Wakeup(s: State) {
    && (!s.stopping && IsArmedPhase(s.phase) ==>
          s.armed || Tokens(s) > 0 || s.counter > 0 || s.wait == ReadDone)
    && (!s.stopping && s.items > 0 && IsCommittedPhase(s.phase) ==>
          Pushes(s) > 0 || Tokens(s) > 0 || s.counter > 0 || s.wait == ReadDone)
  }

  // The bound on counter + tokens + armed, by phase.
  function Cap(n: nat, s: State): nat {
    if Woken(s) then n + 1
    else if s.phase.Draining? || s.phase == Disarming || s.phase == SelfRinging then n + 2
    else n + 3
  }

  ghost predicate Bounded(n: nat, s: State) {
    && |s.producers| == n
    && s.counter + Tokens(s) + One(s.armed) <= Cap(n, s)
  }

  ghost predicate Coalesced(s: State) {
    s.hist.ringWrites + Tokens(s) + One(s.armed) <= 1 + s.hist.runs
  }

  // Every run of the handler was caused by an eventfd write, and leads to at most one self-ring.
  ghost predicate Caused(s: State) {
    && s.hist.runs + One(Woken(s)) + s.counter <= s.hist.ringWrites + s.hist.selfWrites
    && s.hist.selfWrites + One(s.phase.Draining? || s.phase == Disarming || s.phase == SelfRinging) <= s.hist.runs
  }

  // No ring, self-ring, retirement or cancel since the handler armed last: the doorbell is armed exactly then.
  predicate FirstRing(h: History) {
    !h.rung && !h.selfRung && !h.retired && !h.cancelRan
  }

  ghost predicate Quiet(s: State) {
    && (s.hist.ringWrites == 0 && Tokens(s) == 0 ==>
          s.hist.runs == 0 && s.counter == 0 && !Woken(s) && (InHandler(s.phase) ==> s.phase == Retiring))
    && (s.phase == SelfRinging ==> s.hist.selfRung)
    && (s.armed <==> FirstRing(s.hist))
  }

  ghost predicate LateRuns(s: State) {
    && s.hist.lateRuns + One(s.stopping && s.phase == Arming) <= 1
    && (!s.stopping ==> s.hist.lateRuns == 0)
    && s.hist.runsAfterOwnStop == 0
    && (s.hist.ownStop ==> s.stopping && s.phase != Arming && s.phase != Rewaiting)
  }

  // Who may do what when.
  ghost predicate Flow(s: State) {
    Control(s) && Running(s) && Stopping(s) && LateRuns(s)
  }

  ghost predicate Counting(n: nat, s: State) {
    Wakeup(s) && Bounded(n, s) && Coalesced(s) && Caused(s) && Quiet(s)
  }

  ghost predicate Inv(n: nat, s: State) {
    Flow(s) && Counting(n, s)
  }

  lemma {:induction false} CountIdle(n: nat, p: Producer)
    requires p != Idle
    ensures Count(seq(n, _ => Idle), p) == 0
  {
    if n > 0 {
      assert seq(n, _ => Idle)[1..] == seq(n - 1, _ => Idle);
      CountIdle(n - 1, p);
    }
  }

  lemma InvInit(n: nat)
    ensures Inv(n, Init(n))
  {
    CountIdle(n, Pushed);
    CountIdle(n, Token);
  }

  // What a step of a producer does to the two counts.
  lemma CountsAfter(s: State, r: RingStep)
    requires RingEnabled(s, r)
    ensures Pushes(RingApply(s, r)) == Pushes(s) + One(r.Push?) - One(r.Exchange?)
    ensures Tokens(RingApply(s, r)) == Tokens(s) + One(r.Exchange? && s.armed) - One(r.WriteToken?)
  {
    var q := RingApply(s, r).producers[r.i];
    CountUpdate(s.producers, r.i, q, Pushed);
    CountUpdate(s.producers, r.i, q, Token);
  }

  lemma KeptByRing(n: nat, s: State, r: RingStep)
    requires Inv(n, s) && RingEnabled(s, r)
    ensures Inv(n, RingApply(s, r))
  {
    CountsAfter(s, r);
  }

  lemma FlowKeptByPoll(s: State, p: PollStep)
    requires Flow(s) && PollEnabled(s, p)
    ensures Flow(PollApply(s, p))
  {
  }

  lemma CountingKeptByPoll(n: nat, s: State, p: PollStep)
    requires Inv(n, s) && PollEnabled(s, p)
    ensures Counting(n, PollApply(s, p))
  {
    CountsPartition(s.producers);
  }

  lemma ControlKeptByAdvance(s: State)
    requires Flow(s) && ExecEnabled(s, Advance)
    ensures Control(AdvanceApply(s)) && Running(AdvanceApply(s))
  {
    match s.phase
    case Entered =>
    case Arming =>
    case Disarming =>
    case SelfRinging =>
    case Rechecking =>
    case Rewaiting =>
    case Retiring =>
    case Cancelling =>
    case InPost =>
  }

  lemma StoppingKeptByAdvance(s: State)
    requires Flow(s) && ExecEnabled(s, Advance)
    ensures Stopping(AdvanceApply(s))
  {
    match s.phase
    case Entered =>
    case Arming =>
    case Disarming =>
    case SelfRinging =>
    case Rechecking =>
    case Rewaiting =>
    case Retiring =>
    case Cancelling =>
    case InPost =>
  }

  lemma LateRunsKeptByAdvance(s: State)
    requires Control(s) && LateRuns(s) && ExecEnabled(s, Advance)
    ensures LateRuns(AdvanceApply(s))
  {
    match s.phase
    case Entered =>
    case Arming =>
    case Disarming =>
    case SelfRinging =>
    case Rechecking =>
    case Rewaiting =>
    case Retiring =>
    case Cancelling =>
    case InPost =>
  }

  lemma WakeupKeptByAdvance(s: State)
    requires Flow(s) && Wakeup(s) && ExecEnabled(s, Advance)
    ensures Wakeup(AdvanceApply(s))
  {
  }

  lemma BoundedKeptByAdvance(n: nat, s: State)
    requires Control(s) && Bounded(n, s) && ExecEnabled(s, Advance)
    ensures Bounded(n, AdvanceApply(s))
  {
  }

  lemma CoalescedKeptByAdvance(s: State)
    requires Control(s) && Coalesced(s) && ExecEnabled(s, Advance)
    ensures Coalesced(AdvanceApply(s))
  {
    match s.phase
    case Entered =>
    case Arming =>
    case Disarming =>
    case SelfRinging =>
    case Rechecking =>
    case Rewaiting =>
    case Retiring =>
    case Cancelling =>
    case InPost =>
  }

  lemma CausedKeptByAdvance(s: State)
    requires Control(s) && Caused(s) && ExecEnabled(s, Advance)
    ensures Caused(AdvanceApply(s))
  {
    match s.phase
    case Entered =>
    case Arming =>
    case Disarming =>
    case SelfRinging =>
    case Rechecking =>
    case Rewaiting =>
    case Retiring =>
    case Cancelling =>
    case InPost =>
  }

  lemma QuietKeptByAdvance(s: State)
    requires Control(s) && Stopping(s) && Quiet(s) && ExecEnabled(s, Advance)
    ensures Quiet(AdvanceApply(s))
  {
    match s.phase
    case Entered =>
    case Arming =>
    case Disarming =>
    case SelfRinging =>
    case Rechecking =>
    case Rewaiting =>
    case Retiring =>
    case Cancelling =>
    case InPost =>
  }

  // The handler, in the user's code.
  lemma KeptByHandler(n: nat, s: State, e: ExecStep)
    requires Inv(n, s) && ExecEnabled(s, e) && !e.Advance?
    ensures Inv(n, ExecApply(s, e))
  {
    hide AdvanceApply;
  }

  lemma {:induction false} KeptByExec(n: nat, s: State, e: ExecStep)
    requires Inv(n, s) && ExecEnabled(s, e)
    ensures Inv(n, ExecApply(s, e))
  {
    if !e.Advance? {
      KeptByHandler(n, s, e);
    } else {
      hide AdvanceApply, Control, Running, Stopping, LateRuns, Wakeup, Bounded, Coalesced, Caused, Quiet;
      ControlKeptByAdvance(s);
      StoppingKeptByAdvance(s);
      LateRunsKeptByAdvance(s);
      WakeupKeptByAdvance(s);
      BoundedKeptByAdvance(n, s);
      CoalescedKeptByAdvance(s);
      CausedKeptByAdvance(s);
      QuietKeptByAdvance(s);
    }
  }

  lemma FlowKeptByStop(s: State, c: StopStep)
    requires Flow(s) && StopEnabled(s, c)
    ensures Flow(StopApply(s, c))
  {
    match c
    case OuterStop(_) =>
    case InnerStop(_) =>
    case OuterAdvance =>
      match s.outer {
        case Flagged(_) =>
        case CancelPosted(_) =>
        case GuardGone(_) =>
        case Joining =>
      }
    case InnerAdvance =>
      match s.inner {
        case Flagged(_) =>
        case CancelPosted(_) =>
        case GuardGone(_) =>
      }
  }

  // `t` agrees with `s` on all that the counting invariants are about.
  ghost predicate SameCounts(s: State, t: State) {
    && t.armed == s.armed && t.counter == s.counter && t.wait == s.wait && t.phase == s.phase
    && t.producers == s.producers && t.items == s.items && (s.stopping ==> t.stopping)
    && t.hist.runs == s.hist.runs && t.hist.ringWrites == s.hist.ringWrites
    && t.hist.selfWrites == s.hist.selfWrites && t.hist.selfRung == s.hist.selfRung && t.hist.rung == s.hist.rung
    && t.hist.retired == s.hist.retired && t.hist.cancelRan == s.hist.cancelRan
  }

  lemma StopEffectLeavesCounts(s: State, at: Stop)
    ensures SameCounts(s, StopEffect(s, at))
  {
  }

  lemma CountingKeptByStop(n: nat, s: State, c: StopStep)
    requires Counting(n, s) && StopEnabled(s, c)
    ensures Counting(n, StopApply(s, c))
  {
    StopEffectLeavesCounts(s, s.outer);
    StopEffectLeavesCounts(s, s.inner);
    assert SameCounts(s, StopApply(s, c));
  }

  lemma InvKept(n: nat, s: State, a: Action)
    requires Inv(n, s) && Enabled(s, a)
    ensures Inv(n, Apply(s, a))
  {
    match a
    case Ring(r) => KeptByRing(n, s, r);
    case Poll(p) => FlowKeptByPoll(s, p); CountingKeptByPoll(n, s, p);
    case Exec(e) => KeptByExec(n, s, e);
    case Stops(c) => FlowKeptByStop(s, c); CountingKeptByStop(n, s, c);
  }

  lemma {:induction false} InvAlong(n: nat, s: State, run: seq<Action>, t: State)
    requires Inv(n, s) && Executes(s, run, t)
    ensures Inv(n, t)
    decreases |run|
  {
    if run != [] {
      InvKept(n, s, run[0]);
      InvAlong(n, Apply(s, run[0]), run[1..], t);
    }
  }

  lemma ReachableInv(n: nat, s: State)
    requires Reachable(n, s)
    ensures Inv(n, s)
  {
    var run :| Executes(Init(n), run, s);
    InvInit(n);
    InvAlong(n, Init(n), run, s);
  }
}
