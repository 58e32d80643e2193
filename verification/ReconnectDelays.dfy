/** The delays between attempts, on runs in which the two limits may be set at any time. */
module ReconnectDelays {
  import opened Powers
  import opened Reconnect
  import opened ReconnectCycle

  // ----- What a step can do about the delays -----

  datatype Change = Nothing | Waited | Succeeded | Restarted | Stopped | InitialSet(initial: int) | MaxSet(max: int)

  predicate Silent(entries: seq<Entry>) {
    forall i :: 0 <= i < |entries| ==> !entries[i].Scheduled? && !IsSuccess(entries[i])
  }

  // From `c` to `d`, with these new entries.
  ghost predicate Changes(c: Client, d: Client, change: Change, more: seq<Entry>) {
    && d.hist.log == c.hist.log + more
    && (!change.InitialSet? ==> d.initial == c.initial) && (!change.MaxSet? ==> d.max == c.max)
    && match change
       case Nothing => Silent(more) && d.current == c.current && SameStage(c, d)
       case Waited =>
         && more != [] && Silent(more[..|more| - 1]) && more[|more| - 1] == Scheduled(c.current)
         && c.state != Idle && d.state != Idle && d.current == Min(c.current * 2, c.max)
         && d.hist.delays == c.hist.delays + [c.current] && d.hist.restarted == c.hist.restarted
       case Succeeded =>
         && more != [] && Silent(more[..|more| - 1]) && IsSuccess(more[|more| - 1])
         && c.state != Idle && d.state != Idle && d.current == c.initial
         && d.hist.delays == [] && d.hist.restarted
       case Restarted =>
         && Silent(more) && c.state == Idle && d.state != Idle && d.current == Min(c.initial, c.max)
         && d.hist.delays == [] && !d.hist.restarted
       case Stopped => Silent(more) && d.state == Idle
       case InitialSet(x) =>
         && more == [] && d.initial == x && (c.state != Idle ==> d.current == c.current) && SameStage(c, d)
       case MaxSet(x) =>
         && more == [] && d.max == x && d.current == Min(c.current, x) && SameStage(c, d)
  }

  ghost predicate SameStage(c: Client, d: Client) {
    && (d.state == Idle <==> c.state == Idle)
    && d.hist.delays == c.hist.delays && d.hist.restarted == c.hist.restarted
  }

  lemma ResultChanges(c: Client, g: nat, ok: bool) returns (change: Change, more: seq<Entry>)
    ensures Changes(c, HandleResult(c, g, ok), change, more)
    ensures g == c.generation && c.state == Connecting ==> change == if ok then Succeeded else Waited
    ensures !(g == c.generation && c.state == Connecting) ==> change == Nothing && more == []
  {
    if g != c.generation || c.state != Connecting {
      change, more := Nothing, [];
    } else if ok {
      change, more := Succeeded, [Reported(true, c.hasHandler, Connected)];
    } else {
      change, more := Waited, [Reported(false, c.hasHandler, Connecting), Scheduled(c.current)];
    }
  }

  // The same after a silent entry, and with another base class and other callbacks.
  lemma ChangesLater(c: Client, d: Client, e: Client, first: seq<Entry>, change: Change, more: seq<Entry>)
    requires Silent(first) && d.hist == c.hist.(log := c.hist.log + first)
    requires d == c.(base := d.base, pending := d.pending, hist := d.hist)
    requires Changes(d, e, change, more) && !change.InitialSet? && !change.MaxSet?
    ensures Changes(c, e, change, first + more)
  {
    assert more != [] ==> (first + more)[..|first + more| - 1] == first + more[..|more| - 1];
  }

  lemma CompletionChanges(c: Client, g: nat, stage: Stage, ok: bool) returns (change: Change, more: seq<Entry>)
    ensures Changes(c, HandleCompletion(c, g, stage, ok), change, more)
    ensures change == Nothing || change == Waited || change == Succeeded
  {
    if c.base != Opening {
      change, more := Nothing, [];
    } else {
      hide HandleResult, Changes;
      var first := if g == c.generation then [Completed(stage, ok)] else [];
      var d := if g == c.generation then Note(c, Completed(stage, ok)) else c;
      assert c.hist.log + [] == c.hist.log;
      if ok && stage != WebsocketHandshake {
        change, more := Nothing, first;
        GoingOnChanges(c, d, g, stage, first);
      } else {
        var d' := d.(base := if ok then Up else Down);
        change, more := ResultChanges(d', g, ok);
        ChangesLater(c, d', HandleResult(d', g, ok), first, change, more);
        more := first + more;
      }
    }
  }

  lemma GoingOnChanges(c: Client, d: Client, g: nat, stage: Stage, first: seq<Entry>)
    requires Silent(first) && d == c.(hist := c.hist.(log := c.hist.log + first)) && stage != WebsocketHandshake
    ensures Changes(c, GoOn(d, g, stage, true), Nothing, first)
  {
  }

  lemma TakenChanges(c: Client, cb: Callback, e: Client, change: Change, more: seq<Entry>)
    requires Changes(Take(c, cb), e, change, more) && !change.InitialSet? && !change.MaxSet?
    ensures Changes(c, e, change, more)
  {
  }

  lemma ReadyChanges(c: Client, g: nat) returns (change: Change, more: seq<Entry>)
    ensures Changes(c, HandleReady(c, g), change, more)
    ensures change == Nothing || change == Waited
  {
    if g == c.generation && c.state == Connecting && c.base != Down {
      change, more := ResultChanges(c, g, false);
    } else {
      change, more := Nothing, [];
    }
  }

  lemma TimerChanges(c: Client, g: nat, ok: bool) returns (more: seq<Entry>)
    ensures Changes(c, HandleTimer(c, g, ok), Nothing, more)
  {
    more := if !ok || g != c.generation || c.state != WaitingReconnect then [] else [Fired, Asked(c.hasPrepare)];
  }

  lemma LossChanges(c: Client) returns (change: Change, more: seq<Entry>)
    ensures Changes(c, Lose(c), change, more)
    ensures change == Nothing || change == Waited
  {
    if c.base == Up && c.state == Connected {
      change, more := Waited, [Lost, Scheduled(c.current)];
    } else {
      change, more := Nothing, [];
    }
  }

  lemma ConnectChanges(c: Client, prepare: bool, handler: bool) returns (change: Change, more: seq<Entry>)
    ensures Changes(c, DoConnect(c, prepare, handler), change, more)
    ensures change == Nothing || change == Restarted
  {
    if c.state == Idle {
      change, more := Restarted, [Begun(prepare, handler), Asked(prepare)];
    } else {
      change, more := Nothing, [];
    }
  }

  lemma SettingChanges(c: Client, e: Event) returns (change: Change, more: seq<Entry>)
    requires e.Close? || e.SetInitial? || e.SetMax?
    ensures Changes(c, Step(c, e), change, more)
    ensures change == match e case SetInitial(x) => InitialSet(x) case SetMax(x) => MaxSet(x) case _ => Stopped
  {
    match e
    case Close => change, more := Stopped, [Closed];
    case SetInitial(x) => change, more := InitialSet(x), [];
    case SetMax(x) => change, more := MaxSet(x), [];
  }

  // Every step makes one of these changes; only the setters and close() make theirs.
  lemma StepChanges(c: Client, e: Event) returns (change: Change, more: seq<Entry>)
    requires Possible(c, e)
    ensures Changes(c, Step(c, e), change, more)
    ensures change.InitialSet? <==> e.SetInitial?
    ensures change.MaxSet? <==> e.SetMax?
    ensures change.Stopped? <==> e.Close?
    ensures e.SetInitial? ==> change == InitialSet(e.delay)
    ensures e.SetMax? ==> change == MaxSet(e.delay)
  {
    hide Changes, HandleReady, HandleCompletion, HandleTimer, DoConnect, Lose;
    match e
    case Connect(prepare, handler) => change, more := ConnectChanges(c, prepare, handler);
    case ConnectionReady(g) =>
      change, more := ReadyChanges(Take(c, Ready(g)), g);
      TakenChanges(c, Ready(g), Step(c, e), change, more);
    case ConnectCompletes(g, stage, ok) =>
      change, more := CompletionChanges(Take(c, Completion(g, stage)), g, stage, ok);
      TakenChanges(c, Completion(g, stage), Step(c, e), change, more);
    case TimerFired(g, ok) =>
      change := Nothing;
      more := TimerChanges(Take(c, Timer(g)), g, ok);
      TakenChanges(c, Timer(g), Step(c, e), change, more);
    case ConnectionLost => change, more := LossChanges(c);
    case Close => change, more := SettingChanges(c, e);
    case SetInitial(_) => change, more := SettingChanges(c, e);
    case SetMax(_) => change, more := SettingChanges(c, e);
  }

  // ----- The maximum -----

  // The next wait of a session is within the maximum, but for the first one after a success.
  ghost predicate Capped(c: Client) {
    c.state != Idle && (c.hist.restarted ==> c.hist.delays != []) ==> c.current <= c.max
  }

  lemma {:induction false} RunCapped(c: Client, es: seq<Event>, d: Client)
    requires Capped(c) && Executes(c, es, d)
    ensures Capped(d)
    decreases |es|
  {
    if es != [] {
      var change, more := StepChanges(c, es[0]);
      hide Step, Possible;
      RunCapped(Step(c, es[0]), es[1..], d);
    }
  }

  // On every run, whatever is set and when.
  lemma CurrentWithinMax(c: Client)
    requires Reachable(c)
    ensures Capped(c)
  {
    var es :| Executes(FRESH, es, c);
    RunCapped(FRESH, es, c);
  }

  predicate NoSuccessSince(log: seq<Entry>, n: nat) {
    forall i :: n <= i < |log| ==> !IsSuccess(log[i])
  }

  // The delays scheduled since there were `n` entries are at most `m`, and so is the next one.
  ghost predicate Below(c: Client, m: int, n: nat) {
    && c.max == m && n <= |c.hist.log| && (c.state != Idle ==> c.current <= m)
    && forall i :: n <= i < |c.hist.log| && c.hist.log[i].Scheduled? ==> c.hist.log[i].delay <= m
  }

  lemma {:induction false} LogGrows(c: Client, es: seq<Event>, d: Client)
    requires Executes(c, es, d)
    ensures c.hist.log <= d.hist.log
    decreases |es|
  {
    if es != [] {
      var change, more := StepChanges(c, es[0]);
      hide Step, Possible;
      LogGrows(Step(c, es[0]), es[1..], d);
    }
  }

  lemma StepBelow(c: Client, d: Client, change: Change, more: seq<Entry>, m: int, n: nat)
    requires Below(c, m, n) && Changes(c, d, change, more) && !change.MaxSet? && !change.Succeeded?
    ensures Below(d, m, n)
  {
    forall i | n <= i < |d.hist.log| && d.hist.log[i].Scheduled? ensures d.hist.log[i].delay <= m {
      if i >= |c.hist.log| {
        assert d.hist.log[i] == more[i - |c.hist.log|];
      }
    }
  }

  lemma {:induction false} RunBelow(c: Client, es: seq<Event>, d: Client, m: int, n: nat)
    requires Below(c, m, n) && Executes(c, es, d)
    requires (forall e :: e in es ==> !e.SetMax?) && NoSuccessSince(d.hist.log, n)
    ensures Below(d, m, n)
    decreases |es|
  {
    if es != [] {
      assert es[0] in es;
      var change, more := StepChanges(c, es[0]);
      var c' := Step(c, es[0]);
      hide Step, Possible, Below;
      LogGrows(c', es[1..], d);
      if change.Succeeded? {
        SuccessShows(c, c', more, d.hist.log, n);
      } else {
        StepBelow(c, c', change, more, m, n);
        RunBelow(c', es[1..], d, m, n);
      }
    }
  }

  lemma SuccessShows(c: Client, c': Client, more: seq<Entry>, log: seq<Entry>, n: nat)
    requires Changes(c, c', Succeeded, more) && c'.hist.log <= log && n <= |c.hist.log|
    ensures !NoSuccessSince(log, n)
  {
    assert IsSuccess(log[|c'.hist.log| - 1]);
  }

  // From a call of set_max_reconnect_delay on, every delay scheduled up to the next success, in this
  // session or a later one, is within the new maximum.
  lemma MaxLimitsDelays(c: Client, m: int, es: seq<Event>, d: Client, i: nat)
    requires Executes(Step(c, SetMax(m)), es, d) && (forall e :: e in es ==> !e.SetMax?)
    requires NoSuccessSince(d.hist.log, |c.hist.log|)
    requires |c.hist.log| <= i < |d.hist.log| && d.hist.log[i].Scheduled?
    ensures d.hist.log[i].delay <= m
  {
    RunBelow(Step(c, SetMax(m)), es, d, m, |c.hist.log|);
  }

  // ----- The delays of a session from some point on -----

  // All delays scheduled.
  function Delays(log: seq<Entry>): seq<int> {
    if log == [] then [] else
      var before, e := log[..|log| - 1], log[|log| - 1];
      Delays(before) + if e.Scheduled? then [e.delay] else []
  }

  // The k-th delay, if the next one would be `next` and the maximum is `max`.
  function DelayFrom(next: int, max: int, k: nat): int {
    if k == 0 then next else Backoff(next, max, k)
  }

  // There have been `k` delays since `c`, of this form.
  ghost predicate DelaysFollow(c: Client, d: Client, k: nat) {
    && d.state != Idle && d.max == c.max && d.current == DelayFrom(c.current, c.max, k)
    && Delays(d.hist.log) == Delays(c.hist.log) + seq(k, i requires 0 <= i => DelayFrom(c.current, c.max, i))
  }

  lemma {:induction false} SilentDelays(log: seq<Entry>, more: seq<Entry>)
    requires Silent(more)
    ensures Delays(log + more) == Delays(log)
    decreases |more|
  {
    if more == [] {
      assert log + more == log;
    } else {
      var n := |more| - 1;
      SilentDelays(log, more[..n]);
      assert (log + more)[..|log| + n] == log + more[..n];
    }
  }

  lemma WaitedDelays(log: seq<Entry>, more: seq<Entry>, delay: int)
    requires more != [] && Silent(more[..|more| - 1]) && more[|more| - 1] == Scheduled(delay)
    ensures Delays(log + more) == Delays(log) + [delay]
  {
    var n := |more| - 1;
    SilentDelays(log, more[..n]);
    assert (log + more)[..|log| + n] == log + more[..n];
  }

  lemma NextFrom(next: int, max: int, k: nat)
    requires 0 <= next && 0 <= max
    ensures Min(DelayFrom(next, max, k) * 2, max) == DelayFrom(next, max, k + 1)
  {
    NextDelay(next, max, k);
  }

  lemma StepFollowsOn(c: Client, d: Client, d': Client, k: nat, change: Change, more: seq<Entry>)
    requires 0 <= c.current && 0 <= c.max && DelaysFollow(c, d, k) && Changes(d, d', change, more)
    requires change == Nothing || change == Waited
    ensures DelaysFollow(c, d', if change == Waited then k + 1 else k)
  {
    hide Backoff, Delays;
    if change == Waited {
      WaitedDelays(d.hist.log, more, d.current);
      NextFrom(c.current, c.max, k);
    } else {
      SilentDelays(d.hist.log, more);
    }
  }

  lemma {:induction false} RunFollowsOn(c: Client, d: Client, k: nat, es: seq<Event>, e: Client) returns (n: nat)
    requires 0 <= c.current && 0 <= c.max && DelaysFollow(c, d, k) && Executes(d, es, e)
    requires (forall x :: x in es ==> !Sets(x) && !x.Close?) && NoSuccessSince(e.hist.log, |d.hist.log|)
    ensures DelaysFollow(c, e, n)
    decreases |es|
  {
    if es == [] {
      n := k;
    } else {
      assert es[0] in es;
      var change, more := StepChanges(d, es[0]);
      var d' := Step(d, es[0]);
      ChangesInSession(d, d', change, more);
      hide Step, Possible, DelaysFollow;
      LogGrows(d', es[1..], e);
      if change.Succeeded? {
        SuccessShows(d, d', more, e.hist.log, |d.hist.log|);
      }
      StepFollowsOn(c, d, d', k, change, more);
      n := RunFollowsOn(c, d', if change == Waited then k + 1 else k, es[1..], e);
    }
  }

  lemma ChangesInSession(c: Client, d: Client, change: Change, more: seq<Entry>)
    requires Changes(c, d, change, more) && c.state != Idle
    ensures change != Restarted && |c.hist.log| <= |d.hist.log|
  {
  }

  // Within a session and up to the next success the delays are the one that is due, and then it doubled
  // again and again, up to the maximum; from whatever point on, with whatever has been set before.
  lemma DelaysFromHere(c: Client, es: seq<Event>, d: Client)
    requires c.state != Idle && 0 <= c.current && 0 <= c.max && Executes(c, es, d)
    requires (forall e :: e in es ==> !Sets(e) && !e.Close?) && NoSuccessSince(d.hist.log, |c.hist.log|)
    ensures Delays(c.hist.log) <= Delays(d.hist.log)
    ensures forall i :: |Delays(c.hist.log)| <= i < |Delays(d.hist.log)| ==>
              Delays(d.hist.log)[i] == DelayFrom(c.current, c.max, i - |Delays(c.hist.log)|)
  {
    hide Delays, DelayFrom, DelaysFollow;
    NoneYet(c);
    var n := RunFollowsOn(c, c, 0, es, d);
    FollowingDelays(c, d, n);
  }

  lemma FollowingDelays(c: Client, d: Client, k: nat)
    requires DelaysFollow(c, d, k)
    ensures Delays(c.hist.log) <= Delays(d.hist.log)
    ensures forall i :: |Delays(c.hist.log)| <= i < |Delays(d.hist.log)| ==>
              Delays(d.hist.log)[i] == DelayFrom(c.current, c.max, i - |Delays(c.hist.log)|)
  {
    hide Delays, DelayFrom;
  }

  lemma NoneYet(c: Client)
    requires c.state != Idle
    ensures DelaysFollow(c, c, 0)
  {
  }

  // After set_max_reconnect_delay the delay that is due, doubled again and again, is limited to the new
  // maximum, the next wait included.
  lemma AfterSetMax(c: Client, m: int, es: seq<Event>, d: Client)
    requires c.state != Idle && 0 <= c.current && 0 <= m && Executes(Step(c, SetMax(m)), es, d)
    requires (forall e :: e in es ==> !Sets(e) && !e.Close?) && NoSuccessSince(d.hist.log, |c.hist.log|)
    ensures Delays(c.hist.log) <= Delays(d.hist.log)
    ensures forall i :: |Delays(c.hist.log)| <= i < |Delays(d.hist.log)| ==>
              Delays(d.hist.log)[i] == Backoff(c.current, m, i - |Delays(c.hist.log)|)
  {
    var c' := Step(c, SetMax(m));
    hide Delays, Backoff, DelayFrom;
    DelaysFromHere(c', es, d);
    var n := |Delays(c.hist.log)|;
    forall i | n <= i < |Delays(d.hist.log)| ensures Delays(d.hist.log)[i] == Backoff(c.current, m, i - n) {
      LimitedNow(c.current, m, i - n);
    }
  }

  lemma LimitedNow(next: int, m: int, k: nat)
    requires 0 <= next && 0 <= m
    ensures DelayFrom(Min(next, m), m, k) == Backoff(next, m, k)
  {
    if next > m {
      MultipleIsLarge(Pow2(k), m);
      MultipleIsLarge(Pow2(k), next);
      assert m * Pow2(k) == Pow2(k) * m && next * Pow2(k) == Pow2(k) * next;
    }
  }

  // ----- The initial delay -----

  lemma ResultIgnoresInitial(c: Client, x: int, g: nat)
    ensures HandleResult(c.(initial := x), g, false) == HandleResult(c, g, false).(initial := x)
    ensures c.state != Idle ==> HandleResult(c, g, false).state != Idle
  {
  }

  // The event completes the last operation of the attempt.
  predicate Succeeds(c: Client, e: Event) {
    && e.ConnectCompletes? && e.ok && e.stage == WebsocketHandshake && e.generation == c.generation
    && c.base == Opening && c.state == Connecting
  }

  lemma SuccessIsNoted(c: Client, e: Event)
    requires Succeeds(c, e)
    ensures |Step(c, e).hist.log| > |c.hist.log| && IsSuccess(Step(c, e).hist.log[|Step(c, e).hist.log| - 1])
  {
  }

  // A step that ends neither in a success nor in a close does not look at the initial delay.
  lemma StepIgnoresInitial(c: Client, x: int, e: Event)
    requires c.state != Idle && !e.Close? && !e.SetInitial? && !Succeeds(c, e)
    ensures Possible(c.(initial := x), e) <==> Possible(c, e)
    ensures Step(c.(initial := x), e) == Step(c, e).(initial := x) && Step(c, e).state != Idle
  {
    hide HandleCompletion, HandleReady, HandleTimer, DoConnect, Lose, Succeeds;
    match e
    case Connect(prepare, handler) => ConnectIgnoresInitial(c, x, prepare, handler);
    case ConnectionReady(g) => ReadyIgnoresInitial(c, x, g);
    case ConnectCompletes(g, stage, ok) => CompletionIgnoresInitial(c, x, g, stage, ok);
    case TimerFired(g, ok) => TimerIgnoresInitial(c, x, g, ok);
    case ConnectionLost => LossIgnoresInitial(c, x);
    case SetMax(_) =>
  }

  lemma ConnectIgnoresInitial(c: Client, x: int, prepare: bool, handler: bool)
    requires c.state != Idle
    ensures DoConnect(c.(initial := x), prepare, handler) == DoConnect(c, prepare, handler).(initial := x)
    ensures DoConnect(c, prepare, handler).state != Idle
  {
  }

  lemma ReadyIgnoresInitial(c: Client, x: int, g: nat)
    requires c.state != Idle
    ensures var c' := Take(c, Ready(g));
            HandleReady(c'.(initial := x), g) == HandleReady(c', g).(initial := x) && HandleReady(c', g).state != Idle
  {
    hide HandleResult;
    ResultIgnoresInitial(Take(c, Ready(g)), x, g);
  }

  lemma TimerIgnoresInitial(c: Client, x: int, g: nat, ok: bool)
    requires c.state != Idle
    ensures var c' := Take(c, Timer(g));
            && HandleTimer(c'.(initial := x), g, ok) == HandleTimer(c', g, ok).(initial := x)
            && HandleTimer(c', g, ok).state != Idle
  {
  }

  lemma LossIgnoresInitial(c: Client, x: int)
    requires c.state != Idle
    ensures Lose(c.(initial := x)) == Lose(c).(initial := x) && Lose(c).state != Idle
  {
  }

  lemma CompletionIgnoresInitial(c: Client, x: int, g: nat, stage: Stage, ok: bool)
    requires c.state != Idle && !Succeeds(c, ConnectCompletes(g, stage, ok))
    ensures var c' := Take(c, Completion(g, stage));
            && HandleCompletion(c'.(initial := x), g, stage, ok) == HandleCompletion(c', g, stage, ok).(initial := x)
            && HandleCompletion(c', g, stage, ok).state != Idle
  {
    hide Schedule, CallHandler;
    var c' := Take(c, Completion(g, stage));
    var d := if g == c.generation then Note(c', Completed(stage, ok)) else c';
    ResultIgnoresInitial(d.(base := Down), x, g);
    assert d.(initial := x, base := Down) == d.(base := Down, initial := x);
  }

  // set_initial_reconnect_delay changes nothing about a session that has begun until its next success:
  // without it the same events lead to the same state, but for the setting itself.
  lemma {:induction false} InitialWaitsForSuccess(c: Client, x: int, es: seq<Event>, d: Client)
    requires c.state != Idle && Executes(Step(c, SetInitial(x)), es, d)
    requires (forall e :: e in es ==> !e.Close? && !e.SetInitial?) && NoSuccessSince(d.hist.log, |c.hist.log|)
    ensures Executes(c, es, d.(initial := c.initial))
    decreases |es|
  {
    var c' := c.(initial := x);
    assert Step(c, SetInitial(x)) == c';
    if es != [] {
      assert es[0] in es;
      LogGrows(Step(c', es[0]), es[1..], d);
      var change, more := StepChanges(c', es[0]);
      ChangesGrow(c', Step(c', es[0]), change, more);
      if Succeeds(c', es[0]) {
        SuccessIsNoted(c', es[0]);
      }
      hide Possible, Succeeds;
      InitialIgnored(c, x, es[0]);
      InitialWaitsForSuccess(Step(c, es[0]), x, es[1..], d);
    }
  }

  lemma InitialIgnored(c: Client, x: int, e: Event)
    requires c.state != Idle && !e.Close? && !e.SetInitial? && !Succeeds(c.(initial := x), e)
    requires Possible(c.(initial := x), e)
    ensures Possible(c, e) && Step(c.(initial := x), e) == Step(Step(c, e), SetInitial(x))
    ensures Step(c, e).initial == c.initial && Step(c, e).state != Idle
    ensures Step(c, e).hist.log == Step(c.(initial := x), e).hist.log
  {
    StepIgnoresInitial(c, x, e);
    var change, more := StepChanges(c, e);
  }

  lemma ChangesGrow(c: Client, d: Client, change: Change, more: seq<Entry>)
    requires Changes(c, d, change, more)
    ensures c.hist.log <= d.hist.log
  {
  }

  // A success starts over with the initial delay.
  lemma SuccessStartsOver(c: Client)
    requires Inv(c) && c.base == Opening && Completion(c.generation, WebsocketHandshake) in c.pending
    ensures var d := Step(c, ConnectCompletes(c.generation, WebsocketHandshake, true));
            && d.state == Connected && d.base == Up && d.current == c.initial && d.hist.delays == []
            && d.hist.calls == c.hist.calls + (if c.hasHandler then [ConnectHandler(c.hist.session, true)] else [])
  {
    hide CompletionsOf;
    TakeKeeps(c, Completion(c.generation, WebsocketHandshake));
  }

  // ----- What is set -----

  function InitialAfter(x: int, es: seq<Event>): int
    decreases |es|
  {
    if es == [] then x else InitialAfter(if es[0].SetInitial? then es[0].delay else x, es[1..])
  }

  function MaxAfter(x: int, es: seq<Event>): int
    decreases |es|
  {
    if es == [] then x else MaxAfter(if es[0].SetMax? then es[0].delay else x, es[1..])
  }

  // The two limits are what has been set last.
  lemma {:induction false} LimitsAreLastSet(c: Client, es: seq<Event>, d: Client)
    requires Executes(c, es, d)
    ensures d.initial == InitialAfter(c.initial, es) && d.max == MaxAfter(c.max, es)
    decreases |es|
  {
    if es != [] {
      var change, more := StepChanges(c, es[0]);
      hide Step, Possible;
      LimitsAreLastSet(Step(c, es[0]), es[1..], d);
    }
  }
}
