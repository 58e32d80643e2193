/**
 The functions of `Executor` as they are written. Before each access to shared memory the other threads
 may do anything they can (`Interfere`), and `trace` records what every thread has done: it is always a
 run of the protocol, so what is proved of all reachable states holds at every point of every function.
 */
module Executor {
  import opened Doorbell
  import opened DoorbellInvariant
  import opened DoorbellTheorems
  import opened ExecutorSteps
  import opened Options

  class Executor {
    const producerCount: nat
    // members of the class
    var doorbellArmed: bool
    var isStopping: bool
    var hasWork: bool
    var isJoined: bool
    // Everything else: the io_context, the eventfd, the caller's queue, and where every thread is. Its
    // own copies of the four members are not used.
    var world: State
    ghost var trace: seq<Action>

    function View(): State
      reads this
    {
      world.(armed := doorbellArmed, stopping := isStopping, guard := hasWork, joined := isJoined)
    }

    ghost predicate Valid()
      reads this
    {
      Outcome(Init(producerCount), trace) == Some(View())
    }

    // The executor thread is at `p`, and not inside stop().
    predicate InThread(p: Phase)
      reads this
    {
      world.phase == p && world.inner == Out
    }

    // Calls of the handler so far.
    function Runs(): nat
      reads this
    {
      world.hist.runs
    }

    // What the executor thread has done.
    ghost function Own(): seq<Action>
      reads this
    {
      StepsOf(ExecutorThread, trace)
    }

    // So every theorem about reachable states applies, and with them the invariant.
    lemma ValidIsReachable()
      requires Valid()
      ensures Reachable(producerCount, View()) && Inv(producerCount, View())
    {
      OutcomeIsRun(Init(producerCount), trace, View());
      ReachableInv(producerCount, View());
    }

    lemma WaitGoesOn()
      requires Valid() && InThread(Polling)
      ensures !isStopping ==> world.wait != NoWait
    {
      ValidIsReachable();
    }

    lemma RetiresOnlyWhenStopping()
      requires Valid() && world.phase == Retiring
      ensures isStopping
    {
      ValidIsReachable();
    }

    lemma CallbackOutsideStop()
      requires Valid() && (world.phase == Polling || world.phase == Cancelling)
      ensures world.inner == Out
    {
      ValidIsReachable();
    }

    // The work guard of a thread that has been stopped or has ended is gone, and then the closure that
    // cancels the wait has been posted.
    lemma NoWorkLeft()
      requires Valid()
      ensures isJoined ==> world.phase == Exited
      ensures world.phase == Exited ==> !hasWork
      ensures world.inner.GuardGone? || world.outer.GuardGone? || world.outer.Joining? ==> !hasWork
      ensures !hasWork ==> world.cancels > 0 || world.hist.cancelRan
      ensures world.inner != Out ==> InUserCode(world.phase)
    {
      ValidIsReachable();
    }

    // So at every point of every function: no wakeup is lost, the counter is bounded, at most one more
    // handler call begins after the store of is_stopping, and an armed doorbell has not been rung.
    lemma Promises()
      requires Valid()
      ensures !isStopping && world.items > 0 ==> WakeupComing(View())
      ensures world.counter <= producerCount + 3
      ensures world.hist.lateRuns <= 1 && world.hist.runsAfterOwnStop == 0
      ensures doorbellArmed <==> FirstRing(world.hist)
    {
      ValidIsReachable();
      if !isStopping && world.items > 0 {
        NoLostWakeup(producerCount, View());
      }
      EventfdNeverOverflows(producerCount, View());
      AtMostOneLateRun(producerCount, View());
    }

    // The state setup_doorbell and start leave behind.
    constructor (n: nat)
      ensures Valid() && producerCount == n && trace == [] && View() == Init(n)
    {
      producerCount := n;
      doorbellArmed, isStopping, hasWork, isJoined := true, false, true, false;
      world := Init(n);
      trace := [];
    }

    // A step has been taken from `s`.
    ghost method Record(s: State, a: Action)
      requires Outcome(Init(producerCount), trace) == Some(s)
      requires After(s, a) == Some(View())
      modifies `trace
      ensures Valid() && trace == old(trace) + [a] && Later(old(trace), trace) && Later(old(Own()), Own())
      ensures forall t :: StepsOf(t, trace) == old(StepsOf(t, trace)) + if ThreadOf(a) == t then [a] else []
    {
      trace := trace + [a];
      assert trace[..|trace| - 1] == old(trace);
    }

    // Whatever the other threads do.
    method Interfere(me: Thread)
      requires Valid()
      modifies this
      ensures Valid() && Later(old(trace), trace) && StepsOf(me, trace) == old(StepsOf(me, trace))
      ensures LeftAlone(old(View()), View(), me)
    {
      hide After, Outcome, StepsOf;
      var steps: nat := *;
      while steps > 0
        invariant Valid() && Later(old(trace), trace) && StepsOf(me, trace) == old(StepsOf(me, trace))
        invariant LeftAlone(old(View()), View(), me)
      {
        var a: Action := *;
        if ThreadOf(a) != me && After(View(), a).Some? {
          ValidIsReachable();
          OthersLeaveAlone(View(), a, me);
          TakeStep(a);
        }
        steps := steps - 1;
      }
    }

    method TakeStep(a: Action)
      requires Valid() && After(View(), a).Some?
      modifies this
      ensures Valid() && After(old(View()), a) == Some(View()) && Later(old(trace), trace)
      ensures forall t :: StepsOf(t, trace) == old(StepsOf(t, trace)) + if ThreadOf(a) == t then [a] else []
    {
      hide After, Outcome, StepsOf;
      ghost var s := View();
      var t := After(View(), a).value;
      doorbellArmed, isStopping, hasWork, isJoined, world := t.armed, t.stopping, t.guard, t.joined, t;
      Record(s, a);
    }

    method WriteDoorbell()
      modifies `world
      ensures world == old(world).(counter := Written(old(world).counter))
    {
      if world.counter < EVENTFD_MAX {
        world := world.(counter := world.counter + 1);
      }
    }

    // ring(), by producer `i`, after its push
    method Ring(i: nat) returns (wrote: bool)
      requires Valid() && i < |View().producers| && View().producers[i] == Pushed
      modifies this
      ensures Valid() && Later(old(trace), trace) && i < |View().producers| && View().producers[i] == Idle
      ensures StepsOf(ProducerThread(i), trace) ==
                old(StepsOf(ProducerThread(i), trace))
                + [Action.Ring(Exchange(i))] + if wrote then [Action.Ring(WriteToken(i))] else []
    {
      hide Outcome, StepsOf, Later, After;
      LaterIsTransitive();
      var me := ProducerThread(i);
      Interfere(me);
      ghost var s := View();
      wrote := doorbellArmed;
      doorbellArmed := false;
      DoesExchange(s, i);
      world := world.(producers := world.producers[i := if wrote then Token else Idle],
                      hist := world.hist.(rung := true));
      Record(s, Action.Ring(Exchange(i)));
      if wrote {
        WriteAfterRing(i);
      }
    }

    // ring(): write_doorbell()
    method WriteAfterRing(i: nat)
      requires Valid() && i < |View().producers| && View().producers[i] == Token
      modifies this
      ensures Valid() && Later(old(trace), trace) && i < |View().producers| && View().producers[i] == Idle
      ensures StepsOf(ProducerThread(i), trace) ==
                old(StepsOf(ProducerThread(i), trace)) + [Action.Ring(WriteToken(i))]
    {
      hide Outcome, StepsOf, Later, After;
      LaterIsTransitive();
      Interfere(ProducerThread(i));
      ghost var s := View();
      DoesWriteToken(s, i);
      WriteDoorbell();
      world := world.(producers := world.producers[i := Idle],
                      hist := world.hist.(ringWrites := world.hist.ringWrites + 1));
      Record(s, Action.Ring(WriteToken(i)));
    }

    // handle_doorbell(), called by the io_context when the wait has completed
    method HandleDoorbell(aborted: bool)
      requires Valid() && InThread(if aborted then Retiring else Entered)
      modifies this
      ensures Valid() && Later(old(trace), trace) && Later(old(Own()), Own()) && InThread(Polling)
      // no handler call after an error or once stopping; else exactly one
      ensures aborted || old(isStopping) ==> Runs() == old(Runs()) && !doorbellArmed
      ensures Runs() <= old(Runs()) + 1
      ensures !isStopping ==> Runs() == old(Runs()) + 1 && world.wait != NoWait
    {
      hide Outcome, StepsOf, Later, After;
      LaterIsTransitive();
      if aborted {
        RetiresOnlyWhenStopping();
        Retire();
        return;
      }
      var stopping := LoadIsStopping();
      if stopping {
        Retire();
        return;
      }
      RunDoorbellHandler();
      stopping := LoadIsStopping();
      if !stopping {
        StartDoorbellWait();
      }
      WaitGoesOn();
    }

    // handle_doorbell(): is_stopping.load()
    method LoadIsStopping() returns (stopping: bool)
      requires Valid() && (InThread(Entered) || InThread(Rechecking))
      modifies this
      ensures Valid() && Later(old(trace), trace) && Later(old(Own()), Own()) && Runs() == old(Runs())
      ensures InThread(match old(world.phase)
                       case Entered => if stopping then Retiring else Arming
                       case _ => if stopping then Polling else Rewaiting)
      ensures (old(isStopping) ==> stopping) && (stopping ==> isStopping)
    {
      hide Outcome, StepsOf, Later, After;
      LaterIsTransitive();
      Interfere(ExecutorThread);
      ghost var s := View();
      stopping := isStopping;
      if world.phase == Entered {
        DoesCheck(s);
        world := world.(phase := if stopping then Retiring else Arming);
      } else {
        DoesRecheck(s);
        world := world.(phase := if stopping then Polling else Rewaiting);
      }
      Record(s, Exec(Advance));
    }

    // handle_doorbell(): storing false before an early return
    method Retire()
      requires Valid() && InThread(Retiring)
      modifies this
      ensures Valid() && Later(old(trace), trace) && Later(old(Own()), Own()) && InThread(Polling)
      ensures Runs() == old(Runs()) && !doorbellArmed && (old(isStopping) ==> isStopping)
    {
      hide Outcome, StepsOf, Later, After;
      LaterIsTransitive();
      Interfere(ExecutorThread);
      ghost var s := View();
      DoesRetire(s);
      doorbellArmed := false;
      world := world.(phase := Polling, hist := world.hist.(retired := true));
      Record(s, Exec(Advance));
    }

    // start_doorbell_wait()
    method StartDoorbellWait()
      requires Valid() && InThread(Rewaiting)
      modifies this
      ensures Valid() && Later(old(trace), trace) && Later(old(Own()), Own()) && InThread(Polling)
      ensures Runs() == old(Runs()) && (old(isStopping) ==> isStopping)
    {
      hide Outcome, StepsOf, Later, After;
      LaterIsTransitive();
      Interfere(ExecutorThread);
      ghost var s := View();
      DoesRewait(s);
      world := world.(wait := Waiting(false), phase := Polling);
      Record(s, Exec(Advance));
    }

    // run_doorbell_handler()
    method RunDoorbellHandler()
      requires Valid() && InThread(Arming)
      modifies this
      ensures Valid() && Later(old(trace), trace) && Later(old(Own()), Own()) && InThread(Rechecking)
      ensures Runs() == old(Runs()) + 1 && (old(isStopping) ==> isStopping)
    {
      hide Outcome, StepsOf, Later, After;
      LaterIsTransitive();
      Interfere(ExecutorThread);
      ghost var s := View();
      DoesArm(s);
      doorbellArmed := true;
      world := world.(phase := Draining(false, false), hist := BeginRun(world.hist, isStopping));
      Record(s, Exec(Advance));
      var more := DoorbellHandler();
      if more {
        Disarm();
        SelfRing();
      }
    }

    // run_doorbell_handler(): storing false when work remains
    method Disarm()
      requires Valid() && InThread(Disarming)
      modifies this
      ensures Valid() && Later(old(trace), trace) && Later(old(Own()), Own()) && InThread(SelfRinging)
      ensures Runs() == old(Runs()) && (old(isStopping) ==> isStopping)
    {
      hide Outcome, StepsOf, Later, After;
      LaterIsTransitive();
      Interfere(ExecutorThread);
      ghost var s := View();
      DoesDisarm(s);
      doorbellArmed := false;
      world := world.(phase := SelfRinging, hist := world.hist.(selfRung := true));
      Record(s, Exec(Advance));
    }

    // run_doorbell_handler(): write_doorbell(), to come back after other ready handlers
    method SelfRing()
      requires Valid() && InThread(SelfRinging)
      modifies this
      ensures Valid() && Later(old(trace), trace) && Later(old(Own()), Own()) && InThread(Rechecking)
      ensures Runs() == old(Runs()) && (old(isStopping) ==> isStopping)
    {
      hide Outcome, StepsOf, Later, After;
      LaterIsTransitive();
      Interfere(ExecutorThread);
      ghost var s := View();
      DoesSelfRing(s);
      WriteDoorbell();
      world := world.(phase := Rechecking, hist := world.hist.(selfWrites := world.hist.selfWrites + 1));
      Record(s, Exec(Advance));
    }

    // doorbell_handler(): the user's function. It takes items, looks for more, and may stop the executor;
    // it returns false only if it has seen the queue empty, and true only if it has taken an item.
    method DoorbellHandler() returns (more: bool)
      requires Valid() && InThread(Draining(false, false))
      modifies this
      ensures Valid() && Later(old(trace), trace) && Later(old(Own()), Own())
      ensures InThread(if more then Disarming else Rechecking)
      ensures Runs() == old(Runs()) && (old(isStopping) ==> isStopping)
    {
      hide Outcome, StepsOf, Later, After;
      LaterIsTransitive();
      var steps: nat := *;
      while steps > 0 || !(world.phase.popped || world.phase.sawEmpty)
        invariant Valid() && Later(old(trace), trace) && Later(old(Own()), Own())
        invariant world.phase.Draining? && world.inner == Out
        invariant Runs() == old(Runs()) && (old(isStopping) ==> isStopping)
        decreases steps, if world.phase.popped || world.phase.sawEmpty then 0 else 1
      {
        var stopNow: bool, force: bool := *, *;
        if steps > 0 && stopNow {
          var returned, _ := Stop(force, true);
        } else {
          LookAtQueue();
        }
        steps := if steps > 0 then steps - 1 else 0;
      }
      var again: bool := *;
      more := world.phase.popped && (again || !world.phase.sawEmpty);
      ghost var s := View();
      DoesReturn(s, more);
      world := world.(phase := if more then Disarming else Rechecking);
      Record(s, Exec(HandlerReturns(more)));
    }

    // The handler takes an item, or finds that there is none.
    method LookAtQueue()
      requires Valid() && world.phase.Draining? && world.inner == Out
      modifies this
      ensures Valid() && Later(old(trace), trace) && Later(old(Own()), Own()) && world.phase.Draining?
      ensures world.inner == Out
      ensures world.phase.popped || world.phase.sawEmpty
      ensures Runs() == old(Runs()) && (old(isStopping) ==> isStopping)
    {
      hide Outcome, StepsOf, Later, After;
      LaterIsTransitive();
      Interfere(ExecutorThread);
      ghost var s := View();
      if world.items > 0 {
        DoesPop(s);
        world := world.(items := world.items - 1, phase := world.phase.(popped := true));
        Record(s, Exec(PopItem));
      } else if !world.phase.sawEmpty {
        DoesObserve(s);
        world := world.(phase := world.phase.(sawEmpty := true));
        Record(s, Exec(ObserveEmpty));
      }
    }

    // The closure posted by stop()
    method CancelDoorbell()
      requires Valid() && InThread(Polling) && !world.forced && world.cancels > 0
      modifies this
      ensures Valid() && Later(old(trace), trace) && |old(Own())| < |Own()| && InThread(Polling) && !doorbellArmed
      ensures !world.wait.Waiting? || world.wait.cancelled
    {
      hide Outcome, StepsOf, Later, After;
      LaterIsTransitive();
      ghost var s := View();
      DoesStartCancel(s);
      doorbellArmed := false;
      world := world.(cancels := world.cancels - 1, phase := Cancelling, hist := world.hist.(cancelRan := true));
      Record(s, Poll(StartCancel));
      ghost var started := Own();
      CallbackOutsideStop();
      CancelWait();
      LaterIsLonger(started, Own());
    }

    // The closure posted by stop(), after its store: doorbell.cancel
    method CancelWait()
      requires Valid() && InThread(Cancelling) && !doorbellArmed
      modifies this
      ensures Valid() && Later(old(trace), trace) && Later(old(Own()), Own()) && InThread(Polling) && !doorbellArmed
      ensures !world.wait.Waiting? || world.wait.cancelled
    {
      hide Outcome, StepsOf, Later, After;
      LaterIsTransitive();
      Interfere(ExecutorThread);
      ghost var s := View();
      DoesCancel(s);
      world := world.(wait := if world.wait.Waiting? then Waiting(true) else world.wait, phase := Polling);
      Record(s, Exec(Advance));
    }

    // Any other posted callback; it may stop the executor.
    method PostedCallback()
      requires Valid() && InThread(Polling) && !world.forced && world.posts > 0
      modifies this
      ensures Valid() && Later(old(trace), trace) && |old(Own())| < |Own()| && InThread(Polling)
    {
      hide Outcome, StepsOf, Later, After;
      LaterIsTransitive();
      ghost var s := View();
      DoesStartPost(s);
      world := world.(posts := world.posts - 1, phase := InPost);
      Record(s, Poll(StartPost));
      ghost var started := Own();
      var stopNow: bool, force: bool := *, *;
      if stopNow {
        var returned, _ := Stop(force, true);
      }
      EndCallback();
      LaterIsLonger(started, Own());
    }

    method EndCallback()
      requires Valid() && InThread(InPost)
      modifies this
      ensures Valid() && Later(old(trace), trace) && Later(old(Own()), Own()) && InThread(Polling)
    {
      hide Outcome, StepsOf, Later, After;
      LaterIsTransitive();
      Interfere(ExecutorThread);
      ghost var s := View();
      DoesEndPost(s);
      world := world.(phase := Polling);
      Record(s, Exec(Advance));
    }

    // The io_context calls the handler of the wait that is done.
    method CompleteWait()
      requires Valid() && InThread(Polling) && !world.forced && (world.wait == ReadDone || world.wait == Aborted)
      modifies this
      ensures Valid() && Later(old(trace), trace) && |old(Own())| < |Own()| && InThread(Polling)
    {
      hide Outcome, StepsOf, Later, After;
      LaterIsTransitive();
      ghost var s := View();
      var aborted := world.wait == Aborted;
      DoesStartHandler(s);
      world := world.(wait := NoWait, phase := if aborted then Retiring else Entered);
      Record(s, Poll(StartHandler));
      ghost var started := Own();
      HandleDoorbell(aborted);
      LaterIsLonger(started, Own());
    }

    // io_context.run: takes one of the callbacks that are ready, whichever it likes, or returns if it has
    // been stopped or is out of work; otherwise it waits for the kernel, which is not a step of its own.
    method RunOne() returns (waits: bool)
      requires Valid() && InThread(Polling)
      modifies this
      ensures Valid() && Later(old(trace), trace) && (InThread(Polling) || InThread(Exited))
      ensures InThread(Exited) ==> world.forced || (!hasWork && world.posts == 0)
      ensures waits || |old(Own())| < |Own()|
      ensures waits ==> InThread(Polling) && !world.forced && world.cancels == 0 && world.posts == 0
      ensures waits ==> world.wait.Waiting? || (world.wait == NoWait && hasWork)
    {
      hide Outcome, StepsOf, Later, After;
      LaterIsTransitive();
      Interfere(ExecutorThread);
      waits := false;
      var pick: int := *;
      var waitDone := world.wait == ReadDone || world.wait == Aborted;
      if world.forced || (!hasWork && world.cancels == 0 && world.posts == 0 && world.wait == NoWait) {
        ghost var s := View();
        DoesExit(s);
        world := world.(phase := Exited);
        Record(s, Poll(RunReturns));
      } else if waitDone && (pick == 0 || (world.cancels == 0 && world.posts == 0)) {
        CompleteWait();
      } else if world.cancels > 0 && (pick == 1 || world.posts == 0) {
        CancelDoorbell();
      } else if world.posts > 0 {
        PostedCallback();
      } else {
        waits := true;
      }
    }

    // Where the caller of stop() has come to: a callback (`own`) or another thread.
    method Goto(own: bool, at: Stop)
      modifies `world
      ensures world == MoveStop(old(world), own, at)
    {
      if own {
        world := world.(inner := at);
      } else {
        world := world.(outer := at);
      }
    }

    // What the caller of stop() has done so far.
    ghost function StopTrace(own: bool): seq<Action>
      reads this
    {
      StepsOf(StopThread(own), trace)
    }

    // stop(), called by a callback (`own`) or by another thread. It has not returned while it waits
    // for the thread to end. It returns after one step if the thread has been joined before, and
    // otherwise posts the closure, gives up the work guard, stops the io_context if forced, and joins.
    method Stop(force: bool, own: bool) returns (returned: bool, ghost advances: nat)
      requires Valid() && StopAt(View(), own) == Out && (own ==> InUserCode(world.phase))
      modifies this
      ensures Valid() && Later(old(trace), trace) && isStopping && !hasWork
      ensures StopTook(old(StopTrace(own)), StopTrace(own), own, force, advances)
      ensures own ==> Later(old(Own()), Own())
      ensures advances == 1 || (advances == 3 && (own || !returned)) || (advances == 4 && !own && returned)
      ensures advances != 1 && force ==> world.forced
      ensures world.cancels > 0 || world.hist.cancelRan
      ensures own ==> returned && InThread(old(world.phase)) && Runs() == old(Runs())
      ensures !own ==> world.outer == if returned then Out else Joining
      ensures !own && returned ==> world.phase == Exited
    {
      hide Outcome, StepsOf, Later, After, StopTook;
      LaterIsTransitive();
      ghost var before := StopTrace(own);
      Interfere(StopThread(own));
      StopTakes(before, own, force);
      StoreIsStopping(force, own);
      Interfere(StopThread(own));
      NoWorkLeft();
      if isJoined {
        StopTakesOneMore(before, StopTrace(own), own, force, 0);
        ReturnJoined(own);
        NoWorkLeft();
        return true, 1;
      }
      returned := StopThreadRunning(force, own, before);
      advances := if !own && returned then 4 else 3;
      NoWorkLeft();
    }

    // stop(), of a thread that is joinable
    method StopThreadRunning(force: bool, own: bool, ghost before: seq<Action>) returns (returned: bool)
      requires Valid() && isStopping && !isJoined && StopAt(View(), own) == Flagged(force)
      requires StopTook(before, StopTrace(own), own, force, 0)
      modifies this
      ensures Valid() && Later(old(trace), trace) && isStopping && !hasWork
      ensures StopTook(before, StopTrace(own), own, force, if !own && returned then 4 else 3)
      ensures own ==> Later(old(Own()), Own())
      ensures force ==> world.forced
      ensures own ==> returned && world.inner == Out && world.phase == old(world.phase) && Runs() == old(Runs())
      ensures !own ==> world.outer == if returned then Out else Joining
      ensures !own && returned ==> world.phase == Exited
    {
      hide Outcome, StepsOf, Later, After, StopTook, Valid;
      LaterIsTransitive();
      StopTakesOneMore(before, StopTrace(own), own, force, 0);
      PostCancelClosure(force, own);
      StopTakesOneMore(before, StopTrace(own), own, force, 1);
      ResetWork(force, own);
      StopTakesOneMore(before, StopTrace(own), own, force, 2);
      StopContext(force, own);
      returned := true;
      if !own {
        StopTakesOneMore(before, StopTrace(own), own, force, 3);
        returned := Join();
      }
    }

    // stop(): is_stopping.store(true)
    method StoreIsStopping(force: bool, own: bool)
      requires Valid() && StopAt(View(), own) == Out && (own ==> InUserCode(world.phase))
      modifies this
      ensures Valid() && Later(old(trace), trace) && (own ==> Later(old(Own()), Own())) && isStopping
      ensures StopAt(View(), own) == Flagged(force)
      ensures StopTrace(own) == old(StopTrace(own)) + [StopCall(own, force)]
      ensures own ==> world.phase == old(world.phase) && Runs() == old(Runs())
    {
      hide Outcome, StepsOf, Later, After;
      ghost var s := View();
      DoesStop(s, own, force);
      isStopping := true;
      if own {
        world := world.(inner := Flagged(force), hist := world.hist.(ownStop := true));
        Record(s, StopCall(true, force));
      } else {
        world := world.(outer := Flagged(force));
        Record(s, StopCall(false, force));
      }
    }

    // stop(): returning because the thread is not joinable
    method ReturnJoined(own: bool)
      requires Valid() && isStopping && isJoined && StopAt(View(), own).Flagged?
      modifies this
      ensures Valid() && Later(old(trace), trace) && (own ==> Later(old(Own()), Own())) && isStopping
      ensures hasWork == old(hasWork)
      ensures StopTrace(own) == old(StopTrace(own)) + [StopAdvance(own)]
      ensures StopAt(View(), own) == Out && world.phase == old(world.phase) && Runs() == old(Runs())
    {
      hide Outcome, StepsOf, Later, After;
      ghost var s := View();
      DoesReturnJoined(s, own);
      Goto(own, Out);
      Record(s, StopAdvance(own));
    }

    // stop(): posting the closure that cancels the wait
    method PostCancelClosure(force: bool, own: bool)
      requires Valid() && isStopping && !isJoined && StopAt(View(), own) == Flagged(force)
      modifies this
      ensures Valid() && Later(old(trace), trace) && (own ==> Later(old(Own()), Own())) && isStopping
      ensures StopAt(View(), own) == CancelPosted(force)
      ensures StopTrace(own) == old(StopTrace(own)) + [StopAdvance(own)]
      ensures own ==> world.phase == old(world.phase) && Runs() == old(Runs())
    {
      hide Outcome, StepsOf, Later, After;
      ghost var s := View();
      DoesPostCancel(s, own);
      world := world.(cancels := world.cancels + 1, hist := world.hist.(everPosted := true));
      Goto(own, CancelPosted(force));
      Record(s, StopAdvance(own));
    }

    // stop(): work.reset()
    method ResetWork(force: bool, own: bool)
      requires Valid() && isStopping && StopAt(View(), own) == CancelPosted(force)
      modifies this
      ensures Valid() && Later(old(trace), trace) && (own ==> Later(old(Own()), Own())) && isStopping
      ensures StopAt(View(), own) == GuardGone(force)
      ensures StopTrace(own) == old(StopTrace(own)) + [StopAdvance(own)]
      ensures own ==> world.phase == old(world.phase) && Runs() == old(Runs())
    {
      hide Outcome, StepsOf, Later, After;
      LaterIsTransitive();
      Interfere(StopThread(own));
      ghost var s := View();
      DoesResetWork(s, own);
      hasWork := false;
      Goto(own, GuardGone(force));
      Record(s, StopAdvance(own));
    }

    // stop(): io_context.stop() if forced
    method StopContext(force: bool, own: bool)
      requires Valid() && isStopping && StopAt(View(), own) == GuardGone(force)
      modifies this
      ensures Valid() && Later(old(trace), trace) && (own ==> Later(old(Own()), Own())) && isStopping && !hasWork
      ensures StopTrace(own) == old(StopTrace(own)) + [StopAdvance(own)]
      ensures StopAt(View(), own) == (if own then Out else Joining) && (force ==> world.forced)
      ensures own ==> world.phase == old(world.phase) && Runs() == old(Runs())
    {
      hide Outcome, StepsOf, Later, After;
      LaterIsTransitive();
      Interfere(StopThread(own));
      NoWorkLeft();
      ghost var s := View();
      DoesStopContext(s, own);
      if force {
        world := world.(forced := true);
      }
      Goto(own, if own then Out else Joining);
      Record(s, StopAdvance(own));
    }

    // thread.join()
    method Join() returns (returned: bool)
      requires Valid() && isStopping && world.outer == Joining
      modifies this
      ensures Valid() && Later(old(trace), trace) && isStopping && !hasWork && (old(world.forced) ==> world.forced)
      ensures StopTrace(false) ==
                if returned then old(StopTrace(false)) + [StopAdvance(false)] else old(StopTrace(false))
      ensures world.outer == if returned then Out else Joining
      ensures returned ==> world.phase == Exited
    {
      hide Outcome, StepsOf, Later, After;
      LaterIsTransitive();
      Interfere(StopThread(false));
      NoWorkLeft();
      returned := world.phase == Exited;
      if returned {
        ghost var s := View();
        DoesJoin(s);
        isJoined := true;
        Goto(false, Out);
        Record(s, StopAdvance(false));
      }
    }
  }
}
