/**
 What a session consists of, told without the functions of the client: an automaton over the log, which
 every run of the client obeys, and what follows from it about stages, retries and delays.
 */
module ReconnectCycle {
  import opened Options
  import opened Powers
  import opened Reconnect

  // ----- The cycle -----

  // What may come next.
  datatype Mode =
    | Off                       // nothing but connect()
    | Starting                  // an attempt
    | Dialling(stage: Stage)    // the completion of this operation
    | Opened | Failed           // a report of the success, or of the failure
    | Online                    // the loss of the connection
    | Offline                   // a wait
    | Waiting                   // its end

  function Next(m: Mode, e: Entry): Option<Mode> {
    match e
    case Begun(_, _) => if m == Off then Some(Starting) else None
    case Asked(_) => if m == Starting then Some(Dialling(Resolve)) else None
    case Completed(stage, ok) =>
      if m != Dialling(stage) then None
      else if !ok then Some(Failed)
      else (
        match stage
        case Resolve => Some(Dialling(TcpConnect))
        case TcpConnect => Some(Dialling(SslHandshake))
        case SslHandshake => Some(Dialling(WebsocketHandshake))
        case WebsocketHandshake => Some(Opened))
    case Reported(ok, _, at) =>
      if m == Opened && ok && at == Connected then Some(Online)
      else if m == Failed && !ok && at == Connecting then Some(Offline)
      else None
    case Scheduled(_) => if m == Offline then Some(Waiting) else None
    case Fired => if m == Waiting then Some(Starting) else None
    case Lost => if m == Online then Some(Offline) else None
    case Closed => if Passing(m) then None else Some(Off)
  }

  // Modes that the client does not stay in.
  predicate Passing(m: Mode) {
    m == Starting || m == Opened || m == Failed || m == Offline
  }

  function Read(m: Mode, log: seq<Entry>): Option<Mode> {
    if log == [] then Some(m) else
      var n := |log| - 1;
      match Read(m, log[..n])
      case None => None
      case Some(m') => Next(m', log[n])
  }

  lemma ReadOneMore(m: Mode, log: seq<Entry>, e: Entry)
    ensures Read(m, log + [e]) == match Read(m, log) case None => None case Some(m') => Next(m', e)
  {
    assert (log + [e])[..|log|] == log;
  }

  // Where the client is in the cycle.
  ghost predicate Fits(c: Client, m: Mode) {
    match c.state
    case Idle => m == Off
    case Connected => m == Online
    case WaitingReconnect => m == Waiting
    case Connecting =>
      && m.Dialling?
      && (Ready(c.generation) in c.pending ==> m.stage == Resolve)
      && (c.base == Opening ==> Completion(c.generation, m.stage) in c.pending)
  }

  ghost predicate Follows(c: Client) {
    Read(Off, c.hist.log).Some? && Fits(c, Read(Off, c.hist.log).value)
  }

  // The client as it is, but for the base class and the callbacks that do not bear on the attempt.
  lemma FollowsAnyway(c: Client, base: BaseState, pending: multiset<Callback>)
    requires Follows(c) && (base == c.base || base != Opening)
    requires Ready(c.generation) in pending ==> Ready(c.generation) in c.pending
    requires forall stage :: Completion(c.generation, stage) in c.pending && base == Opening ==>
               Completion(c.generation, stage) in pending
    ensures Follows(c.(base := base, pending := pending))
  {
  }

  lemma AttemptFollows(c: Client)
    requires Read(Off, c.hist.log) == Some(Starting) && Aged(c) && c.base == Down
    ensures Follows(StartAttempt(c))
  {
    hide Read;
    ReadOneMore(Off, c.hist.log, Asked(c.hasPrepare));
  }

  lemma ScheduleFollows(c: Client)
    requires Read(Off, c.hist.log) == Some(Offline) && c.state != Idle
    ensures Follows(Schedule(c))
  {
    hide Read;
    ReadOneMore(Off, c.hist.log, Scheduled(c.current));
  }

  lemma ResultFollows(c: Client, ok: bool)
    requires Read(Off, c.hist.log) == Some(if ok then Opened else Failed) && c.state == Connecting
    ensures Follows(HandleResult(c, c.generation, ok))
  {
    hide Read, Schedule;
    var at := if ok then Connected else Connecting;
    ReadOneMore(Off, c.hist.log, Reported(ok, c.hasHandler, at));
    if !ok {
      ScheduleFollows(CallHandler(c, false));
    }
  }

  lemma ConnectFollows(c: Client, prepare: bool, handler: bool)
    requires Inv(c) && Follows(c)
    ensures Follows(DoConnect(c, prepare, handler))
  {
    hide Read, StartAttempt, CompletionsOf;
    if c.state == Idle {
      ReadOneMore(Off, c.hist.log, Begun(prepare, handler));
      AttemptFollows(NewSession(c, prepare, handler));
    }
  }

  lemma ReadyFollows(c: Client, g: nat)
    requires Inv(c) && Follows(c) && Ready(g) in c.pending
    ensures Follows(Step(c, ConnectionReady(g)))
  {
    hide Read, CompletionsOf, HandleResult;
    TakeKeeps(c, Ready(g));
    FollowsAnyway(c, c.base, Take(c, Ready(g)).pending);
    if Live(c, Ready(g)) {
      assert Step(c, ConnectionReady(g)) == OpenConnection(Take(c, Ready(g)), g);
      assert Ready(g) !in Take(c, Ready(g)).pending;
    }
  }

  // The operation in flight is the one that the cycle expects.
  lemma OneStage(c: Client, stage: Stage)
    requires Inv(c) && Follows(c) && c.base == Opening && Completion(c.generation, stage) in c.pending
    ensures Read(Off, c.hist.log) == Some(Dialling(stage))
  {
    hide Read, CompletionsOf;
    var m := Read(Off, c.hist.log).value;
    TakeKeeps(c, Completion(c.generation, stage));
    if m.stage != stage {
      NothingLive(Take(c, Completion(c.generation, stage)), Completion(c.generation, m.stage));
    }
  }

  lemma OwnCompletionFollows(c: Client, stage: Stage, ok: bool)
    requires Inv(c) && Follows(c) && Completion(c.generation, stage) in c.pending
    ensures Follows(Step(c, ConnectCompletes(c.generation, stage, ok)))
  {
    hide Read, CompletionsOf, HandleResult;
    var g, c' := c.generation, Take(c, Completion(c.generation, stage));
    if c.base != Opening {
      FollowsAnyway(c, c.base, c'.pending);
    } else {
      OneStage(c, stage);
      TakeKeeps(c, Completion(g, stage));
      ReadOneMore(Off, c.hist.log, Completed(stage, ok));
      var d := Note(c', Completed(stage, ok));
      if !ok || stage == WebsocketHandshake {
        ResultFollows(d.(base := if ok then Up else Down), ok);
      } else {
        assert Ready(g) !in c'.pending;
      }
    }
  }

  lemma LateCompletionFollows(c: Client, g: nat, stage: Stage, ok: bool)
    requires Inv(c) && Follows(c) && Completion(g, stage) in c.pending && g != c.generation
    ensures Follows(Step(c, ConnectCompletes(g, stage, ok)))
  {
    hide Read, CompletionsOf, Schedule, CallHandler;
    var d := Step(c, ConnectCompletes(g, stage, ok));
    FollowsAnyway(c, d.base, d.pending);
  }

  lemma TimerFollows(c: Client, g: nat, ok: bool)
    requires Inv(c) && Follows(c) && Timer(g) in c.pending
    ensures Follows(Step(c, TimerFired(g, ok)))
  {
    hide Read, CompletionsOf, StartAttempt;
    FollowsAnyway(c, c.base, Take(c, Timer(g)).pending);
    if ok && Live(c, Timer(g)) {
      ReadOneMore(Off, c.hist.log, Fired);
      AttemptFollows(Note(Take(c, Timer(g)), Fired));
    }
  }

  lemma LossFollows(c: Client)
    requires Inv(c) && Follows(c)
    ensures Follows(Lose(c))
  {
    hide Read, CompletionsOf, Schedule;
    if c.state == Connected {
      ReadOneMore(Off, c.hist.log, Lost);
      ScheduleFollows(Note(c.(base := Down), Lost));
    } else {
      FollowsAnyway(c, Lose(c).base, c.pending);
    }
  }

  lemma SettingFollows(c: Client, e: Event)
    requires Inv(c) && Follows(c) && (e.Close? || e.SetInitial? || e.SetMax?)
    ensures Follows(Step(c, e))
  {
    hide Read, CompletionsOf;
    ReadOneMore(Off, c.hist.log, Closed);
  }

  lemma StepFollows(c: Client, e: Event)
    requires Inv(c) && Follows(c) && Possible(c, e)
    ensures Follows(Step(c, e))
  {
    match e
    case Connect(prepare, handler) => ConnectFollows(c, prepare, handler);
    case ConnectionReady(g) => ReadyFollows(c, g);
    case ConnectCompletes(g, stage, ok) =>
      if g == c.generation {
        OwnCompletionFollows(c, stage, ok);
      } else {
        LateCompletionFollows(c, g, stage, ok);
      }
    case TimerFired(g, ok) => TimerFollows(c, g, ok);
    case ConnectionLost => LossFollows(c);
    case Close => SettingFollows(c, e);
    case SetInitial(_) => SettingFollows(c, e);
    case SetMax(_) => SettingFollows(c, e);
  }

  lemma {:induction false} RunFollows(c: Client, es: seq<Event>, d: Client)
    requires Inv(c) && Follows(c) && Executes(c, es, d)
    ensures Follows(d)
    decreases |es|
  {
    if es != [] {
      StepKeeps(c, es[0]);
      StepFollows(c, es[0]);
      RunFollows(Step(c, es[0]), es[1..], d);
    }
  }

  // On every run, with late callbacks of all kinds, every session goes round the cycle: an attempt is
  // begun by connect() or by the end of a wait, takes its operations in order, and is reported; a failed
  // attempt and a lost connection are followed by a wait.
  lemma SessionsGoRound(c: Client)
    requires Reachable(c)
    ensures Follows(c)
  {
    var es :| Executes(FRESH, es, c);
    RunFollows(FRESH, es, c);
  }

  // ----- What the cycle means -----

  lemma {:induction false} ReadUpTo(m: Mode, log: seq<Entry>, k: nat)
    requires Read(m, log).Some? && k <= |log|
    ensures Read(m, log[..k]).Some?
    ensures k < |log| ==>
              Read(m, log[..k + 1]).Some? && Read(m, log[..k + 1]) == Next(Read(m, log[..k]).value, log[k])
  {
    if k < |log| {
      var n := |log| - 1;
      assert log[..n + 1] == log;
      if k < n {
        ReadUpTo(m, log[..n], k);
        assert log[..n][..k] == log[..k] && log[..n][..k + 1] == log[..k + 1];
      }
    } else {
      assert log[..k] == log;
    }
  }

  // The entry that has led into mode `m`.
  lemma CameBy(log: seq<Entry>, i: nat, m: Mode)
    requires Read(Off, log).Some? && i <= |log| && Read(Off, log[..i]) == Some(m) && m != Off
    ensures i > 0 && Read(Off, log[..i - 1]).Some?
    ensures Next(Read(Off, log[..i - 1]).value, log[i - 1]) == Some(m)
  {
    if i > 0 {
      ReadUpTo(Off, log, i - 1);
    }
  }

  // A reported success comes right after the four operations of its attempt, in their order.
  lemma SuccessTakesFourStages(c: Client, i: nat)
    requires Reachable(c) && i < |c.hist.log| && c.hist.log[i].Reported? && c.hist.log[i].ok
    ensures i >= 5 && c.hist.log[i - 5].Asked?
    ensures c.hist.log[i - 4] == Completed(Resolve, true) && c.hist.log[i - 3] == Completed(TcpConnect, true)
    ensures c.hist.log[i - 2] == Completed(SslHandshake, true)
    ensures c.hist.log[i - 1] == Completed(WebsocketHandshake, true)
  {
    SessionsGoRound(c);
    FollowsReads(c);
    SuccessOrder(c.hist.log, i);
  }

  lemma FollowsReads(c: Client)
    requires Follows(c)
    ensures Read(Off, c.hist.log).Some?
  {
  }

  lemma SuccessOrder(log: seq<Entry>, i: nat)
    requires Read(Off, log).Some? && i < |log| && log[i].Reported? && log[i].ok
    ensures i >= 5 && log[i - 5].Asked?
    ensures log[i - 4] == Completed(Resolve, true) && log[i - 3] == Completed(TcpConnect, true)
    ensures log[i - 2] == Completed(SslHandshake, true) && log[i - 1] == Completed(WebsocketHandshake, true)
  {
    hide Read;
    ReadUpTo(Off, log, i);
    CameBy(log, i, Opened);
    CameBy(log, i - 1, Dialling(WebsocketHandshake));
    CameBy(log, i - 2, Dialling(SslHandshake));
    CameBy(log, i - 3, Dialling(TcpConnect));
    CameBy(log, i - 4, Dialling(Resolve));
  }

  function One(b: bool): nat {
    if b then 1 else 0
  }

  function Begins(log: seq<Entry>): nat {
    if log == [] then 0 else Begins(log[..|log| - 1]) + One(log[|log| - 1].Begun?)
  }

  function Asks(log: seq<Entry>): nat {
    if log == [] then 0 else Asks(log[..|log| - 1]) + One(log[|log| - 1].Asked?)
  }

  function Fires(log: seq<Entry>): nat {
    if log == [] then 0 else Fires(log[..|log| - 1]) + One(log[|log| - 1].Fired?)
  }

  function Waits(log: seq<Entry>): nat {
    if log == [] then 0 else Waits(log[..|log| - 1]) + One(log[|log| - 1].Scheduled?)
  }

  lemma {:induction false} CycleCounts(m: Mode, log: seq<Entry>)
    requires Read(m, log).Some?
    ensures Asks(log) + One(Read(m, log).value == Starting) == Begins(log) + Fires(log) + One(m == Starting)
    ensures Closed !in log ==> Waits(log) + One(m == Waiting) == Fires(log) + One(Read(m, log).value == Waiting)
    ensures Closed !in log && m != Off ==> Begins(log) == 0 && Read(m, log).value != Off
  {
    if log != [] {
      CycleCounts(m, log[..|log| - 1]);
    }
  }

  // Every attempt is begun by connect(), or by a reconnect timer that has fired.
  lemma AttemptsAreCaused(c: Client)
    requires Reachable(c)
    ensures Asks(c.hist.log) == Begins(c.hist.log) + Fires(c.hist.log)
  {
    SessionsGoRound(c);
    CycleCounts(Off, c.hist.log);
  }

  lemma {:induction false} ReadConcat(m: Mode, log: seq<Entry>, more: seq<Entry>)
    requires Read(m, log + more).Some?
    ensures Read(m, log).Some? && Read(m, log + more) == Read(Read(m, log).value, more)
    decreases |more|
  {
    if more == [] {
      assert log + more == log;
    } else {
      var n := |more| - 1;
      assert (log + more)[..|log| + n] == log + more[..n];
      ReadConcat(m, log, more[..n]);
    }
  }

  // Between two attempts of one session that follow each other exactly one wait is scheduled and ends,
  // and its end comes right before the second.
  lemma OneWaitPerRetry(c: Client, j: nat, k: nat)
    requires Reachable(c) && j < k < |c.hist.log| && c.hist.log[j].Asked? && c.hist.log[k].Asked?
    requires forall i :: j < i < k ==> !c.hist.log[i].Asked? && !c.hist.log[i].Closed?
    ensures Waits(c.hist.log[j + 1..k]) == 1 && Fires(c.hist.log[j + 1..k]) == 1
    ensures k >= j + 3 && c.hist.log[k - 1] == Fired && c.hist.log[k - 2].Scheduled?
  {
    SessionsGoRound(c);
    RetryCounts(c.hist.log, j, k);
    RetryOrder(c.hist.log, j, k);
  }

  lemma RetryCounts(log: seq<Entry>, j: nat, k: nat)
    requires Read(Off, log).Some? && j < k < |log| && log[j].Asked? && log[k].Asked?
    requires forall i :: j < i < k ==> !log[i].Asked? && !log[i].Closed?
    ensures Waits(log[j + 1..k]) == 1 && Fires(log[j + 1..k]) == 1 && Begins(log[j + 1..k]) == 0
    ensures Read(Off, log[..k]) == Some(Starting)
  {
    var between := log[j + 1..k];
    hide Read, Waits, Fires, Begins, Asks, Next;
    AskedAt(log, j);
    AskedAt(log, k);
    assert log[..k] == log[..j + 1] + between;
    ReadConcat(Off, log[..j + 1], between);
    CycleCounts(Dialling(Resolve), between);
    NoAsks(between);
  }

  lemma AskedAt(log: seq<Entry>, i: nat)
    requires Read(Off, log).Some? && i < |log| && log[i].Asked?
    ensures Read(Off, log[..i]) == Some(Starting) && Read(Off, log[..i + 1]) == Some(Dialling(Resolve))
  {
    ReadUpTo(Off, log, i);
  }

  lemma RetryOrder(log: seq<Entry>, j: nat, k: nat)
    requires Read(Off, log).Some? && j < k < |log| && Read(Off, log[..k]) == Some(Starting) && log[j].Asked?
    requires Waits(log[j + 1..k]) == 1 && Begins(log[j + 1..k]) == 0
    ensures k >= j + 3 && log[k - 1] == Fired && log[k - 2].Scheduled?
  {
    assert log[j + 1..k] != [];
    assert log[j + 1..k][k - j - 2] == log[k - 1];
    CameBy(log, k, Starting);
    hide Read, Waits;
    CameBy(log, k - 1, Waiting);
  }

  lemma {:induction false} NoAsks(log: seq<Entry>)
    requires forall i :: 0 <= i < |log| ==> !log[i].Asked?
    ensures Asks(log) == 0
  {
    if log != [] {
      NoAsks(log[..|log| - 1]);
    }
  }

  // ----- What is recorded besides -----

  // The calls of the user's functions that the log tells of.
  function UserCalls(log: seq<Entry>): seq<UserCall> {
    if log == [] then [] else
      var before, e := log[..|log| - 1], log[|log| - 1];
      UserCalls(before) + CallsIn(Begins(before), e)
  }

  function CallsIn(session: nat, e: Entry): seq<UserCall> {
    if e.Asked? && e.called then [PrepareConnection(session)]
    else if e.Reported? && e.called then [ConnectHandler(session, e.ok)]
    else []
  }

  // The delays since the last connect() or success, and whether that was a success.
  function DelaysSince(log: seq<Entry>): seq<int> {
    if log == [] then [] else
      var before, e := log[..|log| - 1], log[|log| - 1];
      if e.Begun? || IsSuccess(e) then [] else DelaysSince(before) + if e.Scheduled? then [e.delay] else []
  }

  function SinceSuccess(log: seq<Entry>): bool {
    if log == [] then false else
      var before, e := log[..|log| - 1], log[|log| - 1];
      !e.Begun? && (IsSuccess(e) || SinceSuccess(before))
  }

  predicate IsSuccess(e: Entry) {
    e.Reported? && e.ok
  }

  // The functions passed to the last connect() accepted.
  function GivenPrepare(log: seq<Entry>): bool {
    if log == [] then false else
      var before, e := log[..|log| - 1], log[|log| - 1];
      if e.Begun? then e.prepare else GivenPrepare(before)
  }

  function GivenHandler(log: seq<Entry>): bool {
    if log == [] then false else
      var before, e := log[..|log| - 1], log[|log| - 1];
      if e.Begun? then e.handler else GivenHandler(before)
  }

  // A function is called whenever its turn has come and it has been given.
  predicate CallsGiven(log: seq<Entry>) {
    log == [] ||
      var before, e := log[..|log| - 1], log[|log| - 1];
      CallsGiven(before) && CallsIfGiven(before, e)
  }

  predicate CallsIfGiven(before: seq<Entry>, e: Entry) {
    (e.Asked? ==> e.called == GivenPrepare(before)) && (e.Reported? ==> e.called == GivenHandler(before))
  }

  ghost predicate Holds(c: Client) {
    c.hasPrepare == GivenPrepare(c.hist.log) && c.hasHandler == GivenHandler(c.hist.log)
  }

  ghost predicate Recorded(c: Client) {
    var h := c.hist;
    && h.session == Begins(h.log) && h.calls == UserCalls(h.log)
    && h.delays == DelaysSince(h.log) && h.restarted == SinceSuccess(h.log)
    && CallsGiven(h.log) && (c.state != Idle ==> Holds(c))
  }

  lemma OneMore(log: seq<Entry>, e: Entry)
    ensures Begins(log + [e]) == Begins(log) + One(e.Begun?)
    ensures UserCalls(log + [e]) == UserCalls(log) + CallsIn(Begins(log), e)
    ensures DelaysSince(log + [e]) ==
              if e.Begun? || IsSuccess(e) then [] else DelaysSince(log) + if e.Scheduled? then [e.delay] else []
    ensures SinceSuccess(log + [e]) == (!e.Begun? && (IsSuccess(e) || SinceSuccess(log)))
    ensures GivenPrepare(log + [e]) == if e.Begun? then e.prepare else GivenPrepare(log)
    ensures GivenHandler(log + [e]) == if e.Begun? then e.handler else GivenHandler(log)
    ensures CallsGiven(log + [e]) <==> CallsGiven(log) && CallsIfGiven(log, e)
  {
    assert (log + [e])[..|log|] == log;
  }

  lemma NoteRecords(c: Client, e: Entry)
    requires Recorded(c)
    requires e == Fired || e == Lost || e == Closed || e.Completed?
    ensures Recorded(Note(c, e))
  {
    hide Begins, UserCalls, DelaysSince, SinceSuccess, GivenPrepare, GivenHandler, CallsGiven;
    OneMore(c.hist.log, e);
  }

  lemma AttemptRecords(c: Client)
    requires Recorded(c) && Holds(c)
    ensures Recorded(StartAttempt(c))
  {
    hide Begins, UserCalls, DelaysSince, SinceSuccess, GivenPrepare, GivenHandler, CallsGiven;
    OneMore(c.hist.log, Asked(c.hasPrepare));
  }

  lemma ScheduleRecords(c: Client)
    requires Recorded(c)
    ensures Recorded(Schedule(c))
  {
    hide Begins, UserCalls, DelaysSince, SinceSuccess, GivenPrepare, GivenHandler, CallsGiven;
    OneMore(c.hist.log, Scheduled(c.current));
  }

  lemma ResultRecords(c: Client, g: nat, ok: bool)
    requires Recorded(c)
    ensures Recorded(HandleResult(c, g, ok))
  {
    hide Begins, UserCalls, DelaysSince, SinceSuccess, GivenPrepare, GivenHandler, CallsGiven, Schedule;
    OneMore(c.hist.log, Reported(ok, c.hasHandler, if ok then Connected else c.state));
    if g == c.generation && c.state == Connecting && !ok {
      ScheduleRecords(CallHandler(c, false));
    }
  }

  lemma ConnectRecords(c: Client, prepare: bool, handler: bool)
    requires Recorded(c)
    ensures Recorded(DoConnect(c, prepare, handler))
  {
    hide Begins, UserCalls, DelaysSince, SinceSuccess, GivenPrepare, GivenHandler, CallsGiven, StartAttempt;
    OneMore(c.hist.log, Begun(prepare, handler));
    if c.state == Idle {
      AttemptRecords(NewSession(c, prepare, handler));
    }
  }

  lemma CompletionRecords(c: Client, g: nat, stage: Stage, ok: bool)
    requires Recorded(c)
    ensures Recorded(HandleCompletion(c, g, stage, ok))
  {
    hide Recorded, HandleResult;
    NoteRecords(c, Completed(stage, ok));
    var d := if g == c.generation then Note(c, Completed(stage, ok)) else c;
    RecordsAnyway(d, if ok then Up else Down, d.pending);
    ResultRecords(d.(base := if ok then Up else Down), g, ok);
    if stage != WebsocketHandshake {
      RecordsAnyway(d, d.base, d.pending + multiset{Completion(g, NextStage(stage))});
    }
  }

  lemma RecordsAnyway(c: Client, base: BaseState, pending: multiset<Callback>)
    requires Recorded(c)
    ensures Recorded(c.(base := base, pending := pending))
  {
  }

  lemma ReadyRecords(c: Client, g: nat)
    requires Recorded(c)
    ensures Recorded(HandleReady(c, g))
  {
    hide Recorded, HandleResult;
    ResultRecords(c, g, false);
    RecordsAnyway(c, Opening, c.pending + multiset{Completion(g, Resolve)});
  }

  lemma TimerRecords(c: Client, g: nat, ok: bool)
    requires Recorded(c)
    ensures Recorded(HandleTimer(c, g, ok))
  {
    hide StartAttempt, Begins, UserCalls, DelaysSince, SinceSuccess, CallsGiven;
    NoteRecords(c, Fired);
    if ok && g == c.generation && c.state == WaitingReconnect {
      OneMore(c.hist.log, Fired);
      AttemptRecords(Note(c, Fired));
    }
  }

  lemma LossRecords(c: Client)
    requires Recorded(c)
    ensures Recorded(Lose(c))
  {
    hide Recorded, Schedule;
    RecordsAnyway(c, Down, c.pending);
    NoteRecords(c.(base := Down), Lost);
    ScheduleRecords(Note(c.(base := Down), Lost));
  }

  lemma SettingRecords(c: Client, e: Event)
    requires Recorded(c) && (e.Close? || e.SetInitial? || e.SetMax?)
    ensures Recorded(Step(c, e))
  {
    hide Begins, UserCalls, DelaysSince, SinceSuccess, GivenPrepare, GivenHandler, CallsGiven;
    OneMore(c.hist.log, Closed);
  }

  lemma StepRecords(c: Client, e: Event)
    requires Recorded(c) && Possible(c, e)
    ensures Recorded(Step(c, e))
  {
    hide Recorded, HandleCompletion, HandleReady, HandleTimer, DoConnect, Lose;
    match e
    case Connect(prepare, handler) => ConnectRecords(c, prepare, handler);
    case ConnectionReady(g) =>
      RecordsAnyway(c, c.base, Take(c, Ready(g)).pending);
      ReadyRecords(Take(c, Ready(g)), g);
    case ConnectCompletes(g, stage, ok) =>
      RecordsAnyway(c, c.base, Take(c, Completion(g, stage)).pending);
      CompletionRecords(Take(c, Completion(g, stage)), g, stage, ok);
    case TimerFired(g, ok) =>
      RecordsAnyway(c, c.base, Take(c, Timer(g)).pending);
      TimerRecords(Take(c, Timer(g)), g, ok);
    case ConnectionLost => LossRecords(c);
    case Close => SettingRecords(c, e);
    case SetInitial(_) => SettingRecords(c, e);
    case SetMax(_) => SettingRecords(c, e);
  }

  lemma {:induction false} RunRecords(c: Client, es: seq<Event>, d: Client)
    requires Recorded(c) && Executes(c, es, d)
    ensures Recorded(d)
    decreases |es|
  {
    if es != [] {
      StepRecords(c, es[0]);
      RunRecords(Step(c, es[0]), es[1..], d);
    }
  }

  // What the user has been told and the delays are those of the log, on every run, and a function is
  // called exactly where the log has its turn and the last connect() has given it.
  lemma LogTellsAll(c: Client)
    requires Reachable(c)
    ensures Recorded(c)
  {
    var es :| Executes(FRESH, es, c);
    RunRecords(FRESH, es, c);
  }

  // ----- What single callbacks lead to -----

  // The end of a wait begins an attempt: the user is asked for a connection, and no delay is scheduled.
  lemma LiveTimerDials(c: Client, g: nat)
    requires Inv(c) && Timer(g) in c.pending && Live(c, Timer(g))
    ensures var d := Step(c, TimerFired(g, true));
            && d.state == Connecting && d.hist.delays == c.hist.delays
            && d.hist.calls == c.hist.calls + (if c.hasPrepare then [PrepareConnection(c.hist.session)] else [])
            && d.pending[Ready(d.generation)] == (if c.hasPrepare then 1 else 0)
            && Timers(d) == 0
  {
    hide CompletionsOf;
    TakeKeeps(c, Timer(g));
    StartAttemptKeeps(Note(Take(c, Timer(g)), Fired));
  }

  // A failed attempt is reported, and then waits for the delay that the backoff has come to.
  lemma FailureWaits(c: Client, stage: Stage)
    requires Inv(c) && BackoffInv(c) && Completion(c.generation, stage) in c.pending && c.base == Opening
    ensures var d := Step(c, ConnectCompletes(c.generation, stage, false));
            && d.state == WaitingReconnect && d.base == Down && d.generation == c.generation
            && d.pending[Timer(d.generation)] == 1
            && d.hist.delays == c.hist.delays + [DelayOf(c, |c.hist.delays|)]
            && d.hist.calls == c.hist.calls + (if c.hasHandler then [ConnectHandler(c.hist.session, false)] else [])
  {
    hide CompletionsOf;
    TakeKeeps(c, Completion(c.generation, stage));
  }

  // So does a connection that is lost.
  lemma LossWaits(c: Client)
    requires Inv(c) && BackoffInv(c) && c.state == Connected
    ensures var d := Step(c, ConnectionLost);
            && d.state == WaitingReconnect && d.base == Down && d.generation == c.generation
            && d.pending[Timer(d.generation)] == 1
            && d.hist.delays == c.hist.delays + [DelayOf(c, |c.hist.delays|)] && d.hist.calls == c.hist.calls
  {
  }

  // ----- connect() -----

  function Connects(es: seq<Event>): nat {
    if es == [] then 0 else One(es[0].Connect?) + Connects(es[1..])
  }

  // A call of connect() begins a session if there is none, and is refused otherwise.
  lemma ConnectCounts(c: Client, e: Event)
    requires Recorded(c) && Possible(c, e)
    ensures Step(c, e).hist.session + |Step(c, e).hist.refused| ==
              c.hist.session + |c.hist.refused| + One(e.Connect?)
    ensures e.Connect? && c.state != Idle ==> Step(c, e) == c.(hist := c.hist.(refused := c.hist.refused + [e.handler]))
  {
    hide HandleResult, HandleCompletion;
    match e
    case Connect(_, _) =>
    case ConnectionReady(g) => ResultLeavesSessions(Take(c, Ready(g)), g, false);
    case ConnectCompletes(g, stage, ok) => CompletionLeavesSessions(Take(c, Completion(g, stage)), g, stage, ok);
    case TimerFired(_, _) =>
    case ConnectionLost =>
    case Close =>
    case SetInitial(_) =>
    case SetMax(_) =>
  }

  predicate SameSessions(h: History, h': History) {
    h'.session == h.session && h'.refused == h.refused
  }

  lemma ResultLeavesSessions(c: Client, g: nat, ok: bool)
    ensures SameSessions(c.hist, HandleResult(c, g, ok).hist)
  {
  }

  lemma CompletionLeavesSessions(c: Client, g: nat, stage: Stage, ok: bool)
    ensures SameSessions(c.hist, HandleCompletion(c, g, stage, ok).hist)
  {
    hide HandleResult;
    var d := if g == c.generation then Note(c, Completed(stage, ok)) else c;
    ResultLeavesSessions(d.(base := if ok then Up else Down), g, ok);
  }

  // Every connect() has begun a session or has been refused, and the log tells the sessions.
  lemma {:induction false} NoConnectIsLost(c: Client, es: seq<Event>, d: Client)
    requires Recorded(c) && Executes(c, es, d)
    ensures Begins(d.hist.log) + |d.hist.refused| == Begins(c.hist.log) + |c.hist.refused| + Connects(es)
    decreases |es|
  {
    if es != [] {
      ConnectCounts(c, es[0]);
      StepRecords(c, es[0]);
      hide Step, Possible;
      NoConnectIsLost(Step(c, es[0]), es[1..], d);
    }
  }
}
