/**
 `HttpsClientAsync`: one request at a time, in five stages, with a generation check on every completion.

 Resolver and stream are the environment: they complete each operation they hold at most once, at any
 time, with any outcome.
 */
module HttpsRequests {
  import opened Options

  datatype RequestState = Idle | InProgress | Cancelling

  datatype Stage = Resolve | Connect | Handshake | Write | Read

  // An operation in flight, with the generation its completion carries.
  datatype Op = Op(generation: nat, stage: Stage)

  datatype Outcome = Response | Failed | Cancelled

  type Handler = Option<nat>

  // An accepted request and what it was answered with. An empty handler is answered by calling nothing.
  // `at` is the state the client is in when it answers.
  datatype Answer = Answer(handler: Handler, outcome: Outcome, at: RequestState)

  datatype Client = Client(
    state: RequestState,
    generation: nat,
    hasStream: bool,
    handler: Handler,
    outstanding: multiset<Op>,
    // history: the handlers of all accepted requests, the answers, the requests refused, and the
    // completions that the current request has had
    accepted: seq<Handler>,
    answers: seq<Answer>,
    refused: seq<Handler>,
    delivered: nat)

  datatype Event =
    | Request(handler: Handler)
    | Cancel
    | Complete(op: Op, ok: bool, setup: bool)   // `setup`: the TLS host settings made after connecting succeed

  const FRESH: Client := Client(Idle, 0, false, None, multiset{}, [], [], [], 0)

  // complete_request
  function Finish(c: Client, outcome: Outcome): Client {
    c.(handler := None, state := Idle, answers := c.answers + [Answer(c.handler, outcome, Idle)])
  }

  // fail_request
  function Fail(c: Client): Client {
    Finish(c.(hasStream := false), Failed)
  }

  function Start(c: Client, stage: Stage): Client {
    c.(outstanding := c.outstanding + multiset{Op(c.generation, stage)})
  }

  // do_request
  function DoRequest(c: Client, handler: Handler): Client {
    if c.state != Idle then c.(refused := c.refused + [handler])
    else Start(Accept(c, handler), Resolve)
  }

  function Accept(c: Client, handler: Handler): Client {
    c.(state := InProgress, generation := c.generation + 1, handler := handler, hasStream := true,
       accepted := c.accepted + [handler], delivered := 0)
  }

  // do_cancel
  function DoCancel(c: Client): Client {
    if c.state != InProgress then c
    else Finish(c.(state := Cancelling, generation := c.generation + 1, hasStream := false), Cancelled)
  }

  // is_current_request, and the check of the stream
  predicate IsCurrent(c: Client, generation: nat) {
    c.state == InProgress && generation == c.generation && c.hasStream
  }

  // The five handlers.
  function Handle(c: Client, op: Op, ok: bool, setup: bool): Client {
    if !IsCurrent(c, op.generation) then c
    else
      var c' := c.(delivered := c.delivered + 1);
      if !ok then Fail(c')
      else
        match op.stage
        case Resolve => Start(c', Connect)
        case Connect => if setup then Start(c', Handshake) else Fail(c')
        case Handshake => Start(c', Write)
        case Write => Start(c', Read)
        case Read => Finish(c'.(hasStream := false), Response)
  }

  predicate Possible(c: Client, e: Event) {
    e.Complete? ==> e.op in c.outstanding
  }

  function Take(c: Client, op: Op): Client {
    c.(outstanding := c.outstanding - multiset{op})
  }

  function Step(c: Client, e: Event): Client {
    match e
    case Request(handler) => DoRequest(c, handler)
    case Cancel => DoCancel(c)
    case Complete(op, ok, setup) => Handle(Take(c, op), op, ok, setup)
  }

  ghost predicate Executes(c: Client, es: seq<Event>, d: Client)
    decreases |es|
  {
    if es == [] then c == d else Possible(c, es[0]) && Executes(Step(c, es[0]), es[1..], d)
  }

  // ----- Invariant -----

  function StageAt(n: nat): Stage
    requires n < 5
  {
    if n == 0 then Resolve else if n == 1 then Connect else if n == 2 then Handshake
    else if n == 3 then Write else Read
  }

  // No operation of generation `g` is in flight, or one, of stage `n`; and none of a later generation.
  ghost predicate NoneCurrent(outstanding: multiset<Op>, g: nat) {
    forall op :: op in outstanding ==> op.generation < g
  }

  ghost predicate OneCurrent(outstanding: multiset<Op>, g: nat, n: nat) {
    && n < 5
    && outstanding[Op(g, StageAt(n))] == 1
    && forall op :: op in outstanding && op != Op(g, StageAt(n)) ==> op.generation < g
  }

  // Answers are given in the order of the requests, to their handlers.
  ghost predicate Matching(accepted: seq<Handler>, answers: seq<Answer>) {
    && |answers| <= |accepted|
    && forall i :: 0 <= i < |answers| ==> answers[i].handler == accepted[i] && answers[i].at == Idle
  }

  ghost predicate Inv(c: Client) {
    && Matching(c.accepted, c.answers)
    && c.state != Cancelling
    && (c.state == InProgress ==>
          && c.hasStream && OneCurrent(c.outstanding, c.generation, c.delivered)
          && |c.accepted| == |c.answers| + 1 && c.handler == c.accepted[|c.answers|])
    && (c.state == Idle ==>
          && !c.hasStream && NoneCurrent(c.outstanding, c.generation)
          && c.handler == None && |c.accepted| == |c.answers|)
  }

  lemma StartsOne(outstanding: multiset<Op>, g: nat, n: nat)
    requires n < 5 && NoneCurrent(outstanding, g)
    ensures OneCurrent(outstanding + multiset{Op(g, StageAt(n))}, g, n)
  {
    assert Op(g, StageAt(n)) !in outstanding;
  }

  lemma TakesOne(c: Client, op: Op)
    requires Inv(c) && op in c.outstanding && op.generation == c.generation
    ensures c.state == InProgress && c.delivered < 5 && op == Op(c.generation, StageAt(c.delivered))
    ensures NoneCurrent(Take(c, op).outstanding, c.generation)
  {
  }

  lemma RequestKeeps(c: Client, handler: Handler)
    requires Inv(c)
    ensures Inv(DoRequest(c, handler))
  {
    if c.state == Idle {
      StartsOne(c.outstanding, c.generation + 1, 0);
    }
  }

  lemma CancelKeeps(c: Client)
    requires Inv(c)
    ensures Inv(DoCancel(c)) && (c.state == Idle ==> DoCancel(c) == c)
    ensures c.state == InProgress ==>
              DoCancel(c).answers == c.answers + [Answer(c.accepted[|c.answers|], Cancelled, Idle)]
  {
  }

  // A completion of another request than the current one changes nothing.
  lemma StaleCompletionIsInert(c: Client, op: Op, ok: bool, setup: bool)
    requires Inv(c) && op in c.outstanding && op.generation != c.generation
    ensures Step(c, Complete(op, ok, setup)) == Take(c, op)
    ensures Inv(Take(c, op))
  {
  }

  // A completion of the current one answers it, or starts the next stage.
  lemma CurrentCompletionCounts(c: Client, op: Op, ok: bool, setup: bool)
    requires Inv(c) && op in c.outstanding && op.generation == c.generation
    ensures var d := Step(c, Complete(op, ok, setup));
            && Inv(d) && d.generation == c.generation && d.accepted == c.accepted
            && d.delivered == c.delivered + 1 <= 5
            && (d.state == Idle <==> !ok || c.delivered == 4 || (c.delivered == 1 && !setup))
            && (d.state == InProgress ==> d.answers == c.answers)
            && (d.state == Idle ==>
                  d.answers == c.answers
                    + [Answer(c.accepted[|c.answers|], if c.delivered == 4 && ok then Response else Failed, Idle)])
  {
    hide NoneCurrent, OneCurrent;
    TakesOne(c, op);
    if c.delivered + 1 < 5 {
      StartsOne(Take(c, op).outstanding, c.generation, c.delivered + 1);
    }
  }

  // Nothing is taken back.
  ghost predicate Extends(c: Client, d: Client) {
    c.accepted <= d.accepted && c.answers <= d.answers && c.generation <= d.generation
  }

  lemma StepKeeps(c: Client, e: Event)
    requires Inv(c) && Possible(c, e)
    ensures Inv(Step(c, e)) && Extends(c, Step(c, e))
  {
    match e
    case Request(handler) => RequestKeeps(c, handler);
    case Cancel => CancelKeeps(c);
    case Complete(op, ok, setup) =>
      if op.generation == c.generation {
        CurrentCompletionCounts(c, op, ok, setup);
      } else {
        StaleCompletionIsInert(c, op, ok, setup);
      }
  }

  lemma {:induction false} RunKeeps(c: Client, es: seq<Event>, d: Client)
    requires Inv(c) && Executes(c, es, d)
    ensures Inv(d) && Extends(c, d)
    decreases |es|
  {
    if es != [] {
      StepKeeps(c, es[0]);
      RunKeeps(Step(c, es[0]), es[1..], d);
    }
  }

  // On every run, every accepted request but the one in progress has been answered exactly once, in
  // order, and each answer went to the handler of that request. A request in progress has one
  // operation in flight.
  lemma ExactlyOnce(es: seq<Event>, d: Client, i: nat)
    requires Executes(FRESH, es, d) && i < |d.accepted|
    ensures i < |d.answers| ==> d.answers[i].handler == d.accepted[i] && d.answers[i].at == Idle
    ensures i >= |d.answers| ==>
              && d.state == InProgress && i == |d.answers| == |d.accepted| - 1 && d.handler == d.accepted[i]
              && d.hasStream && OneCurrent(d.outstanding, d.generation, d.delivered)
    ensures |d.answers| <= |d.accepted|
  {
    RunKeeps(FRESH, es, d);
  }

  predicate IsRefused(c: Client, e: Event) {
    e.Request? && c.state != Idle
  }

  // The handlers of all requests made.
  function Requests(es: seq<Event>): multiset<Handler> {
    if es == [] then multiset{} else
      (if es[0].Request? then multiset{es[0].handler} else multiset{}) + Requests(es[1..])
  }

  lemma StepAcceptsOrRefuses(c: Client, e: Event)
    ensures var d := Step(c, e);
            && d.accepted == c.accepted + (if e.Request? && !IsRefused(c, e) then [e.handler] else [])
            && d.refused == c.refused + (if IsRefused(c, e) then [e.handler] else [])
  {
  }

  // Every request made on a run has been accepted, or refused and reported as such.
  lemma {:induction false} NoRequestIsLost(c: Client, es: seq<Event>, d: Client)
    requires Executes(c, es, d)
    ensures multiset(d.accepted) + multiset(d.refused) ==
              multiset(c.accepted) + multiset(c.refused) + Requests(es)
    decreases |es|
  {
    hide Step;
    if es != [] {
      StepAcceptsOrRefuses(c, es[0]);
      NoRequestIsLost(Step(c, es[0]), es[1..], d);
    }
  }

  // The same events without the requests that are refused.
  function WithoutRefused(c: Client, es: seq<Event>): seq<Event>
    decreases |es|
  {
    if es == [] then [] else
      (if IsRefused(c, es[0]) then [] else [es[0]]) + WithoutRefused(Step(c, es[0]), es[1..])
  }

  lemma RefusedDoNotMatter(c: Client, e: Event, refused: seq<Handler>)
    ensures Possible(c, e) ==> Possible(c.(refused := refused), e)
    ensures Step(c, e).(refused := refused) ==
              if IsRefused(c, e) then c.(refused := refused) else Step(c.(refused := refused), e)
  {
    if e.Complete? {
      HandlingIgnoresRefused(Take(c, e.op), e.op, e.ok, e.setup, refused);
    }
  }

  lemma HandlingIgnoresRefused(c: Client, op: Op, ok: bool, setup: bool, refused: seq<Handler>)
    ensures Handle(c, op, ok, setup).(refused := refused) == Handle(c.(refused := refused), op, ok, setup)
  {
    match op.stage
    case Resolve =>
    case Connect =>
    case Handshake =>
    case Write =>
    case Read =>
  }

  // A refused request disturbs nothing: without it everything else happens in the same way.
  lemma {:induction false} RefusalsDisturbNothing(c: Client, es: seq<Event>, d: Client, refused: seq<Handler>)
    requires Executes(c, es, d)
    ensures Executes(c.(refused := refused), WithoutRefused(c, es), d.(refused := refused))
    decreases |es|
  {
    hide Step, Possible;
    if es != [] {
      RefusedDoNotMatter(c, es[0], refused);
      RefusalsDisturbNothing(Step(c, es[0]), es[1..], d, refused);
      var rest := WithoutRefused(Step(c, es[0]), es[1..]);
      if IsRefused(c, es[0]) {
        assert WithoutRefused(c, es) == rest;
      } else {
        assert WithoutRefused(c, es) == [es[0]] + rest && ([es[0]] + rest)[1..] == rest;
      }
    }
  }

  predicate IsCompletionOf(e: Event, generation: nat) {
    e.Complete? && e.op.generation == generation
  }

  // Completions in `es` that carry `generation`.
  function Completions(es: seq<Event>, generation: nat): nat {
    if es == [] then 0 else (if IsCompletionOf(es[0], generation) then 1 else 0) + Completions(es[1..], generation)
  }

  // A step answers the request in progress, or counts towards its answer.
  lemma AnsweredOrCounted(c: Client, e: Event)
    requires Inv(c) && c.state == InProgress && Possible(c, e)
    ensures var d := Step(c, e);
            || |d.answers| > |c.answers|
            || (d.state == InProgress && d.generation == c.generation && |d.answers| == |c.answers|
                && d.delivered == c.delivered + (if IsCompletionOf(e, c.generation) then 1 else 0) < 5)
  {
    if e.Complete? {
      if e.op.generation == c.generation {
        CurrentCompletionCounts(c, e.op, e.ok, e.setup);
      } else {
        StaleCompletionIsInert(c, e.op, e.ok, e.setup);
      }
    }
  }

  // A request is answered within five of its completions, whatever happens besides.
  lemma {:induction false} AnsweredWithinFive(c: Client, es: seq<Event>, d: Client)
    requires Inv(c) && c.state == InProgress && Executes(c, es, d)
    requires c.delivered + Completions(es, c.generation) >= 5
    ensures |d.answers| > |c.answers|
    decreases |es|
  {
    var c' := Step(c, es[0]);
    StepKeeps(c, es[0]);
    RunKeeps(c', es[1..], d);
    AnsweredOrCounted(c, es[0]);
    if |c'.answers| == |c.answers| {
      AnsweredWithinFive(c', es[1..], d);
    }
  }

  // After a cancel the request has been answered, and no completion of it does anything any more,
  // whatever requests have come since.
  lemma CancelledIsInert(c: Client, es: seq<Event>, d: Client, op: Op, ok: bool, setup: bool)
    requires Inv(c) && c.state == InProgress && Executes(DoCancel(c), es, d)
    requires op.generation <= c.generation && op in d.outstanding
    ensures Step(d, Complete(op, ok, setup)) == Take(d, op)
    ensures |DoCancel(c).answers| == |c.accepted|
  {
    CancelKeeps(c);
    RunKeeps(DoCancel(c), es, d);
    StaleCompletionIsInert(d, op, ok, setup);
  }
}
