/** The fields and methods of `HttpsClientAsync`, each a step of the client in `HttpsRequests`. */
module HttpsClientAsync {
  import opened HttpsRequests
  import opened Options

  class HttpsClientAsync {
    var state: RequestState
    var requestGeneration: nat
    var hasStream: bool
    var responseHandler: Handler
    // environment
    var outstanding: multiset<Op>
    ghost var accepted: seq<Handler>
    ghost var answers: seq<Answer>
    ghost var refused: seq<Handler>
    ghost var delivered: nat

    ghost function View(): Client
      reads this
    {
      Client(state, requestGeneration, hasStream, responseHandler, outstanding, accepted, answers, refused, delivered)
    }

    constructor ()
      ensures View() == FRESH
    {
      state, requestGeneration, hasStream, responseHandler := Idle, 0, false, None;
      outstanding := multiset{};
      accepted, answers, refused, delivered := [], [], [], 0;
    }

    method DoRequest(handler: Handler)
      modifies this
      ensures View() == Step(old(View()), Request(handler))
    {
      if state != Idle {
        refused := refused + [handler];
        return;
      }
      state := InProgress;
      requestGeneration := requestGeneration + 1;
      responseHandler := handler;
      hasStream := true;
      accepted, delivered := accepted + [handler], 0;
      assert View() == Accept(old(View()), handler);
      StartOperation(Resolve);
    }

    // Starting an asynchronous operation with the current generation in its handler.
    method StartOperation(stage: Stage)
      modifies `outstanding
      ensures View() == Start(old(View()), stage)
    {
      outstanding := outstanding + multiset{Op(requestGeneration, stage)};
    }

    method DoCancel()
      modifies this
      ensures View() == Step(old(View()), Cancel)
    {
      if state == Idle || state == Cancelling {
        return;
      }
      state := Cancelling;
      requestGeneration := requestGeneration + 1;
      hasStream := false;
      CompleteRequest(Cancelled);
    }

    method FailRequest()
      modifies this
      ensures View() == Fail(old(View()))
    {
      hasStream := false;
      CompleteRequest(Failed);
    }

    method CompleteRequest(outcome: Outcome)
      modifies this
      ensures View() == Finish(old(View()), outcome)
    {
      var handler := responseHandler;
      responseHandler := None;
      state := Idle;
      // the response handler, if any
      answers := answers + [Answer(handler, outcome, state)];
    }

    // The first lines of the five handlers: the checks, and an error.
    method Deliver(op: Op, ok: bool) returns (goOn: bool)
      requires op in outstanding
      modifies this
      ensures goOn <==> IsCurrent(old(View()), op.generation) && ok
      ensures goOn ==> View() == Take(old(View()), op).(delivered := old(delivered) + 1)
      ensures !goOn ==> View() == Step(old(View()), Complete(op, ok, true))
    {
      outstanding := outstanding - multiset{op};
      if state != InProgress || op.generation != requestGeneration || !hasStream {
        return false;
      }
      delivered := delivered + 1;
      if !ok {
        FailRequest();
        return false;
      }
      return true;
    }

    method HandleResolve(generation: nat, ok: bool)
      requires Op(generation, Resolve) in outstanding
      modifies this
      ensures View() == Step(old(View()), Complete(Op(generation, Resolve), ok, true))
    {
      var goOn := Deliver(Op(generation, Resolve), ok);
      if goOn {
        StartOperation(Stage.Connect);
      }
    }

    // `setup`: SSL_set_tlsext_host_name and set_verify_callback succeed
    method HandleConnect(generation: nat, ok: bool, setup: bool)
      requires Op(generation, Connect) in outstanding
      modifies this
      ensures View() == Step(old(View()), Complete(Op(generation, Connect), ok, setup))
    {
      var goOn := Deliver(Op(generation, Connect), ok);
      if goOn {
        if !setup {
          FailRequest();
          return;
        }
        StartOperation(Handshake);
      }
    }

    method HandleSslHandshake(generation: nat, ok: bool)
      requires Op(generation, Handshake) in outstanding
      modifies this
      ensures View() == Step(old(View()), Complete(Op(generation, Handshake), ok, true))
    {
      var goOn := Deliver(Op(generation, Handshake), ok);
      if goOn {
        StartOperation(Write);
      }
    }

    method HandleWrite(generation: nat, ok: bool)
      requires Op(generation, Write) in outstanding
      modifies this
      ensures View() == Step(old(View()), Complete(Op(generation, Write), ok, true))
    {
      var goOn := Deliver(Op(generation, Write), ok);
      if goOn {
        StartOperation(Read);
      }
    }

    method HandleRead(generation: nat, ok: bool)
      requires Op(generation, Read) in outstanding
      modifies this
      ensures View() == Step(old(View()), Complete(Op(generation, Read), ok, true))
    {
      var goOn := Deliver(Op(generation, Read), ok);
      if goOn {
        hasStream := false;
        CompleteRequest(Response);
      }
    }
  }
}
