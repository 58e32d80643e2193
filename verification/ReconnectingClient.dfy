/**
 The fields and methods of `ReconnectingSecureWebSocketClient`, and of its base class as far as opening
 and losing a connection goes, each a step of the client in `Reconnect`.
 */
module ReconnectingClient {
  import opened Reconnect

  class ReconnectingSecureWebSocketClient {
    var reconnectState: State
    // state of the base class
    var baseState: BaseState
    var connectionGeneration: nat
    var initialReconnectDelay: int
    var maxReconnectDelay: int
    var currentReconnectDelay: int
    var hasPrepareConnection: bool
    var hasConnectHandler: bool
    // environment
    var pending: multiset<Callback>
    ghost var hist: History

    ghost function View(): Client
      reads this
    {
      Client(reconnectState, baseState, connectionGeneration, initialReconnectDelay, maxReconnectDelay,
             currentReconnectDelay, hasPrepareConnection, hasConnectHandler, pending, hist)
    }

    constructor ()
      ensures View() == FRESH
    {
      reconnectState, baseState, connectionGeneration := Idle, Down, 0;
      initialReconnectDelay, maxReconnectDelay, currentReconnectDelay := SECOND, 60 * SECOND, SECOND;
      hasPrepareConnection, hasConnectHandler := false, false;
      pending := multiset{};
      hist := FRESH.hist;
    }

    method Connect(prepare: bool, handler: bool)
      modifies this
      ensures View() == Step(old(View()), Event.Connect(prepare, handler))
    {
      if reconnectState != Idle {
        // the handler of this call, if any: already_connected
        hist := hist.(refused := hist.refused + [handler]);
        return;
      }
      hasPrepareConnection := prepare;
      hasConnectHandler := handler;
      currentReconnectDelay := Min(initialReconnectDelay, maxReconnectDelay);
      hist := hist.(session := hist.session + 1, delays := [], restarted := false,
                    log := hist.log + [Begun(prepare, handler)]);
      assert View() == NewSession(old(View()), prepare, handler);
      StartConnectAttempt();
    }

    // close(): stop_reconnecting, then do_close of the base class
    method Close()
      modifies this
      ensures View() == Step(old(View()), Event.Close)
    {
      StopReconnecting();
      baseState := Down;
    }

    method StopReconnecting()
      modifies this
      ensures View() == Stop(old(View()))
    {
      connectionGeneration := connectionGeneration + 1;
      reconnectState := Idle;
      hasConnectHandler := false;
      hasPrepareConnection := false;
      currentReconnectDelay := initialReconnectDelay;
      hist := hist.(log := hist.log + [Closed]);
    }

    method SetInitialReconnectDelay(delay: int)
      modifies this
      ensures View() == Step(old(View()), SetInitial(delay))
    {
      initialReconnectDelay := delay;
      if reconnectState == Idle {
        currentReconnectDelay := delay;
      }
    }

    method SetMaxReconnectDelay(delay: int)
      modifies this
      ensures View() == Step(old(View()), SetMax(delay))
    {
      maxReconnectDelay := delay;
      if delay < currentReconnectDelay {
        currentReconnectDelay := delay;
      }
    }

    method StartConnectAttempt()
      modifies this
      ensures View() == StartAttempt(old(View()))
    {
      ghost var was := View();
      reconnectState := Connecting;
      connectionGeneration := connectionGeneration + 1;
      hist := hist.(log := hist.log + [Asked(hasPrepareConnection)]);
      assert View() == Note(was.(state := Connecting, generation := was.generation + 1), Asked(was.hasPrepare));
      if hasPrepareConnection {
        hist := hist.(calls := hist.calls + [PrepareConnection(hist.session)]);
        pending := pending + multiset{Ready(connectionGeneration)};
      }
    }

    method HandleConnectionReady(generation: nat)
      requires Ready(generation) in pending
      modifies this
      ensures View() == Step(old(View()), ConnectionReady(generation))
    {
      pending := pending - multiset{Ready(generation)};
      assert View() == Take(old(View()), Ready(generation));
      if generation != connectionGeneration || reconnectState != Connecting {
        return;
      }
      DoConnect(generation);
    }

    // do_connect of the base class, with the connect result handler of attempt `generation`
    method DoConnect(generation: nat)
      modifies this
      ensures View() == OpenConnection(old(View()), generation)
    {
      if baseState != Down {
        HandleConnectResult(generation, false);
        return;
      }
      baseState := Opening;
      pending := pending + multiset{Completion(generation, Resolve)};
    }

    // handle_resolve, handle_connect and handle_ssl_handshake of the base class
    method HandleConnectStage(generation: nat, stage: Stage, ok: bool)
      requires Completion(generation, stage) in pending && stage != WebsocketHandshake
      modifies this
      ensures View() == Step(old(View()), ConnectCompletes(generation, stage, ok))
    {
      pending := pending - multiset{Completion(generation, stage)};
      assert View() == Take(old(View()), Completion(generation, stage));
      if baseState != Opening {
        return;
      }
      NoteCompletion(generation, stage, ok);
      if !ok {
        FailConnection(generation);
        return;
      }
      pending := pending + multiset{Completion(generation, NextStage(stage))};
    }

    // handle_websocket_handshake of the base class
    method HandleWebsocketHandshake(generation: nat, ok: bool)
      requires Completion(generation, WebsocketHandshake) in pending
      modifies this
      ensures View() == Step(old(View()), ConnectCompletes(generation, WebsocketHandshake, ok))
    {
      pending := pending - multiset{Completion(generation, WebsocketHandshake)};
      assert View() == Take(old(View()), Completion(generation, WebsocketHandshake));
      if baseState != Opening {
        return;
      }
      NoteCompletion(generation, WebsocketHandshake, ok);
      if !ok {
        FailConnection(generation);
        return;
      }
      baseState := Up;
      HandleConnectResult(generation, true);
    }

    ghost method NoteCompletion(generation: nat, stage: Stage, ok: bool)
      modifies `hist
      ensures View() ==
                if generation == connectionGeneration then Note(old(View()), Completed(stage, ok)) else old(View())
    {
      if generation == connectionGeneration {
        hist := hist.(log := hist.log + [Completed(stage, ok)]);
      }
    }

    // fail_connection of the base class
    method FailConnection(generation: nat)
      modifies this
      ensures View() == HandleResult(old(View()).(base := Down), generation, false)
    {
      baseState := Down;
      HandleConnectResult(generation, false);
    }

    method HandleConnectResult(generation: nat, ok: bool)
      modifies this
      ensures View() == HandleResult(old(View()), generation, ok)
    {
      if generation != connectionGeneration || reconnectState != Connecting {
        return;
      }
      if !ok {
        CallConnectHandler(false);
        ScheduleReconnect();
        return;
      }
      currentReconnectDelay := initialReconnectDelay;
      reconnectState := Connected;
      hist := hist.(delays := [], restarted := true);
      CallConnectHandler(true);
    }

    method CallConnectHandler(ok: bool)
      modifies `hist
      ensures View() == CallHandler(old(View()), ok)
    {
      hist := hist.(log := hist.log + [Reported(ok, hasConnectHandler, reconnectState)]);
      if hasConnectHandler {
        hist := hist.(calls := hist.calls + [ConnectHandler(hist.session, ok)]);
      }
    }

    method ScheduleReconnect()
      modifies this
      ensures View() == Schedule(old(View()))
    {
      if reconnectState == Idle {
        return;
      }
      reconnectState := WaitingReconnect;
      var delay := currentReconnectDelay;
      currentReconnectDelay := Min(currentReconnectDelay * 2, maxReconnectDelay);
      hist := hist.(delays := hist.delays + [delay], log := hist.log + [Scheduled(delay)]);
      pending := pending + multiset{Timer(connectionGeneration)};
    }

    method HandleReconnectTimer(generation: nat, ok: bool)
      requires Timer(generation) in pending
      modifies this
      ensures View() == Step(old(View()), TimerFired(generation, ok))
    {
      hide StartAttempt;
      pending := pending - multiset{Timer(generation)};
      assert View() == Take(old(View()), Timer(generation));
      if !ok || generation != connectionGeneration || reconnectState != WaitingReconnect {
        return;
      }
      hist := hist.(log := hist.log + [Fired]);
      assert View() == Note(Take(old(View()), Timer(generation)), Fired);
      StartConnectAttempt();
    }

    // handle_unexpected_disconnect of the base class
    method HandleUnexpectedDisconnect()
      modifies this
      ensures View() == Step(old(View()), ConnectionLost)
    {
      if baseState != Up {
        return;
      }
      baseState := Down;
      OnUnexpectedDisconnect();
    }

    method OnUnexpectedDisconnect()
      modifies this
      ensures View() ==
                if old(reconnectState) == Connected then Schedule(Note(old(View()), Lost)) else old(View())
    {
      var shouldReconnect := reconnectState == Connected;
      // the disconnect handler of the user
      if shouldReconnect {
        hist := hist.(log := hist.log + [Lost]);
        ScheduleReconnect();
      }
    }
  }
}
