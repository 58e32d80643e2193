/**
 The write side of `SecureWebSocketClient`: a ring of write slots, one stream operation at a time,
 and a generation that tells the completions of earlier connections apart.

 A callback of the user may call write_now any number of times, and nothing else of the client that
 runs at once; `Callback` does just that. The streams are the environment: they complete each
 operation they hold at most once, in any order and with any code.
 */
module WritePipeline {
  import opened FixedRingBuffer
  import opened Options
  import opened Powers
  import opened WriteBooks

  const WRITE_SLOT_COUNT: nat := 2048

  lemma CapacityIsPow2()
    ensures HasSingleBit(WRITE_SLOT_COUNT)
  {
    assert Pow2(5) == 32;
    assert Pow2(11) == 2048;
  }

  // Operations in flight: at most one of each generation, none of a later one, and of the current
  // one only the write in progress.
  ghost predicate Guarded(outstanding: multiset<nat>, generation: nat, inProgress: bool) {
    && (forall g :: g in outstanding ==> g <= generation && outstanding[g] == 1)
    && outstanding[generation] == if inProgress then 1 else 0
  }

  // No slot that is not queued keeps a callback alive.
  ghost predicate NoHandlers(free: seq<WriteSlot>) {
    forall i :: 0 <= i < |free| ==> free[i].handler.None?
  }

  class SecureWebSocketClient {
    var state: ConnectionState
    var hasStream: bool
    const writeSlots: FixedRingBuffer<WriteSlot>
    var writeGeneration: nat
    var writeInProgress: bool
    // Environment: the stream operations started and not completed yet, by the generation that their
    // completions carry.
    var outstanding: multiset<nat>
    ghost var books: Books

    // The queue and its slots.
    ghost predicate Slots()
      reads writeSlots, writeSlots.buffer
    {
      && writeSlots.Valid() && writeSlots.buffer.Length == WRITE_SLOT_COUNT
      && AllInBounds(writeSlots.Contents) && NoHandlers(writeSlots.Free)
    }

    // The writes queued.
    ghost function Queue(): (ws: seq<Write>)
      requires AllInBounds(writeSlots.Contents)
      reads writeSlots
      ensures |ws| == |writeSlots.Contents|
    {
      Queued(writeSlots.Contents)
    }

    // The state of the connection agrees with the operations in flight and what the stream was given.
    ghost predicate Consistent()
      requires AllInBounds(writeSlots.Contents)
      reads this, writeSlots
    {
      && Archived(books.archive)
      && Guarded(outstanding, writeGeneration, writeInProgress)
      && (state == Connecting || state == Connected ==> hasStream)
      && (state == Disconnected || state == Connecting ==> writeSlots.Contents == [])
      && (state == Connecting ==> books.current == Transcript([], []))
      && (writeInProgress ==> state == Connected)
      && (state == Connected ==> InOrder(books.current, Queue(), writeInProgress))
    }

    // Holds whenever user code can run.
    ghost predicate Valid()
      reads this, writeSlots, writeSlots.buffer
    {
      Slots() && Conserved(books, Queue()) && Consistent()
    }

    // Nothing waits for a stream that is free.
    ghost predicate Flowing()
      reads this, writeSlots
    {
      state == Connected && !writeInProgress ==> writeSlots.Contents == []
    }

    // Holds between two events of the executor.
    ghost predicate AtRest()
      reads this, writeSlots, writeSlots.buffer
    {
      Valid() && Flowing() && state != Closing
    }

    // Between two events: conservation, order, and one write in flight.
    lemma Promises()
      requires AtRest()
      ensures |books.accepted| == |books.settled| + |writeSlots.Contents|
      ensures state != Connected ==> |books.settled| == |books.accepted| && outstanding[writeGeneration] == 0
      ensures state == Connected ==>
                && books.current.handed <= books.current.accepted
                && |books.current.handed| + |writeSlots.Contents| ==
                     |books.current.accepted| + outstanding[writeGeneration]
                && (outstanding[writeGeneration] == 0 ==> writeSlots.Contents == [])
      ensures forall g :: outstanding[g] <= 1
      ensures forall t :: t in books.archive ==> t.handed <= t.accepted
    {
      assert forall g :: outstanding[g] > 0 ==> g in outstanding;
    }

    constructor ()
      ensures AtRest() && state == Disconnected && books == Books([], [], [], [], [], Transcript([], []), [])
      ensures outstanding == multiset{}
      ensures fresh(writeSlots) && fresh(writeSlots.buffer)
    {
      CapacityIsPow2();
      state, hasStream, writeGeneration, writeInProgress := Disconnected, false, 0, false;
      var noBytes: SlotData := seq(WRITE_SLOT_SIZE, _ => 0);
      writeSlots := new FixedRingBuffer<WriteSlot>(WRITE_SLOT_COUNT, WriteSlot(Message, noBytes, 0, None));
      outstanding := multiset{};
      books := Books([], [], [], [], [], Transcript([], []), []);
    }

    // start_write
    method StartWrite()
      requires Valid() && state != Closing
      modifies `writeInProgress, `outstanding, `books
      ensures Valid() && Flowing()
      ensures books == old(books) || (Queue() != [] && books == HandOver(old(books), Queue()[0].frame))
      ensures state != Connected ==> unchanged(this)
    {
      var empty := writeSlots.IsEmpty();
      if writeInProgress || empty || !hasStream {
        return;
      }
      writeInProgress := true;
      var slot := writeSlots.GetFront();
      HandOverKeeps(books, Queue());
      books := HandOver(books, slot.GetFrame());
      outstanding := outstanding + multiset{writeGeneration};
    }

    // What queue_write answers to a message of `size` bytes.
    ghost function QueueCode(size: nat): (code: Code)
      requires Slots()
      reads this, writeSlots, writeSlots.buffer
      // accepted exactly by a connected client with room for it in a slot and for one more in the queue
      ensures code == Success <==>
                state == Connected && size <= WRITE_SLOT_SIZE && |writeSlots.Contents| < WRITE_SLOT_COUNT
      // each refusal has its own reason
      ensures code == NotConnected <==> state != Connected
      ensures code == MessageSize <==> state == Connected && size > WRITE_SLOT_SIZE
      ensures code == NoBufferSpace <==>
                state == Connected && size <= WRITE_SLOT_SIZE && |writeSlots.Contents| == WRITE_SLOT_COUNT
    {
      if state != Connected then NotConnected
      else if size > WRITE_SLOT_SIZE then MessageSize
      else if |writeSlots.Contents| == WRITE_SLOT_COUNT then NoBufferSpace
      else Success
    }

    // queue_write
    method QueueWrite(kind: WriteType, message: seq<byte>, handler: Handler) returns (code: Code)
      requires Valid()
      modifies `writeInProgress, `outstanding, `books
      modifies writeSlots`tail, writeSlots`Contents, writeSlots`Free, writeSlots.buffer
      ensures Valid() && (old(Flowing()) || code == Success ==> Flowing())
      ensures code == old(QueueCode(|message|))
      ensures code == Success <==>
                state == Connected && |message| <= WRITE_SLOT_SIZE && |old(writeSlots.Contents)| < WRITE_SLOT_COUNT
      ensures code == NotConnected <==> state != Connected
      ensures code == MessageSize <==> state == Connected && |message| > WRITE_SLOT_SIZE
      ensures code == NoBufferSpace <==>
                state == Connected && |message| <= WRITE_SLOT_SIZE
                && |old(writeSlots.Contents)| == WRITE_SLOT_COUNT
      ensures Grown(old(books), books)
      ensures books.accepted ==
                old(books).accepted + if code == Success then [Write(Frame(kind, message), handler)] else []
      ensures |writeSlots.Contents| == |old(writeSlots.Contents)| + if code == Success then 1 else 0
      ensures code != Success ==> unchanged(this) && unchanged(writeSlots) && unchanged(writeSlots.buffer)
    {
      if state != Connected || !hasStream {
        return NotConnected;
      }
      if |message| > WRITE_SLOT_SIZE {
        return MessageSize;
      }
      var full := writeSlots.IsFull();
      if full {
        return NoBufferSpace;
      }
      FillSlot(kind, message, handler);
      StartWrite();
      return Success;
    }

    // queue_write: copying the message into the back slot and queueing it
    method FillSlot(kind: WriteType, message: seq<byte>, handler: Handler)
      requires Valid() && state == Connected
      requires |message| <= WRITE_SLOT_SIZE && |writeSlots.Contents| < WRITE_SLOT_COUNT
      modifies `books
      modifies writeSlots`tail, writeSlots`Contents, writeSlots`Free, writeSlots.buffer
      ensures Valid() && |writeSlots.Contents| == |old(writeSlots.Contents)| + 1
      ensures books.accepted == old(books).accepted + [Write(Frame(kind, message), handler)]
      ensures Grown(old(books), books)
    {
      var back := writeSlots.GetBackSlot();
      var slot := Filled(back, kind, message, handler);
      writeSlots.FillBackSlot(slot);
      writeSlots.PushBackSlot();
      QueuedPush(old(writeSlots.Contents), slot);
      AcceptKeeps(books, old(Queue()), WriteOf(slot), writeInProgress);
      books := Accept(books, WriteOf(slot));
    }

    // write_now, called on the executor thread or on another one
    method WriteNow(message: seq<byte>, onExecutorThread: bool) returns (code: Code)
      requires Valid()
      modifies `writeInProgress, `outstanding, `books
      modifies writeSlots`tail, writeSlots`Contents, writeSlots`Free, writeSlots.buffer
      ensures Valid() && (old(Flowing()) ==> Flowing())
      ensures Grown(old(books), books)
      ensures code == if onExecutorThread then old(QueueCode(|message|)) else NotPermitted
      ensures code != Success ==> unchanged(this) && unchanged(writeSlots) && unchanged(writeSlots.buffer)
      ensures books.accepted ==
                old(books).accepted + if code == Success then [Write(Frame(Message, message), None)] else []
      ensures |writeSlots.Contents| == |old(writeSlots.Contents)| + if code == Success then 1 else 0
    {
      if !onExecutorThread {
        return NotPermitted;
      }
      code := QueueWrite(Message, message, None);
    }

    // A callback of a connected client may write as long as there is room: with an empty queue the first
    // 2048 writes are accepted, and the next is the first to be refused.
    method Burst(messages: seq<seq<byte>>) returns (codes: seq<Code>)
      requires Valid() && state == Connected
      requires forall i :: 0 <= i < |messages| ==> |messages[i]| <= WRITE_SLOT_SIZE
      modifies `writeInProgress, `outstanding, `books
      modifies writeSlots`tail, writeSlots`Contents, writeSlots`Free, writeSlots.buffer
      ensures Valid() && Grown(old(books), books) && |codes| == |messages|
      ensures forall i :: 0 <= i < |messages| ==>
                codes[i] == if |old(writeSlots.Contents)| + i < WRITE_SLOT_COUNT then Success else NoBufferSpace
    {
      codes := [];
      for n := 0 to |messages|
        invariant Valid() && Grown(old(books), books) && |codes| == n
        invariant |writeSlots.Contents| == |old(writeSlots.Contents)| + n
                  || (|writeSlots.Contents| == WRITE_SLOT_COUNT <= |old(writeSlots.Contents)| + n)
        invariant forall i :: 0 <= i < n ==>
                    codes[i] == if |old(writeSlots.Contents)| + i < WRITE_SLOT_COUNT then Success else NoBufferSpace
      {
        var code := WriteNow(messages[n], true);
        codes := codes + [code];
      }
    }

    // Any callback of the user.
    method Callback()
      requires Valid()
      modifies `writeInProgress, `outstanding, `books
      modifies writeSlots`tail, writeSlots`Contents, writeSlots`Free, writeSlots.buffer
      ensures Valid() && (old(Flowing()) ==> Flowing())
      ensures Grown(old(books), books)
      ensures state != Connected ==> unchanged(this) && unchanged(writeSlots) && unchanged(writeSlots.buffer)
    {
      var calls: nat := *;
      while calls > 0
        invariant Valid() && (old(Flowing()) ==> Flowing())
        invariant Grown(old(books), books)
        invariant state != Connected ==> unchanged(this) && unchanged(writeSlots) && unchanged(writeSlots.buffer)
      {
        var message: seq<byte> := *;
        var code := WriteNow(message, true);
        calls := calls - 1;
      }
    }

    // Calling the handler of the write settled last.
    method CallHandler(handler: Handler, code: Code)
      requires Slots() && OwesCall(books, Queue(), handler, code, state) && Consistent()
      modifies `writeInProgress, `outstanding, `books
      modifies writeSlots`tail, writeSlots`Contents, writeSlots`Free, writeSlots.buffer
      ensures Valid() && Grown(CallLast(old(books)), books)
      ensures state != Connected ==>
                && books == CallLast(old(books)) && unchanged(`writeInProgress) && unchanged(`outstanding)
                && unchanged(writeSlots) && unchanged(writeSlots.buffer)
    {
      hide Conserved, InOrder, Archived, Guarded, NoHandlers;
      CallKeeps(books, Queue(), handler, code, state);
      if handler.Some? {
        books := books.(calls := books.calls + [Call(|books.settled| - 1, code, state)]);
        Callback();
      }
    }

    // Calling another function of the user, if there is one.
    method Notify(occasion: Occasion)
      requires Valid()
      modifies `writeInProgress, `outstanding, `books
      modifies writeSlots`tail, writeSlots`Contents, writeSlots`Free, writeSlots.buffer
      ensures Valid() && (old(Flowing()) ==> Flowing())
      ensures Grown(Noticed(old(books), occasion, state), books)
      ensures state != Connected ==>
                && books == Noticed(old(books), occasion, state)
                && unchanged(`writeInProgress) && unchanged(`outstanding)
                && unchanged(writeSlots) && unchanged(writeSlots.buffer)
    {
      hide InOrder, Archived, Guarded, NoHandlers;
      books := Noticed(books, occasion, state);
      Callback();
    }

    // Taking the handler out of the front slot and releasing the slot.
    method TakeFront() returns (slot: WriteSlot)
      requires Slots() && writeSlots.Contents != []
      modifies writeSlots`head, writeSlots`popped, writeSlots`Contents, writeSlots`Free, writeSlots.buffer
      ensures Slots() && writeSlots.Contents == old(writeSlots.Contents)[1..] && slot == old(writeSlots.Contents)[0]
    {
      slot := writeSlots.GetFront();
      // the slot is reused, so it must not keep the callback alive
      writeSlots.SetFront(slot.(handler := None));
      writeSlots.PopFront();
      assert writeSlots.Contents == old(writeSlots.Contents)[1..];
    }

    // The same, with the entry in the books.
    method ReleaseFront(ghost code: Code) returns (handler: Handler)
      requires Slots() && Conserved(books, Queue()) && writeSlots.Contents != []
      modifies `books
      modifies writeSlots`head, writeSlots`popped, writeSlots`Contents, writeSlots`Free, writeSlots.buffer
      ensures Slots() && |writeSlots.Contents| == |old(writeSlots.Contents)| - 1 && Queue() == old(Queue())[1..]
      ensures books == Settle(old(books), old(Queue())[0], code, state)
      ensures OwesCall(books, Queue(), handler, code, state)
    {
      hide Conserved, OwesCall;
      QueuedPop(writeSlots.Contents);
      SettleKeeps(books, Queue(), code, state);
      var slot := TakeFront();
      books := Settle(books, WriteOf(slot), code, state);
      handler := slot.handler;
    }

    // fail_pending_writes
    method FailPendingWrites()
      requires Slots() && Conserved(books, Queue()) && Archived(books.archive) && state == Closing
      requires forall g :: g in outstanding ==> g <= writeGeneration && outstanding[g] == 1
      modifies this, writeSlots, writeSlots.buffer
      ensures Valid() && state == Closing && writeSlots.Contents == [] && !writeInProgress
      ensures hasStream == old(hasStream) && outstanding == old(outstanding)
      ensures writeGeneration == old(writeGeneration) + 1
      ensures books == CancelAll(old(books), old(Queue()))
    {
      hide Conserved, OwesCall, InOrder, Archived, NoHandlers, Holds;
      writeGeneration := writeGeneration + 1;
      writeInProgress := false;
      var empty := writeSlots.IsEmpty();
      while !empty
        invariant Valid() && state == Closing && !writeInProgress
        invariant hasStream == old(hasStream) && outstanding == old(outstanding)
        invariant writeGeneration == old(writeGeneration) + 1
        invariant empty <==> writeSlots.Contents == []
        invariant CancelAll(books, Queue()) == CancelAll(old(books), old(Queue()))
        decreases |writeSlots.Contents|
      {
        CancelFront();
        empty := writeSlots.IsEmpty();
      }
    }

    // fail_pending_writes, the body of the loop
    method CancelFront()
      requires Valid() && state == Closing && writeSlots.Contents != []
      modifies `books, `writeInProgress, `outstanding, writeSlots, writeSlots.buffer
      ensures Valid() && unchanged(`writeInProgress) && unchanged(`outstanding)
      ensures |writeSlots.Contents| == |old(writeSlots.Contents)| - 1 && Queue() == old(Queue())[1..]
      ensures books == CallLast(Settle(old(books), old(Queue())[0], OperationCanceled, Closing))
    {
      hide Conserved, OwesCall, InOrder, Archived, Guarded, NoHandlers, Holds;
      var handler := ReleaseFront(OperationCanceled);
      CallHandler(handler, OperationCanceled);
    }

    // do_close; `hasHandler`: a handler has been passed
    method DoClose(hasHandler: bool)
      requires Valid()
      modifies this, writeSlots, writeSlots.buffer
      ensures Valid() && (old(AtRest()) ==> AtRest())
      ensures outstanding == old(outstanding)
      ensures old(state) == Closing || old(state) == Disconnected ==>
                && unchanged(`state) && unchanged(`hasStream) && unchanged(`writeGeneration)
                && unchanged(`writeInProgress) && unchanged(writeSlots) && unchanged(writeSlots.buffer)
                && books == old(books).(notices := old(books).notices + CloseNotices(hasHandler, state))
      ensures old(state) == Connected || old(state) == Connecting ==>
                && state == Disconnected && writeSlots.Contents == [] && !writeInProgress
                && writeGeneration == old(writeGeneration) + 1
                && ClosedOff(old(books), books, CloseNotices(hasHandler, Disconnected))
    {
      if state == Closing || state == Disconnected {
        if hasHandler {
          Notify(CloseDone);
        }
        return;
      }
      CloseConnection();
      if hasHandler {
        Notify(CloseDone);
      }
    }

    // do_close, of a connection that is open or being opened
    method CloseConnection()
      requires Valid() && (state == Connected || state == Connecting)
      modifies this, writeSlots, writeSlots.buffer
      ensures Valid() && state == Disconnected && writeSlots.Contents == []
      ensures outstanding == old(outstanding) && writeGeneration == old(writeGeneration) + 1
      ensures ClosedOff(old(books), books, [])
    {
      hide ClosedOff, Conserved, InOrder, Archived;
      CloseKeeps(books, Queue(), writeInProgress);
      CancelAllCloses(books, Queue());
      state := Closing;
      books := Close(books);
      FailPendingWrites();
      state := Disconnected;
    }

    // handle_unexpected_disconnect
    method HandleUnexpectedDisconnect(code: Code)
      requires Valid() && state != Closing
      modifies this, writeSlots, writeSlots.buffer
      ensures Valid() && outstanding == old(outstanding)
      ensures old(state) != Connected ==> unchanged(this) && unchanged(writeSlots) && unchanged(writeSlots.buffer)
      ensures old(state) == Connected ==>
                && AtRest() && state == Disconnected && writeSlots.Contents == []
                && writeGeneration == old(writeGeneration) + 1
                && ClosedOff(old(books), books, [Notice(Disconnection(code), Disconnected)])
    {
      if state != Connected {
        return;
      }
      DoClose(false);
      Notify(Disconnection(code));
    }

    // handle_write: the stream completes an operation of generation `generation`.
    method HandleWrite(generation: nat, code: Code)
      requires AtRest() && generation in outstanding
      modifies this, writeSlots, writeSlots.buffer
      ensures AtRest()
      // the completion of a write of an earlier connection changes nothing
      ensures generation != old(writeGeneration) || old(state) != Connected ==>
                && outstanding == old(outstanding) - multiset{generation}
                && unchanged(`state) && unchanged(`hasStream) && unchanged(`writeGeneration)
                && unchanged(`writeInProgress) && unchanged(`books)
                && unchanged(writeSlots) && unchanged(writeSlots.buffer)
      // any other settles the front of the queue, which was handed over last, and calls its handler; an
      // error then closes the connection and cancels all the rest
      ensures generation == old(writeGeneration) && old(state) == Connected ==>
                && old(writeInProgress) && old(writeSlots.Contents) != []
                && SettledNext(old(books), books, code)
                && state == (if code == Success then Connected else Disconnected)
                && writeGeneration == old(writeGeneration) + if code == Success then 0 else 1
    {
      outstanding := outstanding - multiset{generation};
      if generation != writeGeneration || state != Connected {
        return;
      }
      CompleteWrite(code);
    }

    // handle_write, past its guard
    method CompleteWrite(code: Code)
      requires Slots() && Conserved(books, Queue()) && Archived(books.archive) && InOrder(books.current, Queue(), true)
      requires Guarded(outstanding, writeGeneration, false) && state == Connected && hasStream
      modifies this, writeSlots, writeSlots.buffer
      ensures AtRest() && SettledNext(old(books), books, code)
      ensures state == if code == Success then Connected else Disconnected
      ensures writeGeneration == old(writeGeneration) + if code == Success then 0 else 1
    {
      hide Conserved, OwesCall, InOrder, Archived, Grown, Guarded, SettledNext, ClosedOff, Slots;
      var handler := CompleteFront(code);
      CallHandler(handler, code);
      ghost var called := books;
      FinishWrite(code);
      StillSettledNext(old(books), called, books, code);
    }

    // handle_write, once the handler has been called
    method FinishWrite(code: Code)
      requires Valid() && state == Connected
      modifies this, writeSlots, writeSlots.buffer
      ensures AtRest()
      ensures code == Success ==>
                && state == Connected && writeGeneration == old(writeGeneration) && Grown(old(books), books)
      ensures code != Success ==>
                && state == Disconnected && writeGeneration == old(writeGeneration) + 1
                && ClosedOff(old(books), books, [Notice(Disconnection(code), Disconnected)])
    {
      if code != Success {
        HandleUnexpectedDisconnect(code);
        return;
      }
      StartWrite();
    }

    // handle_write: releasing the slot of the write in progress
    method CompleteFront(ghost code: Code) returns (handler: Handler)
      requires Slots() && Conserved(books, Queue()) && Archived(books.archive) && InOrder(books.current, Queue(), true)
      requires Guarded(outstanding, writeGeneration, false) && state == Connected && hasStream
      modifies `books, `writeInProgress
      modifies writeSlots`head, writeSlots`popped, writeSlots`Contents, writeSlots`Free, writeSlots.buffer
      ensures Slots() && OwesCall(books, Queue(), handler, code, state) && Consistent()
      ensures |old(books).settled| < |old(books).accepted|
      ensures books == Settle(old(books), old(books).accepted[|old(books).settled|], code, Connected)
    {
      hide Conserved, OwesCall, InOrder, Archived, Guarded, NoHandlers;
      SettleKeepsOrder(books.current, Queue());
      FrontIsNext(books, Queue());
      handler := ReleaseFront(code);
      writeInProgress := false;
    }

    // do_write
    method DoWrite(message: seq<byte>, handler: Handler) returns (code: Code)
      requires AtRest()
      modifies `writeInProgress, `outstanding, `books
      modifies writeSlots`tail, writeSlots`Contents, writeSlots`Free, writeSlots.buffer
      ensures AtRest() && Extends(old(books), books)
      ensures code == old(QueueCode(|message|))
      ensures code == Success ==>
                books.accepted == old(books).accepted + [Write(Frame(Message, message), handler)]
      ensures books.refusals ==
                old(books).refusals + if code != Success && handler.Some? then [Refusal(handler.value, code)] else []
      ensures books.settled == old(books).settled && books.calls == old(books).calls
    {
      code := QueueWrite(Message, message, handler);
      if code != Success && handler.Some? {
        Refuse(handler.value, code);
      }
    }

    // Calling the handler of a refused write.
    method Refuse(handler: nat, code: Code)
      requires AtRest()
      modifies `writeInProgress, `outstanding, `books
      modifies writeSlots`tail, writeSlots`Contents, writeSlots`Free, writeSlots.buffer
      ensures AtRest() && Extends(old(books), books)
      ensures books.refusals == old(books).refusals + [Refusal(handler, code)]
      ensures books.settled == old(books).settled && books.calls == old(books).calls
    {
      books := books.(refusals := books.refusals + [Refusal(handler, code)]);
      Callback();
    }

    // do_protocol_ping
    method DoProtocolPing() returns (code: Code)
      requires AtRest()
      modifies this, writeSlots, writeSlots.buffer
      ensures AtRest() && state == old(state) && writeGeneration == old(writeGeneration)
      ensures code == old(QueueCode(0)) && Grown(old(books), books)
      ensures books.accepted == old(books).accepted + if code == Success then [Write(Frame(Ping, []), None)] else []
    {
      code := QueueWrite(Ping, [], None);
    }

    // do_connect and create_stream
    method DoConnect()
      requires AtRest()
      modifies this, writeSlots, writeSlots.buffer
      ensures AtRest() && writeGeneration == old(writeGeneration)
      ensures old(state) != Disconnected ==>
                state == old(state) && Grown(Noticed(old(books), ConnectDone(AlreadyConnected), state), books)
      ensures old(state) == Disconnected ==> state == Connecting && books == Open(old(books))
    {
      if state != Disconnected {
        Notify(ConnectDone(AlreadyConnected));
        return;
      }
      state := Connecting;
      hasStream := true;
      books := Open(books);
    }

    // fail_connection
    method FailConnection(code: Code)
      requires AtRest() && state == Connecting
      modifies this, writeSlots, writeSlots.buffer
      ensures AtRest() && state == Disconnected
      ensures ClosedOff(old(books), books, [Notice(ConnectDone(code), Disconnected)])
    {
      DoClose(false);
      Notify(ConnectDone(code));
    }

    // handle_resolve, handle_connect and handle_ssl_handshake: go on to the next stage, or fail
    method HandleConnectStage(code: Code)
      requires AtRest()
      modifies this, writeSlots, writeSlots.buffer
      ensures AtRest()
      ensures old(state) != Connecting || code == Success ==>
                unchanged(this) && unchanged(writeSlots) && unchanged(writeSlots.buffer)
      ensures old(state) == Connecting && code != Success ==>
                state == Disconnected && ClosedOff(old(books), books, [Notice(ConnectDone(code), Disconnected)])
    {
      if state != Connecting || !hasStream {
        return;
      }
      if code != Success {
        FailConnection(code);
      }
    }

    // handle_websocket_handshake
    method HandleWebsocketHandshake(code: Code)
      requires AtRest()
      modifies this, writeSlots, writeSlots.buffer
      ensures AtRest()
      ensures old(state) != Connecting ==>
                unchanged(this) && unchanged(writeSlots) && unchanged(writeSlots.buffer)
      ensures old(state) == Connecting && code != Success ==>
                state == Disconnected && ClosedOff(old(books), books, [Notice(ConnectDone(code), Disconnected)])
      ensures old(state) == Connecting && code == Success ==>
                state == Connected && Grown(Noticed(old(books), ConnectDone(Success), Connected), books)
    {
      if state != Connecting || !hasStream {
        return;
      }
      if code != Success {
        FailConnection(code);
        return;
      }
      state := Connected;
      Notify(ConnectDone(Success));
    }

    // handle_read
    method HandleRead(code: Code)
      requires AtRest()
      modifies this, writeSlots, writeSlots.buffer
      ensures AtRest()
      ensures old(state) != Connected ==>
                unchanged(this) && unchanged(writeSlots) && unchanged(writeSlots.buffer)
      ensures old(state) == Connected && code == Success ==>
                state == Connected && Grown(Noticed(old(books), MessageRead, Connected), books)
      ensures old(state) == Connected && code != Success ==>
                state == Disconnected && ClosedOff(old(books), books, [Notice(Disconnection(code), Disconnected)])
    {
      if state != Connected {
        return;
      }
      if code != Success {
        HandleUnexpectedDisconnect(code);
        return;
      }
      Notify(MessageRead);
    }

    // Any event of the executor: a posted call of the user, or a completion of a stream. Connect and
    // read completions carry no generation, so one may come at any time.
    method AnyEvent(event: nat, code: Code)
      requires AtRest()
      modifies this, writeSlots, writeSlots.buffer
      ensures AtRest() && Extends(old(books), books)
    {
      hide Conserved, InOrder, Archived, Guarded, NoHandlers, Holds;
      if event == 0 {
        var generation: nat := *;
        if generation in outstanding {
          HandleWrite(generation, code);
        }
      } else if event == 1 {
        var message: seq<byte> := *;
        var handler: Handler := *;
        var writeCode := DoWrite(message, handler);
      } else if event == 2 {
        DoConnect();
      } else if event == 3 {
        DoClose(true);
      } else if event == 4 {
        HandleConnectStage(code);
      } else if event == 5 {
        HandleWebsocketHandshake(code);
      } else if event == 6 {
        HandleRead(code);
      } else if event == 7 {
        // handle_read_timeout, when the timeout has passed
        HandleUnexpectedDisconnect(TimedOut);
      } else {
        var pingCode := DoProtocolPing();
      }
    }

    // Any number of events, in any order, over any number of connections.
    method Session(events: nat)
      requires AtRest()
      modifies this, writeSlots, writeSlots.buffer
      ensures AtRest() && Extends(old(books), books)
    {
      for i := 0 to events
        invariant AtRest() && Extends(old(books), books)
      {
        var event: nat := *;
        var code: Code := *;
        ghost var before := books;
        AnyEvent(event, code);
        ExtendsTransitive(old(books), before, books);
      }
    }
  }
}
