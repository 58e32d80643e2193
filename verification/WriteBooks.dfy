/**
 What has happened to every write a client ever accepted, as plain values: the books that
 `SecureWebSocketClient` keeps in its ghost state, and what each entry preserves.
 */
module WriteBooks {
  import opened Options

  const WRITE_SLOT_SIZE: nat := 8 * 1024

  type byte = x: int | 0 <= x < 256

  datatype WriteType = Message | Ping

  datatype Code =
    | Success | NotPermitted | NotConnected | AlreadyConnected | MessageSize | NoBufferSpace
    | OperationCanceled | TimedOut | Failed(value: int)

  datatype ConnectionState = Disconnected | Connecting | Connected | Closing

  // A write handler, by number; None is the empty std::function.
  type Handler = Option<nat>

  // The character array of a slot.
  type SlotData = s: seq<byte> | |s| == WRITE_SLOT_SIZE witness seq(WRITE_SLOT_SIZE, _ => 0)

  // A queued write, stored in place; only the first `size` bytes of `data` belong to it.
  datatype WriteSlot = WriteSlot(kind: WriteType, data: SlotData, size: nat, handler: Handler) {
    predicate InBounds() {
      size <= WRITE_SLOT_SIZE
    }

    // What start_write hands to the stream.
    function GetFrame(): Frame
      requires InBounds()
    {
      Frame(kind, data[..size])
    }
  }

  datatype Frame = Frame(kind: WriteType, bytes: seq<byte>)

  datatype Write = Write(frame: Frame, handler: Handler)

  // A write whose slot has been released, the code it was completed or cancelled with, and the state
  // the client was in.
  datatype Settlement = Settlement(write: Write, code: Code, at: ConnectionState)

  // A call of the handler of an accepted write, by the position of the write among the accepted ones,
  // and the state in which it was made.
  datatype Call = Call(write: nat, code: Code, at: ConnectionState)

  // A call of the handler of a write that was not accepted.
  datatype Refusal = Refusal(handler: nat, code: Code)

  // The other occasions on which a function of the user is called, if there is one, and the state in
  // which that is done.
  datatype Occasion = ConnectDone(code: Code) | CloseDone | Disconnection(code: Code) | MessageRead

  datatype Notice = Notice(occasion: Occasion, at: ConnectionState)

  // The frames accepted on one connection, and those handed to its stream.
  datatype Transcript = Transcript(accepted: seq<Frame>, handed: seq<Frame>)

  datatype Books = Books(
    accepted: seq<Write>,        // every write ever accepted
    settled: seq<Settlement>,
    calls: seq<Call>,
    refusals: seq<Refusal>,
    notices: seq<Notice>,
    current: Transcript,         // of the current, or else the last connection
    archive: seq<Transcript>)    // of the closed connections

  ghost predicate AllInBounds(queue: seq<WriteSlot>) {
    forall i :: 0 <= i < |queue| ==> queue[i].InBounds()
  }

  function WriteOf(slot: WriteSlot): Write
    requires slot.InBounds()
  {
    Write(slot.GetFrame(), slot.handler)
  }

  // A slot after the message has been copied over the beginning of its old data.
  function Filled(back: WriteSlot, kind: WriteType, message: seq<byte>, handler: Handler): (slot: WriteSlot)
    requires |message| <= WRITE_SLOT_SIZE
    ensures slot.InBounds() && WriteOf(slot) == Write(Frame(kind, message), handler)
  {
    var data := message + back.data[|message|..];
    assert data[..|message|] == message;
    WriteSlot(kind, data, |message|, handler)
  }

  // The writes that a queue of slots stands for.
  ghost function Queued(slots: seq<WriteSlot>): (ws: seq<Write>)
    requires AllInBounds(slots)
    ensures |ws| == |slots| && forall i :: 0 <= i < |ws| ==> ws[i] == WriteOf(slots[i])
  {
    seq(|slots|, i requires 0 <= i < |slots| => WriteOf(slots[i]))
  }

  lemma QueuedPush(slots: seq<WriteSlot>, slot: WriteSlot)
    requires AllInBounds(slots) && slot.InBounds()
    ensures Queued(slots + [slot]) == Queued(slots) + [WriteOf(slot)]
  {
  }

  lemma QueuedPop(slots: seq<WriteSlot>)
    requires AllInBounds(slots) && slots != []
    ensures Queued(slots)[0] == WriteOf(slots[0])
    ensures AllInBounds(slots[1..]) && Queued(slots[1..]) == Queued(slots)[1..]
  {
  }

  // The handler calls that writes settled in this way, in this order, are owed.
  function Calls(settled: seq<Settlement>): seq<Call> {
    if settled == [] then [] else
      var n := |settled| - 1;
      Calls(settled[..n]) + CallOf(n, settled[n])
  }

  function CallOf(write: nat, s: Settlement): seq<Call> {
    if s.write.handler.Some? then [Call(write, s.code, s.at)] else []
  }

  // Every accepted write is settled or queued, oldest first.
  ghost predicate Balanced(b: Books, queue: seq<Write>) {
    && |b.accepted| == |b.settled| + |queue|
    && (forall i :: 0 <= i < |b.settled| ==> b.settled[i].write == b.accepted[i])
    && (forall i :: 0 <= i < |queue| ==> queue[i] == b.accepted[|b.settled| + i])
  }

  // And every settled one has had its handler called.
  ghost predicate Conserved(b: Books, queue: seq<Write>) {
    Balanced(b, queue) && b.calls == Calls(b.settled)
  }

  // The write settled last, with `code`, is about to have its handler called; all others had theirs.
  ghost predicate OwesCall(b: Books, queue: seq<Write>, handler: Handler, code: Code, at: ConnectionState) {
    var n := |b.settled| - 1;
    && Balanced(b, queue)
    && n >= 0 && b.settled[n] == Settlement(Write(b.settled[n].write.frame, handler), code, at)
    && b.calls == Calls(b.settled[..n])
  }

  // The stream has been handed, unchanged and in order, what was accepted on this connection: all
  // that is no longer queued, and the front of the queue if its write is in progress.
  ghost predicate InOrder(t: Transcript, queue: seq<Write>, inProgress: bool) {
    && |queue| <= |t.accepted|
    && (forall i :: 0 <= i < |queue| ==> queue[i].frame == t.accepted[|t.accepted| - |queue| + i])
    && (inProgress ==> queue != [])
    && t.handed == t.accepted[..|t.accepted| - |queue| + if inProgress then 1 else 0]
  }

  // On every earlier connection, what was handed over was a prefix of what was accepted.
  ghost predicate Archived(archive: seq<Transcript>) {
    forall t :: t in archive ==> t.handed <= t.accepted
  }

  // ----- The entries -----

  function Accept(b: Books, write: Write): Books {
    b.(accepted := b.accepted + [write],
       current := b.current.(accepted := b.current.accepted + [write.frame]))
  }

  function HandOver(b: Books, frame: Frame): Books {
    b.(current := b.current.(handed := b.current.handed + [frame]))
  }

  // Releasing a slot; the handler is called afterwards.
  function Settle(b: Books, write: Write, code: Code, at: ConnectionState): Books {
    b.(settled := b.settled + [Settlement(write, code, at)])
  }

  // Calling the handler of the write settled last.
  function CallLast(b: Books): Books
    requires b.settled != []
  {
    var n := |b.settled| - 1;
    b.(calls := b.calls + CallOf(n, b.settled[n]))
  }

  function Noticed(b: Books, occasion: Occasion, at: ConnectionState): Books {
    b.(notices := b.notices + [Notice(occasion, at)])
  }

  function CloseNotices(hasHandler: bool, at: ConnectionState): seq<Notice> {
    if hasHandler then [Notice(CloseDone, at)] else []
  }

  function Open(b: Books): Books {
    b.(current := Transcript([], []))
  }

  function Close(b: Books): Books {
    b.(archive := b.archive + [b.current])
  }

  // Writes have only been accepted and handed over in between.
  ghost predicate Grown(before: Books, after: Books) {
    && before.accepted <= after.accepted
    && before.current.accepted <= after.current.accepted
    && before.current.handed <= after.current.handed
    && after == before.(accepted := after.accepted, current := after.current)
  }

  // The oldest write not settled before has been settled, with `code`, and its handler called; after a
  // success nothing else has been settled, after an error all other writes have been, as cancelled.
  ghost predicate SettledNext(before: Books, after: Books, code: Code) {
    var n := |before.settled|;
    && n < |before.accepted| && before.accepted <= after.accepted
    && n < |after.settled| && before.settled <= after.settled
    && after.settled[n] == Settlement(before.accepted[n], code, Connected)
    && before.calls + CallOf(n, after.settled[n]) <= after.calls
    && after.refusals == before.refusals && before.archive <= after.archive
    && (code == Success ==> |after.settled| == n + 1 && after.notices == before.notices)
    && (code != Success ==>
          && |after.settled| == |after.accepted|
          && after.notices == before.notices + [Notice(Disconnection(code), Disconnected)]
          && forall i :: n < i < |after.settled| ==>
               after.settled[i] == Settlement(after.accepted[i], OperationCanceled, Closing))
  }

  // Nothing in the books is ever taken back.
  ghost predicate Extends(before: Books, after: Books) {
    && before.accepted <= after.accepted && before.settled <= after.settled
    && before.calls <= after.calls && before.refusals <= after.refusals
    && before.notices <= after.notices && before.archive <= after.archive
  }

  lemma ExtendsTransitive(a: Books, b: Books, c: Books)
    requires Extends(a, b) && Extends(b, c)
    ensures Extends(a, c)
  {
  }

  // Releasing the oldest slot, calling its handler, and then going on or closing the connection.
  lemma StillSettledNext(before: Books, called: Books, after: Books, code: Code)
    requires |before.settled| < |before.accepted|
    requires Grown(CallLast(Settle(before, before.accepted[|before.settled|], code, Connected)), called)
    requires if code == Success then Grown(called, after)
             else ClosedOff(called, after, [Notice(Disconnection(code), Disconnected)])
    ensures SettledNext(before, after, code)
  {
  }

  lemma AcceptKeeps(b: Books, queue: seq<Write>, write: Write, inProgress: bool)
    requires Conserved(b, queue)
    ensures Conserved(Accept(b, write), queue + [write])
    ensures InOrder(b.current, queue, inProgress) ==> InOrder(Accept(b, write).current, queue + [write], inProgress)
  {
    if InOrder(b.current, queue, inProgress) {
      var t, t' := b.current, Accept(b, write).current;
      var n := |t.accepted| - |queue| + if inProgress then 1 else 0;
      assert t'.accepted[..n] == t.accepted[..n];
    }
  }

  lemma HandOverKeeps(b: Books, queue: seq<Write>)
    requires Conserved(b, queue) && InOrder(b.current, queue, false) && queue != []
    ensures Conserved(HandOver(b, queue[0].frame), queue) && InOrder(HandOver(b, queue[0].frame).current, queue, true)
  {
    var t := b.current;
    var n := |t.accepted| - |queue|;
    assert t.accepted[..n + 1] == t.accepted[..n] + [t.accepted[n]];
  }

  // Releasing the front slot leaves one handler to be called.
  lemma SettleKeeps(b: Books, queue: seq<Write>, code: Code, at: ConnectionState)
    requires Conserved(b, queue) && queue != []
    ensures OwesCall(Settle(b, queue[0], code, at), queue[1..], queue[0].handler, code, at)
  {
    assert Settle(b, queue[0], code, at).settled[..|b.settled|] == b.settled;
  }

  lemma SettleKeepsOrder(t: Transcript, queue: seq<Write>)
    requires InOrder(t, queue, true)
    ensures queue != [] && InOrder(t, queue[1..], false)
  {
  }

  lemma FrontIsNext(b: Books, queue: seq<Write>)
    requires Conserved(b, queue) && queue != []
    ensures |b.settled| < |b.accepted| && b.accepted[|b.settled|] == queue[0]
  {
  }

  // Calling it settles the account.
  lemma CallKeeps(b: Books, queue: seq<Write>, handler: Handler, code: Code, at: ConnectionState)
    requires OwesCall(b, queue, handler, code, at)
    ensures Conserved(CallLast(b), queue)
    ensures handler.None? ==> CallLast(b) == b
  {
  }

  lemma CompleteKeeps(b: Books, queue: seq<Write>, code: Code, at: ConnectionState)
    requires Conserved(b, queue) && queue != []
    ensures Conserved(CallLast(Settle(b, queue[0], code, at)), queue[1..])
  {
    SettleKeeps(b, queue, code, at);
    CallKeeps(Settle(b, queue[0], code, at), queue[1..], queue[0].handler, code, at);
  }

  // Cancelling a whole queue, front first.
  function CancelAll(b: Books, queue: seq<Write>): Books
    decreases |queue|
  {
    if queue == [] then b else CancelAll(CallLast(Settle(b, queue[0], OperationCanceled, Closing)), queue[1..])
  }

  // It settles exactly the queued writes, in queue order, as cancelled, and touches nothing else.
  lemma {:induction false} CancelAllSettles(b: Books, queue: seq<Write>)
    requires Conserved(b, queue)
    ensures var b' := CancelAll(b, queue);
            && Conserved(b', [])
            && |b'.settled| == |b.accepted| && b.settled <= b'.settled && b.calls <= b'.calls
            && (forall i :: |b.settled| <= i < |b'.settled| ==>
                  b'.settled[i].code == OperationCanceled && b'.settled[i].at == Closing)
            && b' == b.(settled := b'.settled, calls := b'.calls)
    decreases |queue|
  {
    if queue != [] {
      CompleteKeeps(b, queue, OperationCanceled, Closing);
      CancelAllSettles(CallLast(Settle(b, queue[0], OperationCanceled, Closing)), queue[1..]);
    }
  }

  // A connection has been closed: all that was queued is settled as cancelled, in queue order, and
  // only the functions for `notices` have been called besides the write handlers.
  ghost predicate ClosedOff(before: Books, after: Books, notices: seq<Notice>) {
    && after.accepted == before.accepted && after.refusals == before.refusals
    && after.notices == before.notices + notices && before.calls <= after.calls
    && |after.settled| == |after.accepted| && before.settled <= after.settled
    && (forall i :: |before.settled| <= i < |after.settled| ==>
          after.settled[i] == Settlement(after.accepted[i], OperationCanceled, Closing))
    && after.current == before.current && after.archive == before.archive + [before.current]
  }

  lemma CancelAllCloses(b: Books, queue: seq<Write>)
    requires Conserved(b, queue)
    ensures Conserved(Close(b), queue) && ClosedOff(b, CancelAll(Close(b), queue), [])
    ensures CancelAll(Close(b), queue).archive == Close(b).archive
  {
    CancelAllSettles(Close(b), queue);
  }

  lemma CloseKeeps(b: Books, queue: seq<Write>, inProgress: bool)
    requires Archived(b.archive) && (b.current == Transcript([], []) || InOrder(b.current, queue, inProgress))
    ensures Archived(Close(b).archive)
  {
  }

  // ----- What the books say about each handler -----

  // The codes that the handler of write `i` has been called with.
  function CallsTo(cs: seq<Call>, i: nat): seq<Code> {
    if cs == [] then [] else
      var n := |cs| - 1;
      CallsTo(cs[..n], i) + if cs[n].write == i then [cs[n].code] else []
  }

  lemma {:induction false} CalledOnce(settled: seq<Settlement>, i: nat)
    ensures CallsTo(Calls(settled), i) ==
              if i < |settled| && settled[i].write.handler.Some? then [settled[i].code] else []
  {
    if settled != [] {
      var n := |settled| - 1;
      var before := Calls(settled[..n]);
      CalledOnce(settled[..n], i);
      if settled[n].write.handler.Some? {
        assert Calls(settled)[..|before|] == before;
      } else {
        assert Calls(settled) == before;
      }
    }
  }

  // Every accepted write is either settled, and its handler, if it has one, has then been called
  // exactly once, with the code it was settled with, or it is still queued, and its handler has not
  // been called. Two writes may well share a handler.
  lemma ExactlyOnce(b: Books, queue: seq<Write>, i: nat)
    requires Conserved(b, queue) && i < |b.accepted|
    ensures i < |b.settled| ==>
              && b.settled[i].write == b.accepted[i]
              && CallsTo(b.calls, i) == if b.accepted[i].handler.Some? then [b.settled[i].code] else []
    ensures i >= |b.settled| ==>
              && i - |b.settled| < |queue| && queue[i - |b.settled|] == b.accepted[i]
              && CallsTo(b.calls, i) == []
  {
    CalledOnce(b.settled, i);
    if i >= |b.settled| {
      assert queue[i - |b.settled|] == b.accepted[i];
    } else {
      assert b.settled[i].write == b.accepted[i];
    }
  }
}
