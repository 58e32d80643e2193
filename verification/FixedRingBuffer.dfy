/**
 `FixedRingBuffer`: free-running 64-bit positions, masked into a power-of-two array.
 `Contents` is the bounded sequence the buffer stands for.
 */
module FixedRingBuffer {
  import opened Powers

  const TWO_64: nat := 0x1_0000_0000_0000_0000

  type uint64 = x: int | 0 <= x < TWO_64

  // Unsigned arithmetic wraps around.
  function Wrap(x: int): uint64 {
    x % TWO_64
  }

  // std::has_single_bit on a 64-bit size_t.
  ghost predicate HasSingleBit(x: nat) {
    exists k: nat :: k < 64 && x == Pow2(k)
  }

  // Bitwise and.
  function And(x: nat, y: nat): nat {
    if x == 0 || y == 0 then 0 else (x % 2) * (y % 2) + 2 * And(x / 2, y / 2)
  }

  // get_index
  function IndexOf(pos: uint64, capacity: nat): nat
    requires capacity > 0
  {
    And(pos, capacity - 1)
  }

  lemma HalfOfRemainder(x: nat, m: nat)
    requires m > 0
    ensures x % (2 * m) == x % 2 + 2 * ((x / 2) % m)
  {
    var q, r := x / 2 / m, x / 2 % m;
    assert x == 2 * (q * m + r) + x % 2;
    assert 2 * (q * m + r) == q * (2 * m) + 2 * r;
    assert x == q * (2 * m) + (2 * r + x % 2);
    RemainderUnique(x, 2 * m, q, 2 * r + x % 2);
  }

  lemma RemainderUnique(x: int, m: int, q: int, r: int)
    requires m > 0 && x == q * m + r && 0 <= r < m
    ensures x % m == r
  {
    var q' := x / m;
    var r' := x % m;
    assert x == q' * m + r';
    if q > q' {
      assert (q - q') * m == q * m - q' * m;
      MultipleIsLarge(q - q', m);
    } else if q < q' {
      assert (q' - q) * m == q' * m - q * m;
      MultipleIsLarge(q' - q, m);
    }
  }

  lemma AndWithOdd(x: nat, y: nat)
    ensures And(x, 2 * y + 1) == x % 2 + 2 * And(x / 2, y)
  {
    assert (2 * y + 1) / 2 == y && (2 * y + 1) % 2 == 1;
  }

  lemma RemainderMoves(x: nat, d: nat, m: nat)
    requires 0 < d < m
    ensures (x + d) % m != x % m
  {
    var q, r := x / m, x % m;
    assert x == q * m + r;
    if r + d < m {
      RemainderUnique(x + d, m, q, r + d);
    } else {
      assert (q + 1) * m == q * m + m;
      RemainderUnique(x + d, m, q + 1, r + d - m);
    }
  }

  // Masking with 2^k - 1 is the remainder modulo 2^k.
  lemma {:induction false} MaskIsRemainder(x: nat, k: nat)
    ensures And(x, Pow2(k) - 1) == x % Pow2(k)
  {
    if k > 0 {
      var m := Pow2(k - 1);
      AndWithOdd(x, m - 1);
      MaskIsRemainder(x / 2, k - 1);
      HalfOfRemainder(x, m);
    }
  }

  lemma Pow2Divides(k: nat)
    requires k < 64
    ensures TWO_64 == Pow2(64 - k) * Pow2(k) && Pow2(64 - k) >= 2
  {
    Pow2Sum(64 - k, k);
    Pow2Of64();
    assert Pow2(64 - k) == 2 * Pow2(63 - k);
  }

  lemma Pow2OfCapacity(capacity: nat)
    requires HasSingleBit(capacity)
    ensures 0 < capacity && 2 * capacity <= TWO_64
    ensures TWO_64 % capacity == 0
    ensures forall pos: uint64 :: IndexOf(pos, capacity) == pos % capacity
  {
    var k: nat :| k < 64 && capacity == Pow2(k);
    hide Pow2;
    Pow2Divides(k);
    var m := Pow2(64 - k);
    MultipleIsLarge(m - 1, capacity);
    assert m * capacity == (m - 1) * capacity + capacity;
    RemainderUnique(TWO_64, capacity, m, 0);
    forall pos: uint64 ensures IndexOf(pos, capacity) == pos % capacity {
      MaskIsRemainder(pos, k);
    }
  }

  lemma Pow2Of64()
    ensures Pow2(64) == TWO_64
  {
    assert Pow2(8) == 256;
    Pow2Sum(8, 8);
    Pow2Sum(16, 16);
    Pow2Sum(32, 32);
  }

  lemma RemainderOfMultiple(x: int, m: int, n: int)
    requires n > 0 && m > 0 && m % n == 0
    ensures (x % m) % n == x % n
  {
    var q := x / m;
    var p := m / n;
    assert x % m == x - q * m && m == p * n;
    assert q * m == (q * p) * n;
    var r := x % n;
    assert x == (x / n) * n + r;
    assert x % m == (x / n - q * p) * n + r by {
      assert (x / n - q * p) * n == (x / n) * n - (q * p) * n;
    }
    RemainderUnique(x % m, n, x / n - q * p, r);
  }

  // The slot of the j-th element counted from position `head`.
  function SlotOf(head: uint64, j: nat, capacity: nat): nat
    requires capacity > 0
  {
    IndexOf(Wrap(head + j), capacity)
  }

  lemma SlotIsRemainder(head: uint64, j: nat, capacity: nat)
    requires HasSingleBit(capacity)
    ensures 0 < capacity
    ensures SlotOf(head, j, capacity) == (head + j) % capacity
  {
    Pow2OfCapacity(capacity);
    RemainderOfMultiple(head + j, TWO_64, capacity);
  }

  // Fewer than `capacity` positions apart, two positions have different slots, also when the
  // positions wrap around in between.
  lemma SlotsDistinct(head: uint64, i: nat, j: nat, capacity: nat)
    requires HasSingleBit(capacity)
    requires i < j < i + capacity
    ensures 0 < capacity
    ensures SlotOf(head, i, capacity) != SlotOf(head, j, capacity)
  {
    SlotIsRemainder(head, i, capacity);
    SlotIsRemainder(head, j, capacity);
    RemainderMoves(head + i, j - i, capacity);
  }

  // The wrapping difference of two positions at most `capacity` apart is their distance.
  lemma DistanceSurvivesWrap(head: uint64, size: nat, capacity: nat)
    requires HasSingleBit(capacity) && size <= capacity
    ensures Wrap(Wrap(head + size) - head) == size
    ensures Wrap(head + size) == head <==> size == 0
  {
    Pow2OfCapacity(capacity);
    var d := Wrap(head + size) - head;
    if head + size < TWO_64 {
      assert d == size;
    } else {
      RemainderUnique(head + size, TWO_64, 1, head + size - TWO_64);
      assert d == size - TWO_64;
      RemainderUnique(d, TWO_64, -1, size);
    }
  }

  // The slots from position `head` on hold `elements`, one after the other.
  ghost predicate Holds<T>(slots: seq<T>, head: uint64, elements: seq<T>) {
    forall j: nat :: j < |elements| ==>
      |slots| > 0 && SlotOf(head, j, |slots|) < |slots| && slots[SlotOf(head, j, |slots|)] == elements[j]
  }

  // Writing one slot changes one element.
  lemma OneSlotOneElement<T>(slots: seq<T>, head: uint64, elements: seq<T>, k: nat, v: T)
    requires HasSingleBit(|slots|) && k < |elements| <= |slots| && Holds(slots, head, elements)
    ensures SlotOf(head, k, |slots|) < |slots|
    ensures Holds(slots[SlotOf(head, k, |slots|) := v], head, elements[k := v])
  {
    forall j: nat | j < |elements| && j != k
      ensures SlotOf(head, j, |slots|) != SlotOf(head, k, |slots|)
    {
      if j < k {
        SlotsDistinct(head, j, k, |slots|);
      } else {
        SlotsDistinct(head, k, j, |slots|);
      }
    }
  }

  // Moving the head one position on makes the first of all slots the last.
  lemma NextHead<T>(slots: seq<T>, head: uint64, elements: seq<T>)
    requires HasSingleBit(|slots|) && |elements| == |slots| && Holds(slots, head, elements)
    ensures Holds(slots, Wrap(head + 1), elements[1..] + [elements[0]])
  {
    var next, n, rotated := Wrap(head + 1), |slots|, elements[1..] + [elements[0]];
    forall j: nat | j < n
      ensures SlotOf(next, j, n) < n && slots[SlotOf(next, j, n)] == rotated[j]
    {
      WrapAdds(head + 1, j);
      if j == n - 1 {
        SlotIsRemainder(head, n, n);
        SlotIsRemainder(head, 0, n);
        FullTurn(head, n);
      } else {
        assert rotated[j] == elements[j + 1];
      }
    }
  }

  lemma FullTurn(x: nat, m: nat)
    requires m > 0
    ensures (x + m) % m == x % m
  {
    assert x + m == (x / m) * m + m + x % m;
    assert (x / m + 1) * m == (x / m) * m + m;
    RemainderUnique(x + m, m, x / m + 1, x % m);
  }

  lemma WrapAdds(x: int, y: int)
    ensures Wrap(Wrap(x) + y) == Wrap(x + y)
  {
    var q := x / TWO_64;
    assert Wrap(x) + y == x + y - q * TWO_64;
    RemainderUnique(Wrap(x) + y, TWO_64, (x + y) / TWO_64 - q, (x + y) % TWO_64);
  }

  // Size and slots as computed from the two positions.
  lemma PositionsAt(popped: nat, size: nat, capacity: nat)
    requires HasSingleBit(capacity) && size <= capacity
    ensures 0 < capacity
    ensures var head, tail := Wrap(popped), Wrap(popped + size);
            && Wrap(tail - head) == size && (head == tail <==> size == 0)
            && IndexOf(head, capacity) == SlotOf(head, 0, capacity) < capacity
            && IndexOf(tail, capacity) == SlotOf(head, size, capacity) < capacity
  {
    WrapAdds(popped, size);
    WrapAdds(popped, 0);
    DistanceSurvivesWrap(Wrap(popped), size, capacity);
    SlotIsRemainder(Wrap(popped), 0, capacity);
    SlotIsRemainder(Wrap(popped), size, capacity);
  }

  class FixedRingBuffer<T> {
    const buffer: array<T>
    var head: uint64
    var tail: uint64
    // The queued elements, oldest first, and what is left in the other slots.
    ghost var Contents: seq<T>
    ghost var Free: seq<T>
    // Elements ever popped: the unbounded position that `head` is the low 64 bits of.
    ghost var popped: nat

    ghost predicate Valid()
      reads this, buffer
    {
      && HasSingleBit(buffer.Length)
      && |Contents| + |Free| == buffer.Length
      && head == Wrap(popped)
      && tail == Wrap(popped + |Contents|)
      && Holds(buffer[..], head, Contents + Free)
    }

    constructor (capacity: nat, fill: T)
      requires HasSingleBit(capacity)
      ensures Valid() && fresh(buffer) && buffer.Length == capacity
      ensures Contents == [] && Free == seq(capacity, _ => fill)
    {
      buffer := new T[capacity](_ => fill);
      head, tail, popped, Contents, Free := 0, 0, 0, [], seq(capacity, _ => fill);
      new;
      Pow2OfCapacity(capacity);
      forall j: nat | j < capacity ensures SlotOf(head, j, capacity) < capacity {
        SlotIsRemainder(head, j, capacity);
      }
    }

    lemma Positions()
      requires Valid()
      ensures Wrap(tail - head) == |Contents|
      ensures head == tail <==> Contents == []
      ensures 0 < buffer.Length
      ensures IndexOf(head, buffer.Length) == SlotOf(head, 0, buffer.Length) < buffer.Length
      ensures IndexOf(tail, buffer.Length) == SlotOf(head, |Contents|, buffer.Length) < buffer.Length
    {
      PositionsAt(popped, |Contents|, buffer.Length);
    }

    method IsEmpty() returns (empty: bool)
      requires Valid()
      ensures empty <==> Contents == []
    {
      Positions();
      empty := head == tail;
    }

    method GetSize() returns (n: nat)
      requires Valid()
      ensures n == |Contents|
    {
      Positions();
      n := Wrap(tail - head);
    }

    method IsFull() returns (full: bool)
      requires Valid()
      ensures full <==> |Contents| == buffer.Length
    {
      var n := GetSize();
      full := n == buffer.Length;
    }

    // get_back_slot, read
    method GetBackSlot() returns (v: T)
      requires Valid() && |Contents| < buffer.Length
      ensures v == Free[0]
    {
      Positions();
      v := buffer[IndexOf(tail, buffer.Length)];
      assert v == (Contents + Free)[|Contents|];
    }

    // get_back_slot, and the caller filling the slot in place
    method FillBackSlot(v: T)
      requires Valid() && |Contents| < buffer.Length
      modifies this`Free, buffer
      ensures Valid() && Free == old(Free)[0 := v]
    {
      Positions();
      OneSlotOneElement(buffer[..], head, Contents + Free, |Contents|, v);
      buffer[IndexOf(tail, buffer.Length)] := v;
      assert Contents + Free[0 := v] == (Contents + Free)[|Contents| := v];
      Free := Free[0 := v];
    }

    // push_back(): queues the slot that the caller has filled. The head, and with it the slot of
    // every element queued before, stays as it is.
    method PushBackSlot()
      requires Valid() && |Contents| < buffer.Length
      modifies this`tail, this`Contents, this`Free
      ensures Valid() && Contents == old(Contents) + [old(Free)[0]] && Free == old(Free)[1..]
    {
      WrapAdds(popped + |Contents|, 1);
      assert (Contents + [Free[0]]) + Free[1..] == Contents + Free;
      Contents, Free := Contents + [Free[0]], Free[1..];
      tail := Wrap(tail + 1);
    }

    // push_back(value)
    method PushBack(v: T)
      requires Valid() && |Contents| < buffer.Length
      modifies this`tail, this`Contents, this`Free, buffer
      ensures Valid() && Contents == old(Contents) + [v] && Free == old(Free)[1..]
    {
      FillBackSlot(v);
      PushBackSlot();
    }

    method GetFront() returns (v: T)
      requires Valid() && Contents != []
      ensures v == Contents[0]
    {
      Positions();
      v := buffer[IndexOf(head, buffer.Length)];
      assert v == (Contents + Free)[0];
    }

    // get_front, and the caller changing the element in place
    method SetFront(v: T)
      requires Valid() && Contents != []
      modifies this`Contents, buffer
      ensures Valid() && Contents == old(Contents)[0 := v]
    {
      Positions();
      OneSlotOneElement(buffer[..], head, Contents + Free, 0, v);
      buffer[IndexOf(head, buffer.Length)] := v;
      assert Contents[0 := v] + Free == (Contents + Free)[0 := v];
      Contents := Contents[0 := v];
    }

    // Releases the oldest element, which stays in its slot as it is.
    method PopFront()
      requires Valid() && Contents != []
      modifies this`head, this`popped, this`Contents, this`Free
      ensures Valid() && Contents == old(Contents)[1..] && Free == old(Free) + [old(Contents)[0]]
    {
      NextHead(buffer[..], head, Contents + Free);
      WrapAdds(popped, 1);
      assert Contents[1..] + (Free + [Contents[0]]) == (Contents + Free)[1..] + [(Contents + Free)[0]];
      head := Wrap(head + 1);
      popped := popped + 1;
      Contents, Free := Contents[1..], Free + [Contents[0]];
      assert popped + |Contents| == old(popped + |Contents|);
    }
  }
}
