/** The shared-memory ring used by one process at a time: it is a window onto an unbounded log. */
module Ring {
  import opened Common
  import opened MaskArithmetic

  const MAX_DATA: nat := 54

  datatype Message = Message(timestamp: nat, data: seq<u8>)

  datatype Slot = Slot(timestamp: nat, len: nat, data: seq<u8>)

  datatype ReadResult = Success(slot: Slot) | Empty | Reset | Overlapped(next: nat) | Interrupted(next: nat)

  const BLANK := Slot(0, 0, seq(MAX_DATA, _ => 0))

  /** The slot carries the message; bytes past its length are left over from before. */
  predicate Holds(s: Slot, m: Message) {
    s.timestamp == m.timestamp && s.len == |m.data| && m.data <= s.data
  }

  function SaturatingSub(a: nat, b: nat): nat {
    if a < b then 0 else a - b
  }

  class ShmRing {
    const capacity: nat
    const slots: array<Slot>
    var head: nat
    ghost var log: seq<Message>

    ghost predicate Valid()
      reads this, slots
    {
      && IsPow2(capacity) && slots.Length == capacity > 0
      && head == |log|
      && (forall i | 0 <= i < capacity :: |slots[i].data| == MAX_DATA)
      && (forall n | 0 <= n < head <= n + capacity :: Holds(slots[n % capacity], log[n]))
    }

    constructor (capacity: nat)
      requires IsPow2(capacity)
      ensures Valid() && log == [] && this.capacity == capacity && fresh(slots)
    {
      MaskIsRemainder(0, capacity);
      this.capacity := capacity;
      slots := new Slot[capacity](_ => BLANK);
      head, log := 0, [];
    }

    method Write(data: seq<u8>, now: nat) returns (panicked: bool)
      requires Valid()
      modifies this, slots
      ensures Valid()
      ensures panicked <==> |data| > 54
      ensures log == if panicked then old(log) else old(log) + [Message(now, data)]
      ensures !panicked ==> slots[..] == old(slots[..])[old(head) % capacity :=
                Slot(now, |data|, data + old(slots[head % capacity].data[|data|..]))]
      ensures panicked ==> slots[..] == old(slots[..])
    {
      if |data| > MAX_DATA {
        return true;
      }
      var index := BitAnd(head, capacity - 1);
      MaskIsRemainder(head, capacity);
      var len := |data|;
      var slot := slots[index];
      slot := slot.(timestamp := now);
      slot := slot.(len := len);
      slot := slot.(data := data[..len] + slot.data[len..]);
      slots[index] := slot;
      log := log + [Message(now, data)];
      head := head + 1;
      assert Holds(slot, Message(now, data)) && |slot.data| == MAX_DATA && data[..len] == data;
      forall n | 0 <= n < head <= n + capacity ensures Holds(slots[n % capacity], log[n]) {
        if n < head - 1 {
          DistinctSlots(n, head - 1, capacity);
          assert n < old(head) <= n + capacity;
        }
      }
      panicked := false;
    }

    /** Between writes the ring answers as the log does, within its window. */
    method Read(seqNo: nat) returns (r: ReadResult)
      requires Valid()
      ensures r.Empty? <==> seqNo >= |log|
      ensures r.Overlapped? <==> seqNo + capacity < |log|
      ensures r.Overlapped? ==> r.next == |log| - capacity && seqNo < r.next
      ensures r.Success? <==> seqNo < |log| <= seqNo + capacity
      ensures r.Success? ==> Holds(r.slot, log[seqNo])
    {
      var headStart := head;
      if seqNo >= headStart {
        return Empty;
      }
      if headStart < seqNo {
        return Reset;
      }
      if SaturatingSub(headStart, seqNo) > capacity {
        return Overlapped(SaturatingSub(headStart, capacity));
      }
      var index := BitAnd(seqNo, capacity - 1);
      MaskIsRemainder(seqNo, capacity);
      var copy := slots[index];
      var headEnd := head;
      if SaturatingSub(headEnd, seqNo) > capacity {
        return Interrupted(SaturatingSub(headEnd, capacity));
      }
      r := Success(copy);
    }
  }

  /** `NoSlots` is a ring of capacity zero, which has no slot to write or read. */
  datatype Opening = Panicked | NoSlots | Opened(ring: ShmRing)

  /** Opens a ring over a file of the given size. A size that is not a power of two stops the
      process; one below a slot is accepted and leaves no slots. */
  method CreateProducer(size: nat) returns (r: Opening)
    ensures r.Panicked? <==> !IsPow2(size)
    ensures r.NoSlots? <==> IsPow2(size) && size < 64
    ensures r.Opened? ==> fresh(r.ring) && r.ring.Valid()
    ensures r.Opened? ==> r.ring.log == [] && r.ring.capacity == size / 64
  {
    if size == 0 || BitAnd(size, size - 1) != 0 {
      if size > 0 { PowerOfTwoTest(size); }
      return Panicked;
    }
    PowerOfTwoTest(size);
    CapacityIsPowerOfTwo(size);
    var capacity := size / SLOT_SIZE;
    if capacity == 0 {
      return NoSlots;
    }
    var ring := new ShmRing(capacity);
    r := Opened(ring);
  }
}
