/** The gateway process between the trading engine and the exchange: it forwards commands
    from one ring to the exchange, and cuts the exchange's byte stream into execution reports
    for the other. */
module ExecutionEngine {
  import opened Common
  import opened MaskArithmetic
  import opened Ring
  import opened Wire

  datatype SendResult = Sent | WouldBlock | SendFailed

  datatype RecvResult = Chunk(bytes: seq<u8>) | NothingYet | Closed | RecvFailed

  function AsMessages(records: seq<Record>): seq<Message> {
    seq(|records|, i requires 0 <= i < |records| => Message(0, records[i]))
  }

  class Engine {
    const outbound: ShmRing
    const inbound: ShmRing
    const buffer: array<u8>
    var readIndex: nat
    var writeCursor: nat
    ghost var received: seq<u8>
    ghost var forwarded: seq<seq<u8>>

    /** Between iterations the buffer holds exactly the bytes of the incomplete record, and
        the inbound ring has been written exactly the whole records received. */
    ghost predicate Valid()
      reads this, buffer, inbound, inbound.slots
    {
      && buffer.Length == BUFFER
      && writeCursor < RECORD
      && buffer[..writeCursor] == Tail(received)
      && inbound.Valid() && inbound.log == AsMessages(Records(received))
      && inbound != outbound && inbound.slots != outbound.slots
      && (buffer as object) != (inbound.slots as object)
    }

    constructor (outbound: ShmRing, inbound: ShmRing)
      requires inbound.Valid() && inbound.log == [] && inbound != outbound && inbound.slots != outbound.slots
      ensures Valid() && received == [] && forwarded == [] && readIndex == 0
      ensures this.outbound == outbound && this.inbound == inbound && fresh(buffer) && buffer.Length == 1024
    {
      this.outbound, this.inbound := outbound, inbound;
      buffer := new u8[BUFFER](_ => 0);
      readIndex, writeCursor := 0, 0;
      received, forwarded := [], [];
    }

    /** Reads the next command from the outbound ring in place and sends its 19 bytes. */
    method Forward(result: SendResult)
      requires outbound.Valid() && readIndex < outbound.head
      modifies this`readIndex, this`forwarded
      ensures result.Sent? ==> readIndex == old(readIndex) + 1
      ensures result.Sent? ==>
                forwarded == old(forwarded) + [outbound.slots[old(readIndex) % outbound.capacity].data[..RECORD]]
      ensures !result.Sent? ==> readIndex == old(readIndex) && forwarded == old(forwarded)
    {
      var index := BitAnd(readIndex, outbound.capacity - 1);
      MaskIsRemainder(readIndex, outbound.capacity);
      var cmd := outbound.slots[index].data[..RECORD];
      if result.Sent? {
        forwarded := forwarded + [cmd];
        readIndex := readIndex + 1;
      }
    }

    /** One turn of the main loop, given what send and recv return; true when it exits. The
        process exits only when the network fails: the full-buffer exit is never taken. */
    method LoopIteration(send: SendResult, recv: RecvResult) returns (exited: bool)
      requires Valid() && outbound.Valid()
      requires recv.Chunk? ==> 0 < |recv.bytes| <= BUFFER - writeCursor
      modifies this, buffer, inbound, inbound.slots
      ensures Valid() && outbound.Valid() && outbound.log == old(outbound.log)
      ensures var waiting := old(readIndex) < outbound.head;
              && exited == ((waiting && send.SendFailed?)
                            || ((waiting ==> send.Sent?) && (recv.Closed? || recv.RecvFailed?)))
              && readIndex == (if waiting && send.Sent? then old(readIndex) + 1 else old(readIndex))
              && |forwarded| - |old(forwarded)| == readIndex - old(readIndex)
              && forwarded[..|old(forwarded)|] == old(forwarded)
              && received == (if (waiting ==> send.Sent?) && recv.Chunk?
                              then old(received) + recv.bytes else old(received))
      ensures readIndex > old(readIndex) && outbound.head <= old(readIndex) + outbound.capacity
              && |outbound.log[old(readIndex)].data| >= RECORD ==>
                forwarded[|old(forwarded)|] == outbound.log[old(readIndex)].data[..RECORD]
    {
      if readIndex < outbound.head {
        assert outbound.head <= readIndex + outbound.capacity ==>
            Holds(outbound.slots[readIndex % outbound.capacity], outbound.log[readIndex]);
        Forward(send);
        match send {
          case WouldBlock => return false;
          case SendFailed => return true;
          case Sent =>
        }
      }
      if writeCursor >= buffer.Length {
        return true;
      }
      match recv {
        case Closed => exited := true;
        case RecvFailed => exited := true;
        case NothingYet => exited := false;
        case Chunk(bytes) =>
          OnReceive(bytes);
          exited := false;
      }
    }

    /** One execution report goes into the inbound ring, stamped zero. */
    method ProcessExecution(report: Record)
      requires inbound.Valid()
      modifies inbound, inbound.slots
      ensures inbound.Valid() && inbound.log == old(inbound.log) + [Message(0, report)]
    {
      var panicked := inbound.Write(report, 0);
    }

    /** Takes a received chunk, hands on every whole record, and moves the rest to the front. */
    method OnReceive(chunk: seq<u8>)
      requires Valid() && |chunk| <= BUFFER - writeCursor
      modifies this, buffer, inbound, inbound.slots
      ensures Valid() && received == old(received) + chunk
      ensures readIndex == old(readIndex) && forwarded == old(forwarded)
    {
      ghost var emitted, rest := Records(received), Tail(received) + chunk;
      RecordsOfSplit(received, chunk);
      received := received + chunk;
      Append(chunk);
      while writeCursor >= RECORD
        invariant writeCursor <= BUFFER && buffer[..writeCursor] == rest
        invariant inbound.Valid() && inbound.log == AsMessages(emitted)
        invariant Records(received) == emitted + Records(rest) && Tail(received) == Tail(rest)
        invariant received == old(received) + chunk && readIndex == old(readIndex) && forwarded == old(forwarded)
        decreases writeCursor
      {
        ghost var report := DrainOne(rest, emitted);
        TakeOne(emitted, rest, report);
        emitted, rest := emitted + [report], rest[RECORD..];
      }
      assert emitted + [] == emitted;
    }

    // One turn of the drain loop.
    method DrainOne(ghost rest: seq<u8>, ghost emitted: seq<Record>) returns (ghost report: Record)
      requires buffer.Length == BUFFER && RECORD <= writeCursor <= BUFFER && buffer[..writeCursor] == rest
      requires inbound.Valid() && inbound.log == AsMessages(emitted)
      requires (buffer as object) != (inbound.slots as object)
      modifies this`writeCursor, buffer, inbound, inbound.slots
      ensures report == rest[..RECORD]
      ensures writeCursor == old(writeCursor) - RECORD && buffer[..writeCursor] == rest[RECORD..]
      ensures inbound.Valid() && inbound.log == AsMessages(emitted + [report])
    {
      var bytes: Record := buffer[..RECORD];
      report := bytes;
      ProcessExecution(bytes);
      assert inbound.log == AsMessages(emitted + [report]);
      var remaining := writeCursor - RECORD;
      if remaining > 0 {
        MoveToFront(remaining);
      }
      writeCursor := remaining;
    }

    method Append(chunk: seq<u8>)
      requires buffer.Length == BUFFER && writeCursor + |chunk| <= BUFFER
      modifies this`writeCursor, buffer
      ensures writeCursor == old(writeCursor) + |chunk|
      ensures buffer[..writeCursor] == old(buffer[..writeCursor]) + chunk
    {
      forall i | 0 <= i < |chunk| {
        buffer[writeCursor + i] := chunk[i];
      }
      writeCursor := writeCursor + |chunk|;
    }

    // memmove: all reads come before all writes.
    method MoveToFront(count: nat)
      requires RECORD + count <= buffer.Length
      modifies buffer
      ensures buffer[..count] == old(buffer[RECORD..RECORD + count])
    {
      forall i | 0 <= i < count {
        buffer[i] := buffer[RECORD + i];
      }
    }
  }

  lemma TakeOne(emitted: seq<Record>, rest: seq<u8>, report: Record)
    requires |rest| >= RECORD && report == rest[..RECORD]
    ensures emitted + Records(rest) == (emitted + [report]) + Records(rest[RECORD..])
    ensures Tail(rest) == Tail(rest[RECORD..])
  {
  }
}
