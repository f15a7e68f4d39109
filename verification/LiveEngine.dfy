/** The trading engine's end of the two rings. */
module LiveEngine {
  import opened Common
  import opened Bytes
  import opened Ring
  import opened Wire

  datatype Poll = Report(report: ExecutionReport) | NoReport | Fatal

  /** Rust writes the side as a 4-byte enum, so three zero bytes follow the 19 the gateway reads. */
  function CommandBytes(cmd: OrderCommand): seq<u8> {
    EncodeCommand(cmd) + [0, 0, 0]
  }

  /** Rust's bytes of a command: the 19 the gateway sends, whose last is the low byte of the
      4-byte side. */
  lemma CommandBytesLayout(cmd: OrderCommand)
    requires cmd.orderId < 0x1_0000_0000_0000_0000
    ensures var s := CommandBytes(cmd);
            && |s| == 22 && CommandFields(s[..RECORD], cmd)
            && WordLE(s, 18, 4) == if cmd.side == Buy then 0 else 1
  {
    var s := CommandBytes(cmd);
    assert s[..RECORD] == EncodeCommand(cmd);
    CommandLayout(EncodeCommand(cmd), cmd);
    assert s[18] == EncodeCommand(cmd)[18];
    assert WordLE(s, 18, 1) == s[18] * Pow256(0);
    assert WordLE(s, 18, 2) == WordLE(s, 18, 1) && WordLE(s, 18, 3) == WordLE(s, 18, 2);
  }

  class ShmGateway {
    const outbound: ShmRing
    const inbound: ShmRing
    var nextSeq: nat

    constructor (outbound: ShmRing, inbound: ShmRing)
      ensures this.outbound == outbound && this.inbound == inbound && nextSeq == 0
    {
      this.outbound, this.inbound, nextSeq := outbound, inbound, 0;
    }

    method SendOrder(cmd: OrderCommand, now: nat)
      requires outbound.Valid()
      modifies outbound, outbound.slots
      ensures outbound.Valid() && outbound.log == old(outbound.log) + [Message(now, CommandBytes(cmd))]
    {
      var panicked := outbound.Write(CommandBytes(cmd), now);
    }

    /** Hands over the next report; fatal exactly when the ring has overrun it. */
    method PollConfirmedOrders() returns (r: Poll)
      requires inbound.Valid() && forall n | 0 <= n < |inbound.log| :: |inbound.log[n].data| >= RECORD
      modifies this`nextSeq
      ensures r.NoReport? <==> old(nextSeq) >= |inbound.log|
      ensures r.Fatal? <==> old(nextSeq) + inbound.capacity < |inbound.log|
      ensures r.Report? ==> nextSeq == old(nextSeq) + 1
      ensures r.Report? ==> r.report == DecodeReport(inbound.log[old(nextSeq)].data[..RECORD])
      ensures !r.Report? ==> nextSeq == old(nextSeq)
    {
      var result := inbound.Read(nextSeq);
      match result {
        case Success(slot) =>
          assert slot.data[..RECORD] == inbound.log[nextSeq].data[..RECORD];
          r := Report(DecodeReport(slot.data[..RECORD]));
          nextSeq := nextSeq + 1;
        case Empty => r := NoReport;
        case Reset => r := Fatal;
        case Overlapped(_) => r := Fatal;
        case Interrupted(_) => r := Fatal;
      }
    }
  }
}
