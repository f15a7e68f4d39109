/** No order is lost, repeated or reordered on the live path. */
module LivePathLaws {
  import opened Common
  import opened MaskArithmetic
  import opened Ring
  import opened RingProtocol
  import opened RingProtocolLaws
  import opened Wire
  import opened LiveEngine
  import opened LivePath

  /** The slots behind the reader's position fit the ring, the one being written included. */
  ghost predicate Fits(r: Shared)
    requires |r.readers| == 1
  {
    r.head + (if r.writer.Writing? then 1 else 0) <= r.readers[0].next + r.capacity
  }

  /** The outbound ring carries the commands sent, in order, the last perhaps still being written. */
  ghost predicate OutOk(out: Shared, sent: seq<OrderCommand>) {
    && Inv(out) && |out.readers| == 1 && !out.readers[0].checked && out.readers[0].next <= out.head
    && Fits(out)
    && |sent| == out.head + (if out.writer.Writing? then 1 else 0)
    && (forall n | 0 <= n < |sent| :: sent[n].orderId < ID_LIMIT)
    && (forall n | 0 <= n < out.head :: out.log[n].data == CommandBytes(sent[n]))
    && (out.writer.Writing? ==> out.writer.msg.data == CommandBytes(sent[out.head]))
  }

  /** The inbound ring carries the reports of the first commands, in order; the one being
      written is at the front of the gateway's buffer. The poller was never overrun. */
  ghost predicate InbOk(inb: Shared, sent: seq<OrderCommand>, tail: seq<u8>) {
    && Inv(inb) && |inb.readers| == 1 && inb.readers[0].checked
    && inb.readers[0].next <= inb.head <= |sent|
    && Fits(inb)
    && (forall n | 0 <= n < inb.head :: inb.log[n].data == EncodeReport(Echo(sent[n])))
    && (inb.writer.Writing? ==> |tail| >= RECORD && inb.writer.msg.data == tail[..RECORD])
    && (forall k | 0 <= k < |inb.readers[0].history| :: !inb.readers[0].history[k].Jumped?)
  }

  /** Between the rings: the exchange holds the commands last forwarded, and the bytes under
      way are the reports of those before them, from the first not yet reported on. */
  ghost predicate MiddleOk(
    sent: seq<OrderCommand>, orders: seq<OrderCommand>, bytes: seq<u8>, read: nat, reported: nat)
  {
    && |orders| <= read <= |sent| && reported <= read - |orders|
    && orders == sent[read - |orders|..read]
    && bytes == Flatten(ReportRecords(sent[reported..read - |orders|]))
  }

  ghost predicate LiveInv(s: Live) {
    && OutOk(s.out, s.sent) && InbOk(s.inb, s.sent, s.tail)
    && MiddleOk(s.sent, s.orders, s.tail + s.wire, s.out.readers[0].next, s.inb.head)
    && |s.tail| <= BUFFER
    && s.confirmed == Echoes(s.sent[..s.inb.readers[0].next])
  }

  lemma StartLiveOk(outCapacity: nat, inbCapacity: nat)
    requires IsPow2(outCapacity) && IsPow2(inbCapacity)
    ensures LiveInv(StartLive(outCapacity, inbCapacity))
  {
    StartOk(outCapacity, [Reader(false, 0, 0, Ready, [])]);
    StartOk(inbCapacity, [Reader(true, 0, 0, Ready, [])]);
  }

  // A reader inside a ring that fits is never on the slot being overwritten.
  lemma SlotIntact(r: Shared)
    requires |r.readers| == 1 && Fits(r) && r.readers[0].next < r.head
    ensures Intact(r, r.readers[0].next) && !Overrun(r)
  {
  }

  // A finished copy of an intact slot is the record in its message.
  lemma CopyIsRecord(s: Shared, q: Reader)
    requires Inv(s) && ReaderOk(s, q) && Copied(q) && Intact(s, q.next)
    requires |s.log[q.next].data| >= RECORD
    ensures RecordOf(q.phase.copy) == s.log[q.next].data[..RECORD]
  {
    var m := s.log[q.next];
    forall i | 0 <= i < RECORD ensures RecordOf(q.phase.copy)[i] == m.data[i] {
      assert q.phase.copy[2 + i] == Cell(m, 2 + i);
    }
  }

  lemma OutKept(out: Shared, sent: seq<OrderCommand>, act: Action)
    requires OutOk(out, sent) && Enabled(out, act)
    requires act.Store? || act.Publish? || act == Load(0) || act == Retry(0) || (act.Copy? && act.r == 0)
    ensures OutOk(Next(out, act), sent) && Next(out, act).readers[0].next == out.readers[0].next
  {
    StepOk(out, act);
  }

  lemma OutStepOk(s: Live, a: Step)
    requires LiveInv(s) && Can(s, a) && OutStep(a).Some? && !a.SendOrder? && !a.Forward?
    ensures LiveInv(Do(s, a))
  {
    OutKept(s.out, s.sent, OutStep(a).value);
  }

  lemma OutBegun(out: Shared, sent: seq<OrderCommand>, cmd: OrderCommand, now: nat)
    requires OutOk(out, sent) && Enabled(out, Begin(Message(now, CommandBytes(cmd)))) && cmd.orderId < ID_LIMIT
    requires out.head < out.readers[0].next + out.capacity
    ensures var out' := Next(out, Begin(Message(now, CommandBytes(cmd))));
            OutOk(out', sent + [cmd]) && out'.readers == out.readers
  {
    StepOk(out, Begin(Message(now, CommandBytes(cmd))));
  }

  lemma MoreSent(sent: seq<OrderCommand>, cmd: OrderCommand, i: nat, j: nat)
    requires i <= j <= |sent|
    ensures (sent + [cmd])[i..j] == sent[i..j]
  {
  }

  lemma InbMoreSent(inb: Shared, sent: seq<OrderCommand>, tail: seq<u8>, cmd: OrderCommand)
    requires InbOk(inb, sent, tail)
    ensures InbOk(inb, sent + [cmd], tail)
  {
  }

  lemma MiddleMoreSent(
    sent: seq<OrderCommand>, orders: seq<OrderCommand>, bytes: seq<u8>, read: nat, reported: nat, cmd: OrderCommand)
    requires MiddleOk(sent, orders, bytes, read, reported)
    ensures MiddleOk(sent + [cmd], orders, bytes, read, reported)
  {
    MoreSent(sent, cmd, reported, read - |orders|);
    MoreSent(sent, cmd, read - |orders|, read);
  }

  // The invariant put together again once an order is being written.
  lemma SentMoved(s: Live, out: Shared, cmd: OrderCommand)
    requires LiveInv(s) && OutOk(out, s.sent + [cmd]) && out.readers == s.out.readers
    requires InbOk(s.inb, s.sent + [cmd], s.tail)
    requires MiddleOk(s.sent + [cmd], s.orders, s.tail + s.wire, out.readers[0].next, s.inb.head)
    ensures LiveInv(s.(out := out, sent := s.sent + [cmd]))
  {
    MoreSent(s.sent, cmd, 0, s.inb.readers[0].next);
  }

  lemma SendOrderOk(s: Live, a: Step)
    requires LiveInv(s) && Can(s, a) && a.SendOrder? && Careful(s, a)
    ensures LiveInv(Do(s, a))
  {
    OutBegun(s.out, s.sent, a.cmd, a.now);
    InbMoreSent(s.inb, s.sent, s.tail, a.cmd);
    MiddleMoreSent(s.sent, s.orders, s.tail + s.wire, s.out.readers[0].next, s.inb.head, a.cmd);
    SentMoved(s, Next(s.out, OutStep(a).value), a.cmd);
  }

  lemma OutTaken(out: Shared, sent: seq<OrderCommand>)
    requires OutOk(out, sent) && Enabled(out, Finish(0)) && Intact(out, out.readers[0].next)
    ensures var n := out.readers[0].next;
            && OutOk(Next(out, Finish(0)), sent) && Next(out, Finish(0)).readers[0].next == n + 1
            && n < |sent| && DecodeCommand(RecordOf(out.readers[0].phase.copy)) == sent[n]
  {
    StepOk(out, Finish(0));
    var q := out.readers[0];
    assert ReaderOk(out, q);
    CopyIsRecord(out, q);
    assert CommandBytes(sent[q.next])[..RECORD] == EncodeCommand(sent[q.next]);
    CommandRoundTrip(sent[q.next]);
  }

  lemma MiddleForwarded(sent: seq<OrderCommand>, orders: seq<OrderCommand>, bytes: seq<u8>, read: nat, reported: nat)
    requires MiddleOk(sent, orders, bytes, read, reported) && read < |sent|
    ensures MiddleOk(sent, orders + [sent[read]], bytes, read + 1, reported)
  {
    assert sent[read - |orders|..read] + [sent[read]] == sent[read - |orders|..read + 1];
  }

  lemma CopyingBehindHead(s: Shared)
    requires Inv(s) && |s.readers| == 1 && s.readers[0].phase.Copying?
    ensures s.readers[0].next < s.head
  {
    assert ReaderOk(s, s.readers[0]);
  }

  // The invariant put together again once the outbound side has moved.
  lemma OutMoved(s: Live, s': Live, out: Shared, orders: seq<OrderCommand>)
    requires s' == s.(out := out, orders := orders)
    requires LiveInv(s) && OutOk(out, s.sent)
    requires MiddleOk(s.sent, orders, s.tail + s.wire, out.readers[0].next, s.inb.head)
    ensures LiveInv(s')
  {
  }

  lemma DoForward(s: Live, cmd: OrderCommand)
    requires Can(s, Forward) && cmd == DecodeCommand(RecordOf(s.out.readers[0].phase.copy))
    ensures Do(s, Forward) == s.(out := Next(s.out, Finish(0)), orders := s.orders + [cmd])
  {
  }

  // The command the gateway took is the next one sent.
  lemma ForwardTakesNext(s: Live, n: nat) returns (out: Shared)
    requires LiveInv(s) && Can(s, Forward) && n == s.out.readers[0].next
    ensures n < |s.sent| && Do(s, Forward) == s.(out := out, orders := s.orders + [s.sent[n]])
    ensures OutOk(out, s.sent) && out.readers[0].next == n + 1
  {
    out := Next(s.out, Finish(0));
    CopyingBehindHead(s.out);
    SlotIntact(s.out);
    OutTaken(s.out, s.sent);
    DoForward(s, s.sent[n]);
  }

  lemma ForwardOk(s: Live)
    requires LiveInv(s) && Can(s, Forward)
    ensures LiveInv(Do(s, Forward))
  {
    var n := s.out.readers[0].next;
    var out := ForwardTakesNext(s, n);
    MiddleForwarded(s.sent, s.orders, s.tail + s.wire, n, s.inb.head);
    OutMoved(s, Do(s, Forward), out, s.orders + [s.sent[n]]);
  }

  lemma MiddleEchoed(sent: seq<OrderCommand>, orders: seq<OrderCommand>, bytes: seq<u8>, read: nat, reported: nat)
    requires MiddleOk(sent, orders, bytes, read, reported) && orders != []
    ensures MiddleOk(sent, orders[1..], bytes + EncodeReport(Echo(orders[0])), read, reported)
  {
    var e := read - |orders|;
    assert orders[0] == sent[e] && orders[1..] == sent[e + 1..read];
    var r := EncodeReport(Echo(sent[e]));
    assert ReportRecords(sent[reported..e + 1]) == ReportRecords(sent[reported..e]) + [r];
    FlattenPush(ReportRecords(sent[reported..e]), r);
  }

  // The invariant put together again once a report is on the wire.
  lemma WireMoved(s: Live, s': Live, orders: seq<OrderCommand>, wire: seq<u8>)
    requires s' == s.(orders := orders, wire := wire)
    requires LiveInv(s) && MiddleOk(s.sent, orders, s.tail + wire, s.out.readers[0].next, s.inb.head)
    ensures LiveInv(s')
  {
  }

  lemma OneMoreRecord(tail: seq<u8>, wire: seq<u8>, r: Record)
    ensures tail + (wire + r) == (tail + wire) + r
  {
  }

  lemma ExchangeEchoOk(s: Live)
    requires LiveInv(s) && Can(s, ExchangeEcho)
    ensures LiveInv(Do(s, ExchangeEcho))
  {
    var r := EncodeReport(Echo(s.orders[0]));
    MiddleEchoed(s.sent, s.orders, s.tail + s.wire, s.out.readers[0].next, s.inb.head);
    OneMoreRecord(s.tail, s.wire, r);
    WireMoved(s, Do(s, ExchangeEcho), s.orders[1..], s.wire + r);
  }

  lemma ReceiveOk(s: Live, n: nat)
    requires LiveInv(s) && Can(s, Receive(n))
    ensures LiveInv(Do(s, Receive(n)))
  {
    assert (s.tail + s.wire[..n]) + s.wire[n..] == s.tail + s.wire;
    assert s.inb.writer.Idle?;
  }

  lemma InbKept(inb: Shared, sent: seq<OrderCommand>, tail: seq<u8>, act: Action)
    requires InbOk(inb, sent, tail) && Enabled(inb, act)
    requires act.Store? || act == Load(0) || (act.Copy? && act.r == 0)
          || (|tail| >= RECORD && act == Begin(Message(0, tail[..RECORD])))
    requires act.Begin? ==> inb.head < inb.readers[0].next + inb.capacity
    ensures InbOk(Next(inb, act), sent, tail) && Next(inb, act).readers[0].next == inb.readers[0].next
    ensures Next(inb, act).head == inb.head
  {
    StepOk(inb, act);
  }

  lemma InbStepOk(s: Live, a: Step)
    requires LiveInv(s) && Can(s, a) && InbStep(s, a).Some? && !a.PublishReport? && !a.PollTake? && Careful(s, a)
    ensures LiveInv(Do(s, a))
  {
    InbKept(s.inb, s.sent, s.tail, InbStep(s, a).value);
  }

  lemma MiddleReported(sent: seq<OrderCommand>, orders: seq<OrderCommand>, bytes: seq<u8>, read: nat, reported: nat)
    requires MiddleOk(sent, orders, bytes, read, reported) && |bytes| >= RECORD
    ensures reported < |sent| && bytes[..RECORD] == EncodeReport(Echo(sent[reported]))
    ensures MiddleOk(sent, orders, bytes[RECORD..], read, reported + 1)
  {
    var e := read - |orders|;
    var rest := ReportRecords(sent[reported..e]);
    assert rest != [] && rest[0] == EncodeReport(Echo(sent[reported]));
    assert rest[1..] == ReportRecords(sent[reported + 1..e]);
  }

  lemma InbPublished(inb: Shared, sent: seq<OrderCommand>, tail: seq<u8>, tail': seq<u8>)
    requires InbOk(inb, sent, tail) && Enabled(inb, Publish)
    requires inb.head < |sent| && tail[..RECORD] == EncodeReport(Echo(sent[inb.head]))
    ensures InbOk(Next(inb, Publish), sent, tail') && Next(inb, Publish).head == inb.head + 1
    ensures Next(inb, Publish).readers == inb.readers
  {
    StepOk(inb, Publish);
  }

  // The invariant put together again once a report is published and leaves the buffer.
  lemma TailMoved(s: Live, s': Live, inb: Shared, tail: seq<u8>)
    requires s' == s.(inb := inb, tail := tail)
    requires LiveInv(s) && InbOk(inb, s.sent, tail) && inb.readers == s.inb.readers && |tail| <= BUFFER
    requires MiddleOk(s.sent, s.orders, tail + s.wire, s.out.readers[0].next, inb.head)
    ensures LiveInv(s')
  {
  }

  lemma FrontOf(tail: seq<u8>, wire: seq<u8>)
    requires |tail| >= RECORD
    ensures tail[..RECORD] == (tail + wire)[..RECORD] && tail[RECORD..] + wire == (tail + wire)[RECORD..]
  {
  }

  // The front record of the buffer reports the first order not yet reported.
  lemma FrontReports(s: Live)
    requires LiveInv(s) && |s.tail| >= RECORD
    ensures s.inb.head < |s.sent| && s.tail[..RECORD] == EncodeReport(Echo(s.sent[s.inb.head]))
    ensures MiddleOk(s.sent, s.orders, s.tail[RECORD..] + s.wire, s.out.readers[0].next, s.inb.head + 1)
  {
    FrontOf(s.tail, s.wire);
    MiddleReported(s.sent, s.orders, s.tail + s.wire, s.out.readers[0].next, s.inb.head);
  }

  lemma DoPublish(s: Live)
    requires Can(s, PublishReport)
    ensures Do(s, PublishReport) == s.(inb := Next(s.inb, Publish), tail := s.tail[RECORD..])
  {
  }

  lemma DoStart(s: Live)
    requires Can(s, StartReport)
    ensures Do(s, StartReport) == s.(inb := Next(s.inb, Begin(Message(0, s.tail[..RECORD]))))
  {
  }

  lemma PublishReportOk(s: Live)
    requires LiveInv(s) && Can(s, PublishReport)
    ensures LiveInv(Do(s, PublishReport))
  {
    FrontReports(s);
    InbPublished(s.inb, s.sent, s.tail, s.tail[RECORD..]);
    DoPublish(s);
    TailMoved(s, Do(s, PublishReport), Next(s.inb, Publish), s.tail[RECORD..]);
  }

  lemma InbTaken(inb: Shared, sent: seq<OrderCommand>, tail: seq<u8>)
    requires InbOk(inb, sent, tail) && Enabled(inb, Finish(0)) && Intact(inb, inb.readers[0].next)
    requires !Overrun(inb) && forall n | 0 <= n < |sent| :: sent[n].orderId < ID_LIMIT
    ensures var n := inb.readers[0].next;
            && InbOk(Next(inb, Finish(0)), sent, tail) && Next(inb, Finish(0)).readers[0].next == n + 1
            && Next(inb, Finish(0)).head == inb.head
            && n < |sent| && DecodeReport(RecordOf(inb.readers[0].phase.copy)) == Echo(sent[n])
  {
    StepOk(inb, Finish(0));
    var q := inb.readers[0];
    assert ReaderOk(inb, q);
    CopyIsRecord(inb, q);
    assert EncodeReport(Echo(sent[q.next]))[..RECORD] == EncodeReport(Echo(sent[q.next]));
    ReportRoundTrip(Echo(sent[q.next]));
  }

  // The invariant put together again once a report has been taken.
  lemma InbMoved(s: Live, inb: Shared, n: nat)
    requires LiveInv(s) && InbOk(inb, s.sent, s.tail)
    requires inb.head == s.inb.head
    requires n == s.inb.readers[0].next < |s.sent| && inb.readers[0].next == n + 1
    ensures LiveInv(s.(inb := inb, confirmed := s.confirmed + [Echo(s.sent[n])]))
  {
    assert Echoes(s.sent[..n + 1]) == Echoes(s.sent[..n]) + [Echo(s.sent[n])];
  }

  lemma PollTakeOk(s: Live)
    requires LiveInv(s) && Can(s, PollTake)
    ensures LiveInv(Do(s, PollTake))
  {
    CopyingBehindHead(s.inb);
    SlotIntact(s.inb);
    InbTaken(s.inb, s.sent, s.tail);
    InbMoved(s, Next(s.inb, Finish(0)), s.inb.readers[0].next);
  }

  lemma LiveStepOk(s: Live, a: Step)
    requires LiveInv(s) && Can(s, a) && Careful(s, a)
    ensures LiveInv(Do(s, a))
  {
    match a
    case SendOrder(_, _) => SendOrderOk(s, a);
    case StoreOrder(_) => OutStepOk(s, a);
    case PublishOrder => OutStepOk(s, a);
    case GatewayLoad => OutStepOk(s, a);
    case GatewayCopy(_) => OutStepOk(s, a);
    case GatewayRetry => OutStepOk(s, a);
    case Forward => ForwardOk(s);
    case ExchangeEcho => ExchangeEchoOk(s);
    case Receive(n) => ReceiveOk(s, n);
    case StartReport => InbStepOk(s, a);
    case StoreReport(_) => InbStepOk(s, a);
    case PublishReport => PublishReportOk(s);
    case PollLoad => InbStepOk(s, a);
    case PollCopy(_) => InbStepOk(s, a);
    case PollTake => PollTakeOk(s);
  }

  lemma {:induction false} LiveRunOk(s: Live, steps: seq<Step>)
    requires LiveInv(s) && LiveRun(s, steps)
    ensures LiveInv(LivePath.After(s, steps))
    decreases |steps|
  {
    if steps == [] {
    } else {
      LiveStepOk(s, steps[0]);
      LiveRunOk(Do(s, steps[0]), steps[1..]);
    }
  }

  /** The trading engine can see to this alone: sending only while its unconfirmed orders fit
      both rings, it never lets either backlog reach the capacity. */
  lemma {:induction false} ReservedRunIsCareful(s: Live, steps: seq<Step>)
    requires LiveInv(s) && ReservedRun(s, steps)
    requires |s.sent| <= |s.confirmed| + s.out.capacity && |s.sent| <= |s.confirmed| + s.inb.capacity
    ensures LiveRun(s, steps)
    decreases |steps|
  {
    if steps == [] {
    } else {
      ReservedIsCareful(s, steps[0]);
      LiveStepOk(s, steps[0]);
      StillReserved(s, steps[0]);
      ReservedRunIsCareful(Do(s, steps[0]), steps[1..]);
    }
  }

  lemma ReservedIsCareful(s: Live, a: Step)
    requires LiveInv(s) && Can(s, a) && Reserved(s, a)
    requires |s.sent| <= |s.confirmed| + s.out.capacity && |s.sent| <= |s.confirmed| + s.inb.capacity
    ensures Careful(s, a)
  {
    if a.StartReport? { FrontReports(s); }
  }

  lemma StillReserved(s: Live, a: Step)
    requires Can(s, a) && Reserved(s, a)
    requires |s.sent| <= |s.confirmed| + s.out.capacity && |s.sent| <= |s.confirmed| + s.inb.capacity
    ensures var s' := Do(s, a);
            |s'.sent| <= |s'.confirmed| + s'.out.capacity && |s'.sent| <= |s'.confirmed| + s'.inb.capacity
  {
  }

  function FirstRecord(data: seq<u8>): Record {
    if |data| >= RECORD then data[..RECORD] else seq(RECORD, _ => 0)
  }

  /** The reports carried by inbound messages, by records, and the fills of outbound commands. */
  function ReportsIn(ms: seq<Message>): seq<ExecutionReport> {
    seq(|ms|, i requires 0 <= i < |ms| => DecodeReport(FirstRecord(ms[i].data)))
  }

  function ReportsOf(records: seq<Record>): seq<ExecutionReport> {
    seq(|records|, i requires 0 <= i < |records| => DecodeReport(records[i]))
  }

  function FillsOf(ms: seq<Message>): seq<ExecutionReport> {
    seq(|ms|, i requires 0 <= i < |ms| => Echo(DecodeCommand(FirstRecord(ms[i].data))))
  }

  lemma CommandInMessage(m: Message, cmd: OrderCommand)
    requires m.data == CommandBytes(cmd) && cmd.orderId < ID_LIMIT
    ensures DecodeCommand(FirstRecord(m.data)) == cmd
  {
    assert CommandBytes(cmd)[..RECORD] == EncodeCommand(cmd);
    CommandRoundTrip(cmd);
  }

  lemma FillsAre(ms: seq<Message>, cmds: seq<OrderCommand>)
    requires |ms| == |cmds|
    requires forall i | 0 <= i < |ms| :: ms[i].data == CommandBytes(cmds[i]) && cmds[i].orderId < ID_LIMIT
    ensures FillsOf(ms) == Echoes(cmds)
  {
    forall i | 0 <= i < |ms| ensures FillsOf(ms)[i] == Echoes(cmds)[i] {
      CommandInMessage(ms[i], cmds[i]);
    }
  }

  lemma OutboundStage(out: Shared, sent: seq<OrderCommand>)
    requires OutOk(out, sent)
    ensures FillsOf(out.log[out.readers[0].next..]) == Echoes(sent[out.readers[0].next..out.head])
    ensures (if out.writer.Writing? then FillsOf([out.writer.msg]) else []) == Echoes(sent[out.head..])
  {
    FillsAre(out.log[out.readers[0].next..], sent[out.readers[0].next..out.head]);
    if out.writer.Writing? { FillsAre([out.writer.msg], sent[out.head..]); }
  }

  lemma InboundStage(inb: Shared, sent: seq<OrderCommand>, tail: seq<u8>)
    requires InbOk(inb, sent, tail) && forall n | 0 <= n < |sent| :: sent[n].orderId < ID_LIMIT
    ensures ReportsIn(inb.log[inb.readers[0].next..]) == Echoes(sent[inb.readers[0].next..inb.head])
  {
    var p := inb.readers[0].next;
    forall i | 0 <= i < inb.head - p
      ensures ReportsIn(inb.log[p..])[i] == Echoes(sent[p..inb.head])[i]
    {
      assert EncodeReport(Echo(sent[p + i]))[..RECORD] == EncodeReport(Echo(sent[p + i]));
      ReportRoundTrip(Echo(sent[p + i]));
    }
  }

  lemma WireStage(cmds: seq<OrderCommand>)
    requires forall n | 0 <= n < |cmds| :: cmds[n].orderId < ID_LIMIT
    ensures ReportsOf(Records(Flatten(ReportRecords(cmds)))) == Echoes(cmds)
  {
    RecordsOfFlatten(ReportRecords(cmds));
    forall i | 0 <= i < |cmds| ensures DecodeReport(ReportRecords(cmds)[i]) == Echo(cmds[i]) {
      ReportRoundTrip(Echo(cmds[i]));
    }
  }

  lemma EchoesSplit(cmds: seq<OrderCommand>, a: nat, b: nat)
    requires a <= b <= |cmds|
    ensures Echoes(cmds[..a]) + Echoes(cmds[a..b]) == Echoes(cmds[..b])
  {
  }

  lemma EchoesInStages(cmds: seq<OrderCommand>, a: nat, b: nat, c: nat, d: nat)
    requires a <= b <= c <= d <= |cmds|
    ensures Echoes(cmds) == Echoes(cmds[..a]) + Echoes(cmds[a..b]) + Echoes(cmds[b..c]) + Echoes(cmds[c..d]) + Echoes(cmds[d..])
  {
    EchoesSplit(cmds, a, b);
    EchoesSplit(cmds, b, c);
    EchoesSplit(cmds, c, d);
    EchoesSplit(cmds, d, |cmds|);
    assert cmds[..|cmds|] == cmds && cmds[d..|cmds|] == cmds[d..];
  }

  /** The orders sent are those confirmed, then those in the inbound ring, those on the wire or
      in the gateway's buffer, those at the exchange, those in the outbound ring and the one
      being written, in this order. */
  ghost predicate NothingLost(s: Live) {
    && |s.out.readers| == |s.inb.readers| == 1
    && s.out.readers[0].next <= |s.out.log| && s.inb.readers[0].next <= |s.inb.log|
    && Echoes(s.sent)
    == s.confirmed + ReportsIn(s.inb.log[s.inb.readers[0].next..]) + ReportsOf(Records(s.tail + s.wire))
     + Echoes(s.orders) + FillsOf(s.out.log[s.out.readers[0].next..])
     + (if s.out.writer.Writing? then FillsOf([s.out.writer.msg]) else [])
  }

  /** On every run in which no process starts writing into a full ring, however many orders are
      at the exchange or on the wire, no order is lost, repeated or reordered, no bytes are left
      over, and no poll is ever overrun. */
  lemma NothingLostOrReordered(outCapacity: nat, inbCapacity: nat, steps: seq<Step>)
    requires IsPow2(outCapacity) && IsPow2(inbCapacity)
    requires LiveRun(StartLive(outCapacity, inbCapacity), steps)
    ensures var s := LivePath.After(StartLive(outCapacity, inbCapacity), steps);
            && NothingLost(s) && Tail(s.tail + s.wire) == [] && !Overrun(s.inb)
            && forall k | 0 <= k < |s.inb.readers[0].history| :: !s.inb.readers[0].history[k].Jumped?
  {
    StartLiveOk(outCapacity, inbCapacity);
    LiveRunOk(StartLive(outCapacity, inbCapacity), steps);
    StagesAddUp(LivePath.After(StartLive(outCapacity, inbCapacity), steps));
  }

  lemma StagesAddUp(s: Live)
    requires LiveInv(s)
    ensures NothingLost(s) && Tail(s.tail + s.wire) == []
  {
    var p, k, g, h := s.inb.readers[0].next, s.inb.head, s.out.readers[0].next, s.out.head;
    InboundStage(s.inb, s.sent, s.tail);
    MiddleStage(s.sent, s.orders, s.tail + s.wire, g, k);
    OutboundStage(s.out, s.sent);
    StagesJoin(s.sent, p, k, g - |s.orders|, g, h,
               s.confirmed, ReportsIn(s.inb.log[p..]), ReportsOf(Records(s.tail + s.wire)), Echoes(s.orders),
               FillsOf(s.out.log[g..]), if s.out.writer.Writing? then FillsOf([s.out.writer.msg]) else []);
  }

  // Six stages that echo adjoining stretches of the orders sent echo them all.
  lemma StagesJoin(
    sent: seq<OrderCommand>, p: nat, k: nat, e: nat, g: nat, h: nat,
    s1: seq<ExecutionReport>, s2: seq<ExecutionReport>, s3: seq<ExecutionReport>,
    s4: seq<ExecutionReport>, s5: seq<ExecutionReport>, s6: seq<ExecutionReport>)
    requires p <= k <= e <= g <= h <= |sent|
    requires s1 == Echoes(sent[..p]) && s2 == Echoes(sent[p..k]) && s3 == Echoes(sent[k..e])
    requires s4 == Echoes(sent[e..g]) && s5 == Echoes(sent[g..h]) && s6 == Echoes(sent[h..])
    ensures Echoes(sent) == s1 + s2 + s3 + s4 + s5 + s6
  {
    EchoesSplit(sent, p, k);
    EchoesInStages(sent, k, e, g, h);
  }

  lemma MiddleStage(sent: seq<OrderCommand>, orders: seq<OrderCommand>, bytes: seq<u8>, read: nat, reported: nat)
    requires MiddleOk(sent, orders, bytes, read, reported)
    requires forall n | 0 <= n < |sent| :: sent[n].orderId < ID_LIMIT
    ensures ReportsOf(Records(bytes)) == Echoes(sent[reported..read - |orders|]) && Tail(bytes) == []
    ensures Echoes(orders) == Echoes(sent[read - |orders|..read])
  {
    var waiting := sent[reported..read - |orders|];
    WireStage(waiting);
    RecordsOfFlatten(ReportRecords(waiting));
  }
}
