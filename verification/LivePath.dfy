/** The live order path, word by word: the trading engine writes commands into the outbound
    ring; the gateway reads them unchecked and sends them; the exchange echoes each as a fill;
    the byte stream reaches the gateway in arbitrary chunks, is cut into records and written to
    the inbound ring; the trading engine polls. All of these steps interleave freely. */
module LivePath {
  import opened Common
  import opened Ring
  import opened RingProtocol
  import opened Wire
  import opened LiveEngine

  const ID_LIMIT: nat := 0x1_0000_0000_0000_0000

  /** `sent` and `confirmed` record what the trading engine handed to send_order and got back
      from polls; `orders` wait at the exchange; `wire` is the byte stream under way and `tail`
      the gateway's buffer up to its write cursor. */
  datatype Live = Live(
    out: Shared, inb: Shared, sent: seq<OrderCommand>, orders: seq<OrderCommand>,
    wire: seq<u8>, tail: seq<u8>, confirmed: seq<ExecutionReport>)

  datatype Step =
    | SendOrder(cmd: OrderCommand, now: nat) | StoreOrder(c: nat) | PublishOrder
    | GatewayLoad | GatewayCopy(c: nat) | GatewayRetry | Forward
    | ExchangeEcho
    | Receive(n: nat)
    | StartReport | StoreReport(c: nat) | PublishReport
    | PollLoad | PollCopy(c: nat) | PollTake

  /** The step a live step makes on the outbound ring, and on the inbound ring. */
  function OutStep(a: Step): Option<Action> {
    match a
    case SendOrder(cmd, now) => Some(Begin(Message(now, CommandBytes(cmd))))
    case StoreOrder(c) => Some(Store(c))
    case PublishOrder => Some(Publish)
    case GatewayLoad => Some(Load(0))
    case GatewayCopy(c) => Some(Copy(0, c))
    case GatewayRetry => Some(Retry(0))
    case Forward => Some(Finish(0))
    case _ => None
  }

  function InbStep(s: Live, a: Step): Option<Action> {
    match a
    case StartReport => if |s.tail| >= RECORD then Some(Begin(Message(0, s.tail[..RECORD]))) else None
    case StoreReport(c) => Some(Store(c))
    case PublishReport => Some(Publish)
    case PollLoad => Some(Load(0))
    case PollCopy(c) => Some(Copy(0, c))
    case PollTake => Some(Finish(0))
    case _ => None
  }

  predicate ByEngine(a: Step) {
    a.SendOrder? || a.StoreOrder? || a.PublishOrder? || a.PollLoad? || a.PollCopy? || a.PollTake?
  }

  predicate Can(s: Live, a: Step) {
    && (ByEngine(a) ==> !Stopped(s.inb))
    && (OutStep(a).Some? ==> Enabled(s.out, OutStep(a).value))
    && (InbStep(s, a).Some? ==> Enabled(s.inb, InbStep(s, a).value))
    && match a
       case SendOrder(cmd, _) => cmd.orderId < ID_LIMIT
       case ExchangeEcho => s.orders != []
       case Receive(n) => |s.tail| < RECORD && 0 < n <= |s.wire| && n <= BUFFER - |s.tail|
       case StartReport => |s.tail| >= RECORD
       case PublishReport => |s.tail| >= RECORD
       case _ => true
  }

  /** The first 19 data bytes of a slot copy. */
  function RecordOf(copy: map<nat, nat>): Record
    requires WholeSlot(copy)
  {
    seq(RECORD, i requires 0 <= i < RECORD => copy[2 + i] % 0x100)
  }

  function Do(s: Live, a: Step): Live
    requires Can(s, a)
  {
    var s1 := s.(
      out := if OutStep(a).Some? then Next(s.out, OutStep(a).value) else s.out,
      inb := if InbStep(s, a).Some? then Next(s.inb, InbStep(s, a).value) else s.inb);
    match a
    case SendOrder(cmd, _) => s1.(sent := s.sent + [cmd])
    case Forward => s1.(orders := s.orders + [DecodeCommand(RecordOf(s.out.readers[0].phase.copy))])
    case ExchangeEcho => s1.(orders := s.orders[1..], wire := s.wire + EncodeReport(Echo(s.orders[0])))
    case Receive(n) => s1.(tail := s.tail + s.wire[..n], wire := s.wire[n..])
    case PublishReport => s1.(tail := s.tail[RECORD..])
    case PollTake =>
      if Overrun(s.inb) then s1
      else s1.(confirmed := s.confirmed + [DecodeReport(RecordOf(s.inb.readers[0].phase.copy))])
    case _ => s1
  }

  /** The trading engine's last poll was overrun, which is fatal: it makes no further step. */
  predicate Stopped(inb: Shared) {
    |inb.readers| > 0 &&
    var h := inb.readers[0].history;
    h != [] && h[|h| - 1].Jumped?
  }

  /** The polling read has been lapped: it is fatal when it ends. */
  predicate Overrun(inb: Shared) {
    |inb.readers| > 0 && inb.head > inb.readers[0].next + inb.capacity
  }

  /** A process starts writing into a ring only while that ring's backlog, the messages
      published and not yet taken, is below its capacity. */
  predicate Careful(s: Live, a: Step) {
    && |s.out.readers| == 1 && |s.inb.readers| == 1
    && (a.SendOrder? ==> s.out.head < s.out.readers[0].next + s.out.capacity)
    && (a.StartReport? ==> s.inb.head < s.inb.readers[0].next + s.inb.capacity)
  }

  /** The trading engine sends only while its unconfirmed orders fit both rings. */
  predicate Reserved(s: Live, a: Step) {
    a.SendOrder? ==>
      |s.sent| < |s.confirmed| + s.out.capacity && |s.sent| < |s.confirmed| + s.inb.capacity
  }

  predicate ReservedRun(s: Live, steps: seq<Step>)
    decreases |steps|
  {
    steps == [] || (Can(s, steps[0]) && Reserved(s, steps[0]) && ReservedRun(Do(s, steps[0]), steps[1..]))
  }

  predicate LiveRun(s: Live, steps: seq<Step>)
    decreases |steps|
  {
    steps == [] || (Can(s, steps[0]) && Careful(s, steps[0]) && LiveRun(Do(s, steps[0]), steps[1..]))
  }

  function After(s: Live, steps: seq<Step>): Live
    requires LiveRun(s, steps)
    decreases |steps|
  {
    if steps == [] then s else After(Do(s, steps[0]), steps[1..])
  }

  function StartLive(outCapacity: nat, inbCapacity: nat): Live {
    Live(Start(outCapacity, [Reader(false, 0, 0, Ready, [])]),
         Start(inbCapacity, [Reader(true, 0, 0, Ready, [])]), [], [], [], [], [])
  }

  function Echoes(cmds: seq<OrderCommand>): seq<ExecutionReport> {
    seq(|cmds|, i requires 0 <= i < |cmds| => Echo(cmds[i]))
  }

  function ReportRecords(cmds: seq<OrderCommand>): seq<Record> {
    seq(|cmds|, i requires 0 <= i < |cmds| => EncodeReport(Echo(cmds[i])))
  }
}
