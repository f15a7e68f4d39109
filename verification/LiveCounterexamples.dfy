/** Why no process may start writing into a full ring: from any state with a full ring, one
    more message can lose an order or stop the trading engine. */
module LiveCounterexamples {
  import opened Common
  import opened MaskArithmetic
  import opened Ring
  import opened RingProtocol
  import opened RingProtocolLaws
  import opened RingCounterexamples
  import opened Wire
  import opened LiveEngine
  import opened LivePath
  import opened LivePathLaws

  /** Steps that each process can make, with nothing asked about the rings' backlogs. */
  predicate CanRun(s: Live, steps: seq<Step>)
    decreases |steps|
  {
    steps == [] || (Can(s, steps[0]) && CanRun(Do(s, steps[0]), steps[1..]))
  }

  function RunTo(s: Live, steps: seq<Step>): Live
    requires CanRun(s, steps)
    decreases |steps|
  {
    if steps == [] then s else RunTo(Do(s, steps[0]), steps[1..])
  }

  /** Some run leads from s to t: a careful one, or any. */
  ghost predicate Leads(s: Live, t: Live, careful: bool) {
    exists steps :: CanRun(s, steps) && RunTo(s, steps) == t && (careful ==> LiveRun(s, steps))
  }

  lemma LeadsToItself(s: Live, careful: bool)
    ensures Leads(s, s, careful)
  {
    assert CanRun(s, []) && RunTo(s, []) == s && LiveRun(s, []);
  }

  lemma {:induction false} OneMoreStep(s: Live, steps: seq<Step>, a: Step)
    requires CanRun(s, steps) && Can(RunTo(s, steps), a)
    ensures CanRun(s, steps + [a]) && RunTo(s, steps + [a]) == Do(RunTo(s, steps), a)
    ensures LiveRun(s, steps) && Careful(RunTo(s, steps), a) ==> LiveRun(s, steps + [a])
    decreases |steps|
  {
    if steps == [] {
      assert [a][1..] == [];
    } else {
      assert (steps + [a])[1..] == steps[1..] + [a];
      OneMoreStep(Do(s, steps[0]), steps[1..], a);
    }
  }

  lemma LiveStep(s: Live, t: Live, a: Step, careful: bool) returns (t': Live)
    requires Leads(s, t, careful) && Can(t, a) && (careful ==> Careful(t, a))
    ensures Leads(s, t', careful) && t' == Do(t, a)
  {
    var steps :| CanRun(s, steps) && RunTo(s, steps) == t && (careful ==> LiveRun(s, steps));
    OneMoreStep(s, steps, a);
    t' := Do(t, a);
  }

  lemma {:induction false} RunToIsAfter(s: Live, steps: seq<Step>)
    requires CanRun(s, steps) && LiveRun(s, steps)
    ensures RunTo(s, steps) == LivePath.After(s, steps)
    decreases |steps|
  {
    if steps == [] {
    } else {
      RunToIsAfter(Do(s, steps[0]), steps[1..]);
    }
  }

  lemma CarefulRunOk(s: Live, t: Live)
    requires LiveInv(s) && Leads(s, t, true)
    ensures LiveInv(t)
  {
    var steps :| CanRun(s, steps) && RunTo(s, steps) == t && LiveRun(s, steps);
    RunToIsAfter(s, steps);
    LiveRunOk(s, steps);
  }

  predicate OneReaderEach(s: Live) {
    |s.out.readers| == 1 && |s.inb.readers| == 1
  }

  /** The ring before and after one whole message is written to it. */
  ghost predicate Wrote(r: Shared, m: Message, r': Shared) {
    && Inv(r') && r'.head == r.head + 1 && r'.log == r.log + [m] && r'.writer.Idle?
    && r'.readers == r.readers && r'.capacity == r.capacity
  }

  /** The ring after the words below c of the message under way are stored. */
  ghost predicate Stored(r: Shared, m: Message, c: nat, r': Shared) {
    && Inv(r') && r'.writer.Writing? && r'.writer.msg == m
    && (forall d: nat :: d in r'.writer.done <==> d < c)
    && r'.head == r.head && r'.log == r.log && r'.readers == r.readers && r'.capacity == r.capacity
  }

  lemma BeginStored(r: Shared, m: Message)
    requires Inv(r) && Enabled(r, Begin(m))
    ensures Stored(r, m, 0, Next(r, Begin(m)))
  {
    StepOk(r, Begin(m));
  }

  lemma StoreStored(r: Shared, m: Message, c: nat, r': Shared)
    requires Stored(r, m, c, r') && c < Cells(m)
    ensures Enabled(r', Store(c)) && Stored(r, m, c + 1, Next(r', Store(c)))
  {
    StepOk(r', Store(c));
  }

  lemma PublishWrote(r: Shared, m: Message, r': Shared)
    requires Stored(r, m, Cells(m), r')
    ensures Enabled(r', Publish) && Wrote(r, m, Next(r', Publish))
  {
    StepOk(r', Publish);
  }

  lemma {:induction false} StoreOrders(s: Live, t: Live, r: Shared, m: Message, c: nat, careful: bool) returns (out: Shared)
    requires Leads(s, t, careful) && Stored(r, m, c, t.out) && c <= Cells(m) && OneReaderEach(t) && !Stopped(t.inb)
    ensures Leads(s, t.(out := out), careful) && Stored(r, m, Cells(m), out)
    decreases Cells(m) - c
  {
    if c == Cells(m) {
      out := t.out;
      assert t.(out := out) == t;
    } else {
      StoreStored(r, m, c, t.out);
      var t' := LiveStep(s, t, StoreOrder(c), careful);
      out := StoreOrders(s, t', r, m, c + 1, careful);
      assert t'.(out := out) == t.(out := out);
    }
  }

  lemma {:induction false} StoreReports(s: Live, t: Live, r: Shared, m: Message, c: nat, careful: bool) returns (inb: Shared)
    requires Leads(s, t, careful) && Stored(r, m, c, t.inb) && c <= Cells(m) && OneReaderEach(t)
    ensures Leads(s, t.(inb := inb), careful) && Stored(r, m, Cells(m), inb)
    decreases Cells(m) - c
  {
    if c == Cells(m) {
      inb := t.inb;
      assert t.(inb := inb) == t;
    } else {
      StoreStored(r, m, c, t.inb);
      var t' := LiveStep(s, t, StoreReport(c), careful);
      inb := StoreReports(s, t', r, m, c + 1, careful);
      assert t'.(inb := inb) == t.(inb := inb);
    }
  }

  // The trading engine writes one whole order.
  lemma WriteOrder(s: Live, t: Live, cmd: OrderCommand, now: nat, careful: bool) returns (out: Shared)
    requires Leads(s, t, careful) && OneReaderEach(t) && !Stopped(t.inb)
    requires Inv(t.out) && t.out.writer.Idle? && cmd.orderId < ID_LIMIT
    requires careful ==> t.out.head < t.out.readers[0].next + t.out.capacity
    ensures Leads(s, t.(out := out, sent := t.sent + [cmd]), careful)
    ensures Wrote(t.out, Message(now, CommandBytes(cmd)), out)
  {
    var m := Message(now, CommandBytes(cmd));
    var t1 := LiveStep(s, t, SendOrder(cmd, now), careful);
    BeginStored(t.out, m);
    var r := StoreOrders(s, t1, t.out, m, 0, careful);
    PublishWrote(t.out, m, r);
    var t' := LiveStep(s, t1.(out := r), PublishOrder, careful);
    out := t'.out;
    assert t' == t.(out := out, sent := t.sent + [cmd]);
  }

  // The gateway writes the whole report at the front of its buffer.
  lemma WriteReport(s: Live, t: Live, careful: bool) returns (inb: Shared)
    requires Leads(s, t, careful) && OneReaderEach(t)
    requires Inv(t.inb) && t.inb.writer.Idle? && |t.tail| >= RECORD
    requires careful ==> t.inb.head < t.inb.readers[0].next + t.inb.capacity
    ensures Leads(s, t.(inb := inb, tail := t.tail[RECORD..]), careful)
    ensures Wrote(t.inb, Message(0, t.tail[..RECORD]), inb)
  {
    var m := Message(0, t.tail[..RECORD]);
    var t1 := LiveStep(s, t, StartReport, careful);
    DoStart(t);
    BeginStored(t.inb, m);
    var r := StoreReports(s, t1, t.inb, m, 0, careful);
    PublishWrote(t.inb, m, r);
    var t' := LiveStep(s, t1.(inb := r), PublishReport, careful);
    DoPublish(t1.(inb := r));
    inb := t'.inb;
    assert t' == t.(inb := inb, tail := t.tail[RECORD..]);
  }

  /** The gateway has copied these words of its slot; nothing else has changed. */
  function WithCopy(t: Live, copy: map<nat, nat>): Live
    requires |t.out.readers| == 1
  {
    t.(out := t.out.(readers := [t.out.readers[0].(phase := Copying(copy))]))
  }

  /** The words below c of the gateway's slot. */
  ghost predicate CopyOf(r: Shared, copy: map<nat, nat>, c: nat)
    requires |r.readers| == 1 && Shape(r) && c <= CELLS
  {
    && (forall d: nat :: d in copy <==> d < c)
    && forall d: nat | d < c :: copy[d] == r.slots[SlotOf(r.readers[0].next, r.capacity)][d]
  }

  lemma CopyOneWord(s: Live, t: Live, copy: map<nat, nat>, c: nat, careful: bool) returns (copy': map<nat, nat>)
    requires OneReaderEach(t) && Shape(t.out) && c < CELLS && CopyOf(t.out, copy, c)
    requires Leads(s, WithCopy(t, copy), careful)
    ensures CopyOf(t.out, copy', c + 1) && Leads(s, WithCopy(t, copy'), careful)
  {
    copy' := copy[c := t.out.slots[SlotOf(t.out.readers[0].next, t.out.capacity)][c]];
    var t' := LiveStep(s, WithCopy(t, copy), GatewayCopy(c), careful);
    assert t' == WithCopy(t, copy');
  }

  lemma {:induction false} CopyWords(s: Live, t: Live, c: nat, careful: bool) returns (copy: map<nat, nat>)
    requires OneReaderEach(t) && Shape(t.out) && c <= CELLS
    requires Leads(s, WithCopy(t, map[]), careful)
    ensures CopyOf(t.out, copy, c) && Leads(s, WithCopy(t, copy), careful)
  {
    if c == 0 {
      copy := map[];
    } else {
      copy := CopyWords(s, t, c - 1, careful);
      copy := CopyOneWord(s, t, copy, c - 1, careful);
    }
  }

  // The gateway loads the head and copies its slot.
  lemma CopyOrder(s: Live, t: Live, careful: bool) returns (copy: map<nat, nat>)
    requires Leads(s, t, careful) && OneReaderEach(t) && Shape(t.out) && !t.out.readers[0].checked
    requires t.out.readers[0].phase.Ready? && t.out.readers[0].next < t.out.head
    ensures CopyOf(t.out, copy, CELLS) && Leads(s, WithCopy(t, copy), careful)
  {
    var t1 := LiveStep(s, t, GatewayLoad, careful);
    assert t1 == WithCopy(t, map[]);
    copy := CopyWords(s, t, CELLS, careful);
  }

  // The gateway takes the order in its slot, whichever message n wrote it.
  lemma TakeOrder(s: Live, t: Live, n: nat, cmd: OrderCommand, careful: bool) returns (t': Live)
    requires Leads(s, t, careful) && OneReaderEach(t) && Inv(t.out) && !t.out.readers[0].checked
    requires t.out.readers[0].phase.Ready? && t.out.readers[0].next < t.out.head
    requires Intact(t.out, n) && SlotOf(n, t.out.capacity) == SlotOf(t.out.readers[0].next, t.out.capacity)
    requires t.out.log[n].data == CommandBytes(cmd) && cmd.orderId < ID_LIMIT
    ensures Leads(s, t', careful) && t' == t.(out := t'.out, orders := t.orders + [cmd])
    ensures t'.out == t.out.(readers := t'.out.readers) && OneReaderEach(t')
    ensures t'.out.readers[0].next == t.out.readers[0].next + 1
    ensures t'.out.readers[0].phase.Ready? && !t'.out.readers[0].checked
  {
    var copy := CopyOrder(s, t, careful);
    SlotIsRecord(t.out, n, copy);
    CommandRoundTrip(cmd);
    assert CommandBytes(cmd)[..RECORD] == EncodeCommand(cmd);
    t' := LiveStep(s, WithCopy(t, copy), Forward, careful);
  }

  lemma SlotIsRecord(r: Shared, n: nat, copy: map<nat, nat>)
    requires Inv(r) && Intact(r, n) && |r.log[n].data| >= RECORD
    requires forall d: nat | d < CELLS :: d in copy && copy[d] == r.slots[SlotOf(n, r.capacity)][d]
    ensures WholeSlot(copy) && RecordOf(copy) == r.log[n].data[..RECORD]
  {
    var m := r.log[n];
    forall i | 0 <= i < RECORD ensures RecordOf(copy)[i] == m.data[i] {
      assert copy[2 + i] == r.slots[SlotOf(n, r.capacity)][2 + i] == Cell(m, 2 + i);
    }
  }

  /** The outbound ring is full, with neither end at work in it. */
  predicate OutboundFull(s: Live) {
    && |s.out.readers| == 1 && s.out.writer.Idle? && s.out.readers[0].phase.Ready?
    && s.out.head == s.out.readers[0].next + s.out.capacity
  }

  // A message written to a full ring lands in the slot its reader is due to read.
  lemma WrittenOverTheOneDue(r: Shared, m: Message, r': Shared)
    requires Inv(r) && |r.readers| == 1 && r.head == r.readers[0].next + r.capacity && Wrote(r, m, r')
    ensures Intact(r', r.head) && r'.log[r.head] == m && r'.readers[0].next < r'.head
    ensures SlotOf(r.head, r'.capacity) == SlotOf(r'.readers[0].next, r'.capacity)
  {
    NextLap(r.readers[0].next, r.capacity);
  }

  /** From any state of a careful run in which the outbound ring is full: when the trading
      engine sends any other order than the one the gateway is due to read, the gateway can
      forward the new order in place of the one due, which is then lost. */
  lemma OneOrderTooMany(s: Live, cmd: OrderCommand, now: nat) returns (t: Live)
    requires LiveInv(s) && OutboundFull(s) && cmd.orderId < ID_LIMIT
    requires Echo(cmd) != Echo(s.sent[s.out.readers[0].next])
    ensures Leads(s, t, false) && t.sent == s.sent + [cmd] && t.orders == s.orders + [cmd]
    ensures |t.out.readers| == 1 && t.out.readers[0].next == s.out.readers[0].next + 1
    ensures !NothingLost(t)
  {
    var n := s.out.readers[0].next;
    LeadsToItself(s, false);
    var out := WriteOrder(s, s, cmd, now, false);
    WrittenOverTheOneDue(s.out, Message(now, CommandBytes(cmd)), out);
    t := TakeOrder(s, s.(out := out, sent := s.sent + [cmd]), s.out.head, cmd, false);
    OrderLost(s, t, n, cmd);
  }

  // In the stages of t the new order stands where the n-th was.
  lemma OrderLost(s: Live, t: Live, n: nat, cmd: OrderCommand)
    requires LiveInv(s) && n == s.out.readers[0].next < |s.sent|
    requires t == s.(out := t.out, sent := s.sent + [cmd], orders := s.orders + [cmd])
    requires Echo(cmd) != Echo(s.sent[n])
    ensures !NothingLost(t)
  {
    InboundStage(s.inb, s.sent, s.tail);
    MiddleStage(s.sent, s.orders, s.tail + s.wire, n, s.inb.head);
    var before := s.confirmed + ReportsIn(s.inb.log[s.inb.readers[0].next..]) + ReportsOf(Records(s.tail + s.wire));
    assert |before| + |s.orders| == n;
    assert (before + Echoes(t.orders))[n] == Echo(cmd);
    assert Echoes(t.sent)[n] == Echo(s.sent[n]);
  }

  /** From any state of a careful run in which the inbound ring is full: once the gateway
      writes one more report before the next poll ends, that poll is overrun and the trading
      engine stops. */
  lemma OneReportTooMany(s: Live) returns (t: Live)
    requires LiveInv(s) && s.inb.writer.Idle? && |s.tail| >= RECORD
    requires s.inb.head == s.inb.readers[0].next + s.inb.capacity
    ensures Leads(s, t, false) && Overrun(t.inb)
    ensures t == s.(inb := t.inb, tail := s.tail[RECORD..]) && t.inb.readers == s.inb.readers
    ensures t.inb.head == s.inb.head + 1
  {
    LeadsToItself(s, false);
    var inb := WriteReport(s, s, false);
    t := s.(inb := inb, tail := s.tail[RECORD..]);
  }

  /** A poll that loads the head or ends its copy while overrun confirms nothing and is the
      trading engine's last step. */
  lemma OverrunPollIsFatal(s: Live, a: Step)
    requires Can(s, a) && (a == PollLoad || a == PollTake)
    requires |s.inb.readers| == 1 && s.inb.readers[0].checked && Overrun(s.inb)
    ensures Do(s, a).confirmed == s.confirmed && Stopped(Do(s, a).inb)
  {
  }

  /** From then on nothing is sent and nothing confirmed, whatever the other processes do. */
  lemma {:induction false} StoppedForGood(s: Live, steps: seq<Step>)
    requires Stopped(s.inb) && CanRun(s, steps)
    ensures var t := RunTo(s, steps); Stopped(t.inb) && t.sent == s.sent && t.confirmed == s.confirmed
    decreases |steps|
  {
    if steps == [] {
    } else {
      StepStaysStopped(s, steps[0]);
      StoppedForGood(Do(s, steps[0]), steps[1..]);
    }
  }

  lemma StepStaysStopped(s: Live, a: Step)
    requires Stopped(s.inb) && Can(s, a)
    ensures var t := Do(s, a); Stopped(t.inb) && t.sent == s.sent && t.confirmed == s.confirmed
  {
  }

  function Nth(k: u16): OrderCommand {
    OrderCommand(0, k, 1, 1, Buy)
  }

  // The trading engine fills its ring while the gateway does nothing.
  lemma {:induction false} FillOutbound(outCapacity: nat, inbCapacity: nat, n: nat) returns (t: Live)
    requires IsPow2(outCapacity) && IsPow2(inbCapacity) && n <= outCapacity
    ensures Leads(StartLive(outCapacity, inbCapacity), t, true) && OneReaderEach(t) && !Stopped(t.inb)
    ensures Inv(t.out) && t.out.head == n && t.out.capacity == outCapacity && t.out.writer.Idle?
    ensures t.out.readers == [Reader(false, 0, 0, Ready, [])] && t.sent == seq(n, _ => Nth(0))
  {
    var s := StartLive(outCapacity, inbCapacity);
    if n == 0 {
      t := s;
      StartLiveOk(outCapacity, inbCapacity);
      LeadsToItself(s, true);
    } else {
      var t0 := FillOutbound(outCapacity, inbCapacity, n - 1);
      var out := WriteOrder(s, t0, Nth(0), 0, true);
      t := t0.(out := out, sent := t0.sent + [Nth(0)]);
    }
  }

  /** The condition on the outbound ring is exact: for all capacities, a run that starts no
      write into a full ring but its last loses an order. */
  lemma OutboundBoundIsExact(outCapacity: nat, inbCapacity: nat) returns (s: Live, t: Live)
    requires IsPow2(outCapacity) && IsPow2(inbCapacity)
    ensures Leads(StartLive(outCapacity, inbCapacity), s, true) && OutboundFull(s)
    ensures Leads(s, t, false) && |t.sent| == |s.sent| + 1 && !NothingLost(t)
  {
    s := FillOutbound(outCapacity, inbCapacity, outCapacity);
    StartLiveOk(outCapacity, inbCapacity);
    CarefulRunOk(StartLive(outCapacity, inbCapacity), s);
    t := OneOrderTooMany(s, Nth(1), 0);
  }

  /** The gateway has read everything written to the outbound ring. */
  ghost predicate Drained(out: Shared) {
    && Inv(out) && out.writer.Idle? && |out.readers| == 1
    && !out.readers[0].checked && out.readers[0].phase.Ready? && out.readers[0].next == out.head
  }

  /** Everything sent has gone through to the gateway's buffer or beyond. */
  ghost predicate Quiet(s: Live) {
    && Drained(s.out) && s.orders == [] && s.wire == []
    && Inv(s.inb) && s.inb.writer.Idle? && |s.inb.readers| == 1 && !Stopped(s.inb)
  }

  // One more order goes through to the exchange.
  lemma OrderToExchange(s: Live, t: Live) returns (t': Live)
    requires Leads(s, t, true) && Drained(t.out) && |t.inb.readers| == 1 && !Stopped(t.inb) && LiveInv(s)
    ensures Leads(s, t', true) && Drained(t'.out)
    ensures t' == t.(out := t'.out, sent := t.sent + [Nth(0)], orders := t.orders + [Nth(0)])
  {
    var out := WriteOrder(s, t, Nth(0), 0, true);
    var t1 := t.(out := out, sent := t.sent + [Nth(0)]);
    FrontIntact(t.out, Message(0, CommandBytes(Nth(0))), out);
    t' := TakeOrder(s, t1, t.out.head, Nth(0), true);
    RingsKept(s, t');
  }

  lemma FrontIntact(r: Shared, m: Message, r': Shared)
    requires Drained(r) && Wrote(r, m, r')
    ensures Intact(r', r.head) && r'.log[r.head] == m && r'.readers[0].next == r.head < r'.head
  {
  }

  lemma RingsKept(s: Live, t: Live)
    requires Leads(s, t, true) && LiveInv(s)
    ensures Inv(t.out) && Inv(t.inb)
  {
    CarefulRunOk(s, t);
  }

  // Its report comes back to the gateway's buffer.
  lemma ReportToBuffer(s: Live, t: Live) returns (t': Live)
    requires Leads(s, t, true) && |t.out.readers| == |t.inb.readers| == 1
    requires t.orders == [Nth(0)] && t.wire == [] && t.tail == []
    ensures Leads(s, t', true) && |t'.tail| == RECORD
    ensures t' == t.(orders := [], tail := t'.tail)
  {
    var t1 := LiveStep(s, t, ExchangeEcho, true);
    assert |t1.wire| == RECORD;
    t' := LiveStep(s, t1, Receive(RECORD), true);
  }

  lemma OrderToBuffer(s: Live, t: Live) returns (t': Live)
    requires Leads(s, t, true) && Quiet(t) && t.tail == [] && LiveInv(s)
    ensures Leads(s, t', true) && Quiet(t') && |t'.tail| == RECORD && t'.inb == t.inb
  {
    var t1 := OrderToExchange(s, t);
    t' := ReportToBuffer(s, t1);
  }

  lemma {:induction false} FillInbound(outCapacity: nat, inbCapacity: nat, n: nat) returns (t: Live)
    requires IsPow2(outCapacity) && IsPow2(inbCapacity) && n <= inbCapacity
    ensures Leads(StartLive(outCapacity, inbCapacity), t, true) && Quiet(t) && t.tail == []
    ensures t.inb.head == n && t.inb.capacity == inbCapacity && t.inb.readers == [Reader(true, 0, 0, Ready, [])]
  {
    var s := StartLive(outCapacity, inbCapacity);
    StartLiveOk(outCapacity, inbCapacity);
    if n == 0 {
      t := s;
      LeadsToItself(s, true);
    } else {
      var t0 := FillInbound(outCapacity, inbCapacity, n - 1);
      var t1 := OrderToBuffer(s, t0);
      var inb := WriteReport(s, t1, true);
      t := t1.(inb := inb, tail := t1.tail[RECORD..]);
    }
  }

  /** And so is the condition on the inbound ring: for all capacities, a run that starts no
      write into a full ring but its last stops the trading engine. */
  lemma InboundBoundIsExact(outCapacity: nat, inbCapacity: nat) returns (s: Live, t: Live)
    requires IsPow2(outCapacity) && IsPow2(inbCapacity)
    ensures Leads(StartLive(outCapacity, inbCapacity), s, true) && |s.inb.readers| == 1
    ensures s.inb.head == s.inb.readers[0].next + s.inb.capacity
    ensures Leads(s, t, false) && t.inb.head == s.inb.head + 1 && Overrun(t.inb)
  {
    var s0 := FillInbound(outCapacity, inbCapacity, inbCapacity);
    StartLiveOk(outCapacity, inbCapacity);
    s := OrderToBuffer(StartLive(outCapacity, inbCapacity), s0);
    CarefulRunOk(StartLive(outCapacity, inbCapacity), s);
    t := OneReportTooMany(s);
  }
}
