/** The market trading through the replay gateway: positions, cash, equity and order counts
    over every run of packets. */
module ReplayLaws {
  import opened Common
  import opened Sums
  import opened Itch
  import opened ItchRoundTrip
  import opened Gateway
  import opened Processor
  import opened ProcessorLaws
  import opened Market
  import opened MarketLaws

  const RISK_POSITION: Proc -> int := (p: Proc) => p.limits.position
  const SHARES: int -> int := (n: int) => n

  function SharesOn(locate: u16): OrderCommand -> int {
    (c: OrderCommand) => if c.locate == locate then Signed(c) else 0
  }

  function ValueOn(locate: u16): OrderCommand -> int {
    (c: OrderCommand) => if c.locate == locate then Signed(c) * c.price else 0
  }

  /** What an order on a locate has gained or lost at a given midpoint. */
  function GainOn(locate: u16, mid: u32): OrderCommand -> int {
    (c: OrderCommand) => if c.locate == locate then Signed(c) * (mid - c.price) else 0
  }

  /** The price of the last order on a locate. */
  function LastPrice(sent: seq<OrderCommand>, locate: u16): Option<u32> {
    if sent == [] then None
    else if sent[|sent| - 1].locate == locate then Some(sent[|sent| - 1].price)
    else LastPrice(sent[..|sent| - 1], locate)
  }

  function PriceOn(gw: Account, locate: u16): Option<u32> {
    if locate in gw.lastPrices then Some(gw.lastPrices[locate]) else None
  }

  /** The gateway's accounts are those of the orders sent, locate by locate; and all risk
      positions together are all gateway positions together. */
  ghost predicate AccountsMatch(s: System) {
    && (forall l: u16 :: s.gw.Position(l) == SumSeq(s.market.sent, SharesOn(l)))
    && (forall l: u16 :: s.gw.Cash(l) == -SumSeq(s.market.sent, ValueOn(l)))
    && (forall l: u16 :: PriceOn(s.gw, l) == LastPrice(s.market.sent, l))
    && SumMap(s.gw.positions, SHARES) == SumSeq(s.market.sent, SIGNED)
    && SumSeq(s.market.procs, RISK_POSITION) == SumSeq(s.market.sent, SIGNED)
  }

  lemma {:induction false} NoRiskAtStart(procs: seq<Proc>)
    requires forall i | 0 <= i < |procs| :: procs[i].limits.position == 0
    ensures SumSeq(procs, RISK_POSITION) == 0
  {
    if procs == [] {
    } else {
      NoRiskAtStart(procs[..|procs| - 1]);
    }
  }

  lemma StartMatches(symbols: seq<Symbol>, midnight: nat)
    ensures AccountsMatch(Start(symbols, midnight))
  {
    NoRiskAtStart(Start(symbols, midnight).market.procs);
  }

  lemma SendMatches(gw: Account, sent: seq<OrderCommand>, cmd: OrderCommand, l: u16)
    requires gw.Position(l) == SumSeq(sent, SharesOn(l)) && gw.Cash(l) == -SumSeq(sent, ValueOn(l))
    requires PriceOn(gw, l) == LastPrice(sent, l)
    ensures gw.Send(cmd).Position(l) == SumSeq(sent + [cmd], SharesOn(l))
    ensures gw.Send(cmd).Cash(l) == -SumSeq(sent + [cmd], ValueOn(l))
    ensures PriceOn(gw.Send(cmd), l) == LastPrice(sent + [cmd], l)
  {
    SumSeqPush(sent, SharesOn(l), cmd);
    SumSeqPush(sent, ValueOn(l), cmd);
    assert (sent + [cmd])[..|sent|] == sent;
  }

  /** The fill a send queues is what it books: the reported shares leave or join the position of
      the reported locate, and their value at the reported price the cash. */
  lemma FillIsBooked(gw: Account, cmd: OrderCommand)
    ensures var gw' := gw.Send(cmd);
            && |gw'.pending| == |gw.pending| + 1 && gw'.pending[..|gw.pending|] == gw.pending
            && var r := gw'.pending[|gw.pending|];
            var sign := if cmd.side == Buy then 1 else -1;
            && r.orderId == cmd.orderId && r.execType == 0 && r.locate == cmd.locate
            && gw'.Position(r.locate) == gw.Position(r.locate) + sign * r.lastQty
            && gw'.Cash(r.locate) == gw.Cash(r.locate) - sign * (r.lastQty * r.lastPrice)
            && PriceOn(gw', r.locate) == Some(r.lastPrice)
            && forall l: u16 | l != r.locate :: gw'.Position(l) == gw.Position(l) && gw'.Cash(l) == gw.Cash(l)
  {
  }

  lemma PositionTotal(positions: map<u16, int>, l: u16, held: int, change: int)
    requires held == if l in positions then positions[l] else 0
    ensures SumMap(positions[l := held + change], SHARES) == SumMap(positions, SHARES) + change
  {
    SumMapPut(positions, SHARES, l, held + change);
  }

  lemma SendTotal(gw: Account, sent: seq<OrderCommand>, cmd: OrderCommand)
    requires SumMap(gw.positions, SHARES) == SumSeq(sent, SIGNED)
    ensures SumMap(gw.Send(cmd).positions, SHARES) == SumSeq(sent + [cmd], SIGNED)
  {
    SumSeqPush(sent, SIGNED, cmd);
    PositionTotal(gw.positions, cmd.locate, gw.Position(cmd.locate), Signed(cmd));
  }

  lemma DispatchMatches(s: System, i: nat, msg: ItchMessage)
    requires AccountsMatch(s) && i < |s.market.procs|
    ensures AccountsMatch(s.Dispatch(i, msg))
  {
    var m, s' := s.market, s.Dispatch(i, msg);
    var e := m.procs[i].Handle(msg, s.gw, m.counter, m.time);
    HandleEffect(m.procs[i], msg, s.gw, m.counter, m.time);
    SumSeqUpdate(m.procs, RISK_POSITION, i, e.p);
    if e.order.Some? {
      SendTotal(s.gw, m.sent, e.order.value);
      SumSeqPush(m.sent, SIGNED, e.order.value);
      forall l: u16
        ensures s'.gw.Position(l) == SumSeq(s'.market.sent, SharesOn(l))
        ensures s'.gw.Cash(l) == -SumSeq(s'.market.sent, ValueOn(l))
        ensures PriceOn(s'.gw, l) == LastPrice(s'.market.sent, l)
      {
        SendMatches(s.gw, m.sent, e.order.value, l);
      }
    }
  }

  lemma FilterMatches(s: System, msg: ItchMessage)
    requires AccountsMatch(s)
    ensures AccountsMatch(s.Filter(msg))
  {
    if msg.StockDirectory? {
      var i := FindSymbol(s.market.procs, Clean(msg.symbol));
      if i.Some? {
        SumSeqUpdate(s.market.procs, RISK_POSITION, i.value, s.market.procs[i.value].(locate := msg.locate));
      }
    } else if s.market.Slot(msg.locate).Some? {
      DispatchMatches(s, s.market.Slot(msg.locate).value, msg);
    }
  }

  lemma {:induction false} ConfirmAllKeepsRisk(m: State, reports: seq<ExecutionReport>)
    ensures var m' := m.ConfirmAll(reports);
            m'.sent == m.sent && SumSeq(m'.procs, RISK_POSITION) == SumSeq(m.procs, RISK_POSITION)
  {
    if reports == [] {
    } else {
      var n := |reports| - 1;
      ConfirmAllKeepsRisk(m, reports[..n]);
      var m0, r := m.ConfirmAll(reports[..n]), reports[n];
      var slot := m0.Slot(r.locate);
      if slot.Some? {
        SumSeqUpdate(m0.procs, RISK_POSITION, slot.value, m0.procs[slot.value].Fill(r));
      }
    }
  }

  lemma DrainMatches(s: System)
    requires AccountsMatch(s)
    ensures AccountsMatch(s.Drain())
  {
    ConfirmAllKeepsRisk(s.market, s.gw.pending);
  }

  lemma PacketMatches(s: System, data: seq<u8>)
    requires AccountsMatch(s)
    ensures AccountsMatch(s.Packet(data).0)
  {
    if |data| >= 11 {
      var s1 := s.Tick(data);
      assert AccountsMatch(s1);
      match Parse(data)
      case Parsed(m) =>
        FilterMatches(s1, m);
        DrainMatches(s1.Filter(m));
      case Ignored => DrainMatches(s1);
      case Panicked =>
    }
  }

  /** Over every run of packets, with directory messages that map, remap or share locates at
      will, the accounts match. */
  lemma {:induction false} AccountsAlwaysMatch(symbols: seq<Symbol>, midnight: nat, packets: seq<seq<u8>>)
    ensures AccountsMatch(Start(symbols, midnight).Packets(packets).0)
  {
    if packets == [] {
      StartMatches(symbols, midnight);
    } else {
      var n := |packets| - 1;
      AccountsAlwaysMatch(symbols, midnight, packets[..n]);
      PacketMatches(Start(symbols, midnight).Packets(packets[..n]).0, packets[n]);
    }
  }

  lemma Distribute(m: int, a: int, b: int)
    ensures m * (a + b) == m * a + m * b
  {
  }

  lemma GainOfOne(c: OrderCommand, locate: u16, mid: u32)
    ensures GainOn(locate, mid)(c) == mid * SharesOn(locate)(c) - ValueOn(locate)(c)
  {
    var q, price: int := Signed(c), c.price;
    Distribute(q, mid, -price);
  }

  lemma {:induction false} GainIsMarked(sent: seq<OrderCommand>, locate: u16, mid: u32)
    ensures SumSeq(sent, GainOn(locate, mid))
         == mid * SumSeq(sent, SharesOn(locate)) - SumSeq(sent, ValueOn(locate))
  {
    if sent == [] {
    } else {
      var n := |sent| - 1;
      GainIsMarked(sent[..n], locate, mid);
      GainOfOne(sent[n], locate, mid);
      Distribute(mid, SumSeq(sent[..n], SharesOn(locate)), SharesOn(locate)(sent[n]));
    }
  }

  lemma PayloadIsMarked(p: Proc, m: ItchMessage, gw: Account, id: nat, time: nat)
    ensures var e := p.Handle(m, gw, id, time);
            e.payload.Some? ==>
              var t := e.payload.value;
              && t.equity == e.gw.Cash(t.locate) + e.gw.Position(t.locate) * t.midpoint
              && t.position == e.gw.Position(t.locate) && t.timestamp == time
              && t.locate == p.locate && t.midpoint > 0
  {
    DecideEffect(p.Absorb(m), id);
  }

  /** The record a message makes a symbol emit shows as equity the gain, at the new midpoint,
      of every order sent on its locate so far. */
  lemma EquityIsGain(s: System, i: nat, msg: ItchMessage)
    requires AccountsMatch(s) && i < |s.market.procs|
    ensures var e := s.market.procs[i].Handle(msg, s.gw, s.market.counter, s.market.time);
            e.payload.Some? ==> ShowsGain(e.payload.value, s.Dispatch(i, msg).market.sent)
  {
    var e := s.market.procs[i].Handle(msg, s.gw, s.market.counter, s.market.time);
    if e.payload.Some? {
      var t, sent := e.payload.value, s.Dispatch(i, msg).market.sent;
      DispatchMatches(s, i, msg);
      PayloadIsMarked(s.market.procs[i], msg, s.gw, s.market.counter, s.market.time);
      assert e.gw.Cash(t.locate) == -SumSeq(sent, ValueOn(t.locate));
      assert e.gw.Position(t.locate) == SumSeq(sent, SharesOn(t.locate));
      GainIsMarked(sent, t.locate, t.midpoint);
    }
  }

  ghost predicate ShowsGain(t: TelemetryPayload, sent: seq<OrderCommand>) {
    && t.equity == SumSeq(sent, GainOn(t.locate, t.midpoint)) && t.midpoint > 0
    && t.position == SumSeq(sent, SharesOn(t.locate))
  }

  /** In every run each packet adds at most one telemetry record, and the equity it shows is
      the gain of all orders sent on that locate up to and including this packet. */
  lemma EveryRecordShowsGain(symbols: seq<Symbol>, midnight: nat, packets: seq<seq<u8>>, data: seq<u8>)
    ensures var m := Start(symbols, midnight).Packets(packets).0.market;
            var m' := Start(symbols, midnight).Packets(packets).0.Packet(data).0.market;
            || m'.telemetry == m.telemetry
            || (exists t :: m'.telemetry == m.telemetry + [t] && ShowsGain(t, m'.sent))
  {
    AccountsAlwaysMatch(symbols, midnight, packets);
    PacketShowsGain(Start(symbols, midnight).Packets(packets).0, data);
  }

  lemma PacketShowsGain(s: System, data: seq<u8>)
    requires AccountsMatch(s)
    ensures var m' := s.Packet(data).0.market;
            || m'.telemetry == s.market.telemetry
            || (exists t :: m'.telemetry == s.market.telemetry + [t] && ShowsGain(t, m'.sent))
  {
    if |data| >= 11 {
      var s1 := s.Tick(data);
      assert AccountsMatch(s1);
      match Parse(data)
      case Parsed(m) =>
        FilterShowsGain(s1, m);
        ConfirmAllSends(s1.Filter(m).market, s1.Filter(m).gw.pending);
      case Ignored => ConfirmAllSends(s1.market, s1.gw.pending);
      case Panicked =>
    }
  }

  lemma FilterShowsGain(s: System, msg: ItchMessage)
    requires AccountsMatch(s)
    ensures var m' := s.Filter(msg).market;
            || m'.telemetry == s.market.telemetry
            || (exists t :: m'.telemetry == s.market.telemetry + [t] && ShowsGain(t, m'.sent))
  {
    if !msg.StockDirectory? && s.market.Slot(msg.locate).Some? {
      var i := s.market.Slot(msg.locate).value;
      EquityIsGain(s, i, msg);
      var e := s.market.procs[i].Handle(msg, s.gw, s.market.counter, s.market.time);
      assert s.Filter(msg) == s.Dispatch(i, msg);
      assert s.Dispatch(i, msg).market.telemetry == Push(s.market.telemetry, e.payload);
    }
  }

  /** The actions a packet amounts to. */
  function PacketActs(s: System, data: seq<u8>): seq<Action> {
    if |data| < 11 then []
    else
      match Parse(data)
      case Panicked => []
      case Ignored => [Reports(s.gw.pending)]
      case Parsed(m) =>
        [Deliver(m, s.gw, s.Tick(data).market.time), Reports(s.Tick(data).Filter(m).gw.pending)]
  }

  lemma BehavePush(m: State, acts: seq<Action>, a: Action)
    ensures Behave(m, acts + [a]) == Act(Behave(m, acts), a)
  {
    assert (acts + [a])[..|acts|] == acts;
  }

  lemma {:induction false} BehaveOn(m: State, acts: seq<Action>, more: seq<Action>)
    ensures Behave(m, acts + more) == Behave(Behave(m, acts), more)
  {
    if more == [] {
      assert acts + more == acts;
    } else {
      var front, a := more[..|more| - 1], more[|more| - 1];
      BehaveOn(m, acts, front);
      SplitLast(acts, more);
      BehavePush(m, acts + front, a);
      BehavePush(Behave(m, acts), front, a);
    }
  }

  lemma {:induction false} ConfirmAllAnyTime(m: State, reports: seq<ExecutionReport>, time: nat)
    ensures m.(time := time).ConfirmAll(reports) == m.ConfirmAll(reports).(time := time)
  {
    if reports == [] {
    } else {
      ConfirmAllAnyTime(m, reports[..|reports| - 1], time);
    }
  }

  lemma PacketBehaves(s: System, m: State, data: seq<u8>)
    requires SameButTime(m, s.market)
    ensures SameButTime(Behave(m, PacketActs(s, data)), s.Packet(data).0.market)
    ensures OnTheWire(PacketActs(s, data))
  {
    if |data| >= 11 {
      var acts := PacketActs(s, data);
      match Parse(data)
      case Panicked =>
      case Ignored =>
        assert acts[..0] == [];
        ConfirmAllAnyTime(m, s.gw.pending, s.Tick(data).market.time);
      case Parsed(msg) =>
        ParsedFitsPacket(data);
        var a, r := acts[0], acts[1];
        assert acts[..1] == [a] && acts[..1][..0] == [];
        assert Behave(m, acts[..1]) == Act(m, a) == s.Tick(data).Filter(msg).market;
    }
  }

  /** Every replay run is a behaviour, up to the clock: what holds after all behaviours holds of
      replays. */
  lemma {:induction false} ReplayIsBehaviour(symbols: seq<Symbol>, midnight: nat, packets: seq<seq<u8>>)
    returns (acts: seq<Action>)
    ensures OnTheWire(acts)
    ensures SameButTime(Behave(NewMarket(symbols, midnight), acts), Start(symbols, midnight).Packets(packets).0.market)
  {
    if packets == [] {
      acts := [];
    } else {
      var n := |packets| - 1;
      acts := ReplayIsBehaviour(symbols, midnight, packets[..n]);
      var r := Start(symbols, midnight).Packets(packets[..n]);
      if r.1 {
        var m, more := Behave(NewMarket(symbols, midnight), acts), PacketActs(r.0, packets[n]);
        PacketBehaves(r.0, m, packets[n]);
        BehaveOn(NewMarket(symbols, midnight), acts, more);
        acts := acts + more;
      }
    }
  }

  /** The market is sound after every run of packets through the replay gateway. */
  lemma RunIsSound(symbols: seq<Symbol>, midnight: nat, packets: seq<seq<u8>>)
    ensures MarketSound(Start(symbols, midnight).Packets(packets).0.market)
  {
    var acts := ReplayIsBehaviour(symbols, midnight, packets);
    AlwaysSound(symbols, midnight, acts);
    SoundAnyTime(Behave(NewMarket(symbols, midnight), acts), Start(symbols, midnight).Packets(packets).0.market);
  }
}
