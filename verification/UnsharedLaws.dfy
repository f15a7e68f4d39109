/** Replay runs in which no locate is ever shared by two target symbols: every fill reaches
    the symbol that sent the order, and the two position limits cap the orders of a run. */
module UnsharedLaws {
  import opened Common
  import opened Itch
  import opened ItchRoundTrip
  import opened Gateway
  import opened Processor
  import opened ProcessorLaws
  import opened Market
  import opened MarketLaws

  /** A directory message does not take a locate away from another target symbol. */
  predicate Unshared(m: State, msg: ItchMessage) {
    msg.StockDirectory? ==>
      var i := FindSymbol(m.procs, Clean(msg.symbol));
      i.Some? ==> m.Slot(msg.locate).None? || m.Slot(msg.locate) == i
  }

  ghost predicate UnsharedRun(s: System, packets: seq<seq<u8>>) {
    forall k | 0 <= k < |packets| ::
      var r := s.Packets(packets[..k]);
      r.1 && Parse(packets[k]).Parsed? ==> Unshared(r.0.market, Parse(packets[k]).msg)
  }

  /** A symbol that messages can reach gets its own fills back. */
  ghost predicate Homed(m: State) {
    && |m.lookup| == LOCATES
    && forall l: u16 | m.Slot(l).Some? ::
         m.Slot(m.procs[m.Slot(l).value].locate) == m.Slot(l)
  }

  /** The gateway's shares on the first n locates that belong to symbol i. */
  ghost function Booked(m: State, gw: Account, i: nat, n: nat): int
    requires n <= LOCATES
  {
    if n == 0 then 0 else Booked(m, gw, i, n - 1) + Share(m, gw, i, n - 1)
  }

  ghost function Share(m: State, gw: Account, i: nat, l: u16): int {
    if m.Slot(l) == Some(i) then gw.Position(l) else 0
  }

  /** Each symbol's risk position is all the gateway holds on the locates assigned to it. */
  ghost predicate RiskIsBooked(s: System) {
    && (forall l: u16 | s.market.Slot(l).None? :: s.gw.Position(l) == 0)
    && forall i | 0 <= i < |s.market.procs| ::
         s.market.procs[i].limits.position == Booked(s.market, s.gw, i, LOCATES)
  }

  // Changing one locate's share changes the booked total by as much.
  lemma {:induction false} BookedChange(m: State, gw: Account, m': State, gw': Account, i: nat, l: u16, n: nat)
    requires n <= LOCATES
    requires forall k: u16 | k != l :: Share(m', gw', i, k) == Share(m, gw, i, k)
    ensures Booked(m', gw', i, n)
         == Booked(m, gw, i, n) + (if l < n then Share(m', gw', i, l) - Share(m, gw, i, l) else 0)
  {
    if n == 0 {
    } else {
      BookedChange(m, gw, m', gw', i, l, n - 1);
    }
  }

  lemma DirectoryHomes(s: System, locate: u16, symbol: Symbol)
    requires Homed(s.market) && RiskIsBooked(s)
    requires Unshared(s.market, StockDirectory(locate, symbol))
    ensures var s' := s.(market := s.market.Directory(locate, symbol)); Homed(s'.market) && RiskIsBooked(s')
  {
    var m, m' := s.market, s.market.Directory(locate, symbol);
    var at := FindSymbol(m.procs, Clean(symbol));
    if at.Some? {
      assert forall l: u16 :: m'.Slot(l) == if l == locate then at else m.Slot(l);
      assert forall i | 0 <= i < |m.procs| :: m'.procs[i].locate == if i == at.value then locate else m.procs[i].locate;
      forall i | 0 <= i < |m'.procs|
        ensures m'.procs[i].limits.position == Booked(m', s.gw, i, LOCATES)
      {
        BookedChange(m, s.gw, m', s.gw, i, locate, LOCATES);
      }
    }
  }

  lemma DispatchHomes(s: System, i: nat, msg: ItchMessage)
    requires Homed(s.market) && RiskIsBooked(s) && i < |s.market.procs|
    requires s.market.Slot(s.market.procs[i].locate) == Some(i)
    ensures Homed(s.Dispatch(i, msg).market) && RiskIsBooked(s.Dispatch(i, msg))
  {
    var m, s' := s.market, s.Dispatch(i, msg);
    var e := m.procs[i].Handle(msg, s.gw, m.counter, m.time);
    HandleEffect(m.procs[i], msg, s.gw, m.counter, m.time);
    assert s'.market.procs == m.procs[i := e.p];
    assert forall l: u16 :: s'.market.Slot(l) == m.Slot(l);
    forall j | 0 <= j < |m.procs|
      ensures s'.market.procs[j].limits.position == Booked(s'.market, s'.gw, j, LOCATES)
    {
      BookedChange(m, s.gw, s'.market, s'.gw, j, m.procs[i].locate, LOCATES);
    }
  }

  lemma FilterHomes(s: System, msg: ItchMessage)
    requires Homed(s.market) && RiskIsBooked(s) && Unshared(s.market, msg)
    ensures Homed(s.Filter(msg).market) && RiskIsBooked(s.Filter(msg))
  {
    if msg.StockDirectory? {
      DirectoryHomes(s, msg.locate, msg.symbol);
    } else if s.market.Slot(msg.locate).Some? {
      DispatchHomes(s, s.market.Slot(msg.locate).value, msg);
    }
  }

  lemma ConfirmHomes(m: State, gw: Account, r: ExecutionReport)
    requires Homed(m) && RiskIsBooked(System(m, gw))
    ensures Homed(m.Confirm(r)) && RiskIsBooked(System(m.Confirm(r), gw))
  {
    var m' := m.Confirm(r);
    assert forall l: u16 :: m'.Slot(l) == m.Slot(l);
    forall j | 0 <= j < |m.procs|
      ensures m'.procs[j].limits.position == Booked(m', gw, j, LOCATES)
    {
      BookedChange(m, gw, m', gw, j, 0, LOCATES);
    }
  }

  /** All orders so far were filled, and the two position limits shaped them: nothing but
      sells from the 52nd order on, each taking the risk position 100 further down. */
  ghost predicate OnCourse(p: Proc) {
    && p.tracker == {}
    && p.strat.position == 100 * |p.log.sent|
    && (forall k | 51 <= k < |p.log.sent| :: p.log.sent[k].side == Sell)
    && (|p.log.sent| > 51 ==> p.limits.position <= 3500 - 100 * (|p.log.sent| - 51))
  }

  lemma OnCourseCap(p: Proc)
    requires OnCourse(p) && WithinLimits(p)
    ensures |p.log.sent| <= 121
  {
  }

  /** One message keeps a symbol on course once its order, if any, is filled. */
  lemma HandleOnCourse(p: Proc, m: ItchMessage, gw: Account, id: nat, time: nat)
    requires FollowsFeed(p) && WithinLimits(p) && OnCourse(p) && FitsPacket(m)
    ensures var e := p.Handle(m, gw, id, time);
            if e.order.Some? then e.p.tracker == {id} && OnCourse(e.p.Fill(Echo(e.order.value)))
            else OnCourse(e.p)
  {
    OnCourseCap(p);
    HandleEffect(p, m, gw, id, time);
    SendsExactlyWhen(p, m, id);
  }

  ghost predicate Settled(s: System) {
    && s.gw.pending == []
    && Homed(s.market) && RiskIsBooked(s) && MarketSound(s.market)
    && forall i | 0 <= i < |s.market.procs| :: OnCourse(s.market.procs[i])
  }

  // Dispatch queues at most the fill of the order sent, which puts the symbol back on course.
  lemma DispatchOnCourse(s: System, i: nat, msg: ItchMessage) returns (order: Option<OrderCommand>)
    requires s.gw.pending == [] && i < |s.market.procs| && FitsPacket(msg)
    requires Sound(s.market.procs[i], s.market.counter) && OnCourse(s.market.procs[i])
    ensures var m, s' := s.market, s.Dispatch(i, msg);
            && i < |s'.market.procs| && s'.market.procs == m.procs[i := s'.market.procs[i]]
            && s'.market.lookup == m.lookup
            && (order.None? ==> s'.gw.pending == [] && OnCourse(s'.market.procs[i]))
            && (order.Some? ==>
                  var r := Echo(order.value);
                  && s'.gw.pending == [r] && r.locate == m.procs[i].locate
                  && r.orderId in s'.market.procs[i].tracker && OnCourse(s'.market.procs[i].Fill(r)))
  {
    var m := s.market;
    order := m.procs[i].Handle(msg, s.gw, m.counter, m.time).order;
    HandleEffect(m.procs[i], msg, s.gw, m.counter, m.time);
    HandleOnCourse(m.procs[i], msg, s.gw, m.counter, m.time);
  }

  lemma DispatchSettles(s: System, i: nat, msg: ItchMessage)
    requires Settled(s) && FitsPacket(msg) && i < |s.market.procs|
    requires s.market.Slot(s.market.procs[i].locate) == Some(i)
    ensures Settled(s.Dispatch(i, msg).Drain())
  {
    var order := DispatchOnCourse(s, i, msg);
    DispatchKeepsSound(s, i, msg);
    DispatchHomes(s, i, msg);
    OrderSettles(s.market, s.Dispatch(i, msg), i, order);
  }

  // The market after symbol i moved and perhaps sent an order, once its fill is drained.
  lemma OrderSettles(m: State, s': System, i: nat, order: Option<OrderCommand>)
    requires i < |m.procs| && m.Slot(m.procs[i].locate) == Some(i)
    requires forall j | 0 <= j < |m.procs| :: OnCourse(m.procs[j])
    requires i < |s'.market.procs| && s'.market.procs == m.procs[i := s'.market.procs[i]]
    requires s'.market.lookup == m.lookup
    requires Homed(s'.market) && RiskIsBooked(s') && MarketSound(s'.market)
    requires order.None? ==> s'.gw.pending == [] && OnCourse(s'.market.procs[i])
    requires order.Some? ==>
               var r := Echo(order.value);
               && s'.gw.pending == [r] && r.locate == m.procs[i].locate
               && r.orderId in s'.market.procs[i].tracker && OnCourse(s'.market.procs[i].Fill(r))
    ensures Settled(s'.Drain())
  {
    if order.Some? {
      FillSettles(s', i, Echo(order.value));
    } else {
      assert s'.Drain() == s';
    }
  }

  // Draining the one fill of the one order just sent.
  lemma FillSettles(s: System, i: nat, r: ExecutionReport)
    requires Homed(s.market) && RiskIsBooked(s) && MarketSound(s.market)
    requires i < |s.market.procs| && s.gw.pending == [r] && s.market.Slot(r.locate) == Some(i)
    requires r.orderId in s.market.procs[i].tracker && OnCourse(s.market.procs[i].Fill(r))
    requires forall j | 0 <= j < |s.market.procs| && j != i :: OnCourse(s.market.procs[j])
    ensures Settled(s.Drain())
  {
    OneReport(s.market, r);
    ConfirmKeepsSound(s.market, r);
    ConfirmHomes(s.market, s.gw, r);
    DrainedIsBooked(s.market.Confirm(r), s.gw);
  }

  // Emptying the queue of fills moves no shares.
  lemma DrainedIsBooked(m: State, gw: Account)
    requires RiskIsBooked(System(m, gw))
    ensures RiskIsBooked(System(m, gw.(pending := [])))
  {
    var gw' := gw.(pending := []);
    forall i | 0 <= i < |m.procs| ensures m.procs[i].limits.position == Booked(m, gw', i, LOCATES) {
      BookedChange(m, gw, m, gw', i, 0, LOCATES);
    }
  }

  lemma FilterSettles(s: System, msg: ItchMessage)
    requires Settled(s) && FitsPacket(msg) && Unshared(s.market, msg)
    ensures Settled(s.Filter(msg).Drain())
  {
    if !msg.StockDirectory? && s.market.Slot(msg.locate).Some? {
      DispatchSettles(s, s.market.Slot(msg.locate).value, msg);
    } else {
      FilterHomes(s, msg);
      FilterKeepsSound(s, msg);
      assert s.Filter(msg).Drain() == s.Filter(msg);
    }
  }

  lemma PacketSettles(s: System, data: seq<u8>)
    requires Settled(s)
    requires Parse(data).Parsed? ==> Unshared(s.market, Parse(data).msg)
    ensures Settled(s.Packet(data).0)
  {
    if |data| >= 11 {
      var s1 := s.Tick(data);
      TickSettles(s, data);
      match Parse(data)
      case Parsed(m) =>
        ParsedFitsPacket(data);
        FilterSettles(s1, m);
      case Ignored => assert s1.Drain() == s1;
      case Panicked =>
    }
  }

  lemma TickSettles(s: System, data: seq<u8>)
    requires Settled(s) && |data| >= 11
    ensures Settled(s.Tick(data))
    ensures forall msg :: Unshared(s.Tick(data).market, msg) <==> Unshared(s.market, msg)
  {
    var m := s.Tick(data).market;
    assert forall l: u16 :: m.Slot(l) == s.market.Slot(l);
    forall i | 0 <= i < |m.procs| ensures m.procs[i].limits.position == Booked(m, s.gw, i, LOCATES) {
      BookedChange(s.market, s.gw, m, s.gw, i, 0, LOCATES);
    }
  }

  lemma StartSettled(symbols: seq<Symbol>, midnight: nat)
    ensures Settled(Start(symbols, midnight))
  {
    var s := Start(symbols, midnight);
    NewMarketIsSound(symbols, midnight);
    forall i | 0 <= i < |symbols| ensures 0 == Booked(s.market, s.gw, i, LOCATES) {
      NothingBooked(s.market, s.gw, i, LOCATES);
    }
  }

  lemma {:induction false} NothingBooked(m: State, gw: Account, i: nat, n: nat)
    requires n <= LOCATES && forall l: u16 :: m.Slot(l).None?
    ensures Booked(m, gw, i, n) == 0
  {
    if n == 0 {
    } else {
      NothingBooked(m, gw, i, n - 1);
    }
  }

  lemma {:induction false} RunSettles(symbols: seq<Symbol>, midnight: nat, packets: seq<seq<u8>>)
    requires UnsharedRun(Start(symbols, midnight), packets)
    ensures Settled(Start(symbols, midnight).Packets(packets).0)
    ensures |Start(symbols, midnight).Packets(packets).0.market.procs| == |symbols|
  {
    if packets == [] {
      StartSettled(symbols, midnight);
    } else {
      var n := |packets| - 1;
      assert forall k | 0 <= k < n :: packets[..n][..k] == packets[..k];
      RunSettles(symbols, midnight, packets[..n]);
      var r := Start(symbols, midnight).Packets(packets[..n]);
      if r.1 { PacketSettles(r.0, packets[n]); PacketKeepsSize(r.0, packets[n]); }
    }
  }

  lemma PacketKeepsSize(s: System, data: seq<u8>)
    ensures |s.Packet(data).0.market.procs| == |s.market.procs|
  {
    if |data| >= 11 {
      var s1 := s.Tick(data);
      match Parse(data)
      case Parsed(m) => ConfirmAllSize(s1.Filter(m).market, s1.Filter(m).gw.pending);
      case Ignored => ConfirmAllSize(s1.market, s1.gw.pending);
      case Panicked =>
    }
  }

  /** In every replay run without shared locates, each symbol's strategy position is 100 times
      the orders it sent, all of them confirmed; it never buys after its 51st order; and it
      sends at most 121 orders, however long the run. */
  lemma AtMost121Orders(symbols: seq<Symbol>, midnight: nat, packets: seq<seq<u8>>, i: nat)
    requires UnsharedRun(Start(symbols, midnight), packets) && i < |symbols|
    ensures var m := Start(symbols, midnight).Packets(packets).0.market;
            |m.procs| == |symbols| &&
            var p := m.procs[i];
            && p.strat.position == 100 * |p.log.fills| && |p.log.fills| == |p.log.sent| && p.tracker == {}
            && (forall k | 51 <= k < |p.log.sent| :: p.log.sent[k].side == Sell)
            && |p.log.sent| <= 121
  {
    RunSettles(symbols, midnight, packets);
    OnCourseCap(Start(symbols, midnight).Packets(packets).0.market.procs[i]);
  }

  /** In every such run each symbol's risk position is all the gateway holds on the locates
      it was ever assigned. */
  lemma RiskIsGatewayPosition(symbols: seq<Symbol>, midnight: nat, packets: seq<seq<u8>>, i: nat)
    requires UnsharedRun(Start(symbols, midnight), packets) && i < |symbols|
    ensures var s := Start(symbols, midnight).Packets(packets).0;
            |s.market.procs| == |symbols| &&
            s.market.procs[i].limits.position == Booked(s.market, s.gw, i, LOCATES)
  {
    RunSettles(symbols, midnight, packets);
  }
}
