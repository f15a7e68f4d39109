/** Which fills reach the symbol that sent the order, and which never do. */
module FillRouting {
  import opened Common
  import opened Itch
  import opened ItchRoundTrip
  import opened Gateway
  import opened Processor
  import opened ProcessorLaws
  import opened Market
  import opened MarketLaws
  import opened ReplayLaws
  import OrderBook

  predicate Awaits(m: State, i: nat, id: nat) {
    i < |m.procs| && id in m.procs[i].tracker
  }

  lemma ConfirmedOrNot(m: State, i: nat, r: ExecutionReport)
    requires Awaits(m, i, r.orderId)
    ensures Awaits(m.Confirm(r), i, r.orderId) <==> m.Slot(r.locate) != Some(i)
  {
  }

  /** The market after the fill of the order just sent, if any, has been drained. */
  lemma DispatchDrained(s: System, i: nat, msg: ItchMessage)
    requires s.gw.pending == [] && i < |s.market.procs|
    ensures var e := s.market.procs[i].Handle(msg, s.gw, s.market.counter, s.market.time);
            var m' := s.Dispatch(i, msg).market;
            s.Dispatch(i, msg).Drain().market == if e.order.Some? then m'.Confirm(Echo(e.order.value)) else m'
  {
    var e := s.market.procs[i].Handle(msg, s.gw, s.market.counter, s.market.time);
    if e.order.Some? {
      assert s.Dispatch(i, msg).gw.pending == [Echo(e.order.value)];
      OneReport(s.Dispatch(i, msg).market, Echo(e.order.value));
    } else {
      assert s.Dispatch(i, msg).gw.pending == [];
    }
  }

  // A message changes nothing about who awaits the orders sent before it.
  lemma DispatchKeepsAwaiting(s: System, j: nat, msg: ItchMessage, i: nat, id: nat)
    requires s.gw.pending == [] && j < |s.market.procs| && id < s.market.counter
    ensures Awaits(s.Dispatch(j, msg).Drain().market, i, id) <==> Awaits(s.market, i, id)
    ensures s.Dispatch(j, msg).Drain().market.counter >= s.market.counter
  {
    HandleEffect(s.market.procs[j], msg, s.gw, s.market.counter, s.market.time);
    DispatchDrained(s, j, msg);
  }

  lemma PacketKeepsAwaiting(s: System, data: seq<u8>, i: nat, id: nat)
    requires s.gw.pending == [] && id < s.market.counter
    ensures var s' := s.Packet(data).0;
            && (Awaits(s'.market, i, id) <==> Awaits(s.market, i, id))
            && s'.gw.pending == [] && s'.market.counter >= s.market.counter
  {
    if |data| >= 11 {
      var s1 := s.Tick(data);
      match Parse(data)
      case Parsed(m) =>
        if !m.StockDirectory? && s1.market.Slot(m.locate).Some? {
          DispatchKeepsAwaiting(s1, s1.market.Slot(m.locate).value, m, i, id);
        } else {
          assert s1.Filter(m).Drain() == s1.Filter(m);
        }
      case Ignored => assert s1.Drain() == s1;
      case Panicked =>
    }
  }

  /** Once no fill is pending, whoever awaits an order sent so far awaits it after any further
      packets too, and nobody else comes to await it: each order has one chance to be credited. */
  lemma {:induction false} StillAwaited(s: System, packets: seq<seq<u8>>, i: nat, id: nat)
    requires s.gw.pending == [] && id < s.market.counter
    ensures var s' := s.Packets(packets).0;
            && (Awaits(s'.market, i, id) <==> Awaits(s.market, i, id))
            && s'.gw.pending == [] && s'.market.counter >= s.market.counter
  {
    if packets == [] {
    } else {
      var n := |packets| - 1;
      StillAwaited(s, packets[..n], i, id);
      if s.Packets(packets[..n]).1 {
        PacketKeepsAwaiting(s.Packets(packets[..n]).0, packets[n], i, id);
      }
    }
  }

  /** The fill of an order just sent is credited to its sender exactly when the sender's
      current locate still leads to it; otherwise the sender still awaits it after any packets
      that follow. */
  lemma FillReachesSenderExactlyWhen(s: System, i: nat, msg: ItchMessage, later: seq<seq<u8>>)
    requires s.gw.pending == [] && i < |s.market.procs|
    ensures s.market.procs[i].Handle(msg, s.gw, s.market.counter, s.market.time).order.Some? ==>
              (Awaits(s.Dispatch(i, msg).Drain().Packets(later).0.market, i, s.market.counter)
               <==> s.market.Slot(s.market.procs[i].locate) != Some(i))
  {
    var m, s' := s.market, s.Dispatch(i, msg);
    var e := m.procs[i].Handle(msg, s.gw, m.counter, m.time);
    HandleEffect(m.procs[i], msg, s.gw, m.counter, m.time);
    if e.order.Some? {
      DispatchDrained(s, i, msg);
      assert s'.market.Slot(m.procs[i].locate) == m.Slot(m.procs[i].locate);
      ConfirmedOrNot(s'.market, i, Echo(e.order.value));
      StillAwaited(s'.Drain(), later, i, m.counter);
    }
  }

  const FIRST: Symbol := [65]
  const SECOND: Symbol := [66]
  const ASK := AddOrder(1, 10, Sell, 100, 200)
  const BID := AddOrder(1, 11, Buy, 900, 100)
  const FIRST_ORDER := OrderCommand(2, 0, 200, 100, Buy)

  /** An empty symbol after a sell of 100 at 200. */
  ghost predicate OneSided(q: Proc) {
    && q.book == OrderBook.Book(map[10 := OrderBook.Order(200, 100, Sell)], map[], map[200 := 100])
    && Sound(q, 0) && LastMid(q.log.feed) == 0
    && q.tracker == {} && q.locate == 2 && q.strat.position == 0 && q.limits.position == 0
  }

  lemma AskAlone(p: Proc, gw: Account, time: nat)
    requires p == NewProc(FIRST).(locate := 2)
    ensures var e := p.Handle(ASK, gw, 0, time); e.order.None? && e.gw == gw && OneSided(e.p)
  {
    NewIsSound(FIRST);
    var b := p.Absorb(ASK).book;
    assert b == OrderBook.Book(map[10 := OrderBook.Order(200, 100, Sell)], map[], map[200 := 100]);
    assert !TwoSided(b);
    SendsExactlyWhen(p, ASK, 0);
    HandleEffect(p, ASK, gw, 0, time);
    HandleKeepsSound(p, ASK, gw, 0, time);
    DecideEffect(p.Absorb(ASK), 0);
  }

  // A larger buy at 100 moves the midpoint up from nothing: the symbol buys at 200.
  lemma BidBuys(q: Proc, gw: Account, time: nat)
    requires OneSided(q)
    ensures q.Handle(BID, gw, 0, time).order == Some(FIRST_ORDER)
  {
    var b := q.Absorb(BID).book;
    assert b.bids == map[100 := 900] && b.asks == map[200 := 100];
    assert 200 in b.asks && b.BestAsk().value.price in b.asks;
    assert b.BestBid() == Some(OrderBook.Quote(100, 900)) && b.BestAsk() == Some(OrderBook.Quote(200, 100));
    SendsExactlyWhen(q, BID, 0);
    HandleEffect(q, BID, gw, 0, time);
  }

  /** The first symbol is given locates 1 and 2, then the second symbol is given 2; the ask
      and the bid go to the first symbol on locate 1. */
  const SHARING: seq<seq<u8>> := [
    Print(StockDirectory(1, FIRST)), Print(StockDirectory(2, FIRST)), Print(StockDirectory(2, SECOND)),
    Print(ASK), Print(BID)]

  /** Locate 1 leads to the first symbol, locate 2, which it sends on, to the second. */
  ghost predicate Split(s: System) {
    && s.market.Slot(1) == Some(0) && s.market.Slot(2) == Some(1) && |s.market.procs| == 2
    && s.market.counter == 0 && s.market.sent == [] && s.gw == EMPTY_ACCOUNT && s.market.procs[1].tracker == {}
  }

  lemma DirectoryMoves(s: System, locate: u16, symbol: Symbol, i: nat) returns (s': System)
    requires symbol == FIRST || symbol == SECOND
    requires s.gw == EMPTY_ACCOUNT && |s.market.lookup| == LOCATES && FindSymbol(s.market.procs, symbol) == Some(i)
    ensures s.Packet(Print(StockDirectory(locate, symbol))) == (s', true) && s'.gw == EMPTY_ACCOUNT
    ensures s'.market == s.market.(time := s'.market.time, lookup := s.market.lookup[locate := i],
                                   procs := s.market.procs[i := s.market.procs[i].(locate := locate)])
  {
    assert Trim(symbol) == symbol && Clean(symbol) == symbol;
    DirectoryPacketIs(s, locate, symbol);
    s' := s.Packet(Print(StockDirectory(locate, symbol))).0;
  }

  lemma FirstThenSecond(procs: seq<Proc>)
    requires |procs| == 2 && procs[0].symbol == FIRST && procs[1].symbol == SECOND
    ensures FindSymbol(procs, FIRST) == Some(0) && FindSymbol(procs, SECOND) == Some(1)
  {
  }

  lemma Shared(midnight: nat) returns (s: System)
    ensures Start([FIRST, SECOND], midnight).Packets(SHARING[..3]) == (s, true)
    ensures Split(s) && s.market.procs[0] == NewProc(FIRST).(locate := 2)
  {
    var s0 := Start([FIRST, SECOND], midnight);
    FirstThenSecond(s0.market.procs);
    var s1 := DirectoryMoves(s0, 1, FIRST, 0);
    FirstThenSecond(s1.market.procs);
    var s2 := DirectoryMoves(s1, 2, FIRST, 0);
    FirstThenSecond(s2.market.procs);
    s := DirectoryMoves(s2, 2, SECOND, 1);
    assert SHARING[..0] == [];
    PacketsStep(s0, SHARING, 0);
    PacketsStep(s0, SHARING, 1);
    PacketsStep(s0, SHARING, 2);
  }

  lemma AfterAsk(s: System) returns (s': System)
    requires Split(s) && s.market.procs[0] == NewProc(FIRST).(locate := 2)
    ensures s.Packet(Print(ASK)) == (s', true) && Split(s') && OneSided(s'.market.procs[0])
  {
    AddRoundTrip(1, 10, Sell, 100, 200);
    var s1 := s.Tick(Print(ASK));
    AskAlone(s1.market.procs[0], s1.gw, s1.market.time);
    assert s1.Filter(ASK) == s1.Dispatch(0, ASK);
    DispatchDrained(s1, 0, ASK);
    s' := s1.Filter(ASK).Drain();
  }

  lemma BidHandled(s: System) returns (s': System)
    requires Split(s) && OneSided(s.market.procs[0])
    ensures s' == s.Filter(BID).Drain() && s'.gw.pending == []
    ensures s'.market.sent == [FIRST_ORDER] && s'.market.counter == 1
    ensures Awaits(s'.market, 0, 0) && s'.market.procs[0].strat.position == 0
  {
    var q := s.market.procs[0];
    BidBuys(q, s.gw, s.market.time);
    HandleEffect(q, BID, s.gw, 0, s.market.time);
    assert s.Filter(BID) == s.Dispatch(0, BID);
    DispatchDrained(s, 0, BID);
    s' := s.Filter(BID).Drain();
  }

  lemma AfterBid(s: System) returns (s': System)
    requires Split(s) && OneSided(s.market.procs[0])
    ensures s.Packet(Print(BID)) == (s', true) && s'.gw.pending == []
    ensures s'.market.sent == [FIRST_ORDER] && s'.market.counter == 1
    ensures Awaits(s'.market, 0, 0) && s'.market.procs[0].strat.position == 0
  {
    AddRoundTrip(1, 11, Buy, 900, 100);
    s' := BidHandled(s.Tick(Print(BID)));
  }

  lemma AfterSharing(midnight: nat) returns (s: System)
    ensures Start([FIRST, SECOND], midnight).Packets(SHARING) == (s, true) && s.gw.pending == []
    ensures s.market.sent == [FIRST_ORDER] && s.market.counter == 1
    ensures Awaits(s.market, 0, 0) && s.market.procs[0].strat.position == 0
  {
    var s0 := Start([FIRST, SECOND], midnight);
    var s3 := Shared(midnight);
    var s4 := AfterAsk(s3);
    s := AfterBid(s4);
    PacketsStep(s0, SHARING, 3);
    PacketsStep(s0, SHARING, 4);
    assert SHARING[..5] == SHARING;
  }

  /** A concrete shared locate: after these packets the gateway has filled the first symbol's
      first order, but the fill went to the second symbol, which drops it. However the run
      goes on, the order is awaited and never credited. */
  lemma SharedLocateLosesFill(midnight: nat, later: seq<seq<u8>>)
    ensures var m := Start([FIRST, SECOND], midnight).Packets(SHARING).0.market;
            m.sent == [FIRST_ORDER] && m.counter == 1 && Awaits(m, 0, 0) && m.procs[0].strat.position == 0
    ensures var m := Start([FIRST, SECOND], midnight).Packets(SHARING + later).0.market;
            Awaits(m, 0, 0) && 0 !in m.procs[0].log.fills
  {
    var s := AfterSharing(midnight);
    PacketsOn(Start([FIRST, SECOND], midnight), SHARING, later);
    StillAwaited(s, later, 0, 0);
    RunIsSound([FIRST, SECOND], midnight, SHARING + later);
  }
}
