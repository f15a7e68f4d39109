/** The cap on the orders of a replay run without shared locates: 121 for each target symbol, and
    a run that reaches it. */
module OrderCap {
  import opened Common
  import opened Sums
  import opened OrderBook
  import opened Itch
  import opened ItchRoundTrip
  import opened Gateway
  import opened Processor
  import opened ProcessorLaws
  import opened Market
  import opened ReplayLaws
  import opened TelemetryLaws
  import opened UnsharedLaws
  import opened FillRouting
  import opened BookLaws

  lemma {:induction false} SumAtMost(procs: seq<Proc>, cap: nat)
    requires forall i | 0 <= i < |procs| :: |procs[i].log.sent| <= cap
    ensures SumSeq(procs, ORDERS) <= cap * |procs|
  {
    if procs == [] {
    } else {
      SumAtMost(procs[..|procs| - 1], cap);
      assert cap * |procs| == cap * (|procs| - 1) + cap;
    }
  }

  lemma SumOfOne(procs: seq<Proc>)
    requires |procs| == 1
    ensures SumSeq(procs, ORDERS) == |procs[0].log.sent|
  {
    assert procs[..0] == [];
  }

  lemma CounterIsSum(symbols: seq<Symbol>, midnight: nat, packets: seq<seq<u8>>)
    ensures var m := Start(symbols, midnight).Packets(packets).0.market; m.counter == SumSeq(m.procs, ORDERS)
  {
    RunIsSound(symbols, midnight, packets);
    var acts := ReplayIsBehaviour(symbols, midnight, packets);
    AlwaysCounted(symbols, midnight, acts);
  }

  /** A replay run in which no locate is shared sends at most 121 orders for each target symbol,
      however long it is. */
  lemma CounterAtMost(symbols: seq<Symbol>, midnight: nat, packets: seq<seq<u8>>)
    requires UnsharedRun(Start(symbols, midnight), packets)
    ensures Start(symbols, midnight).Packets(packets).0.market.counter <= 121 * |symbols|
  {
    var m := Start(symbols, midnight).Packets(packets).0.market;
    CounterIsSum(symbols, midnight, packets);
    RunSettles(symbols, midnight, packets);
    forall i | 0 <= i < |m.procs| ensures |m.procs[i].log.sent| <= 121 {
      AtMost121Orders(symbols, midnight, packets, i);
    }
    SumAtMost(m.procs, 121);
  }

  /** The sides of the orders: sells in between keep the risk position low while the strategy,
      which counts every fill as bought, still buys; then it buys up to both caps; then it can
      only sell, down to the lower risk limit. */
  function Plan(k: nat): Side {
    if k < 51 && !(k < 16 && k % 2 == 1) then Buy else Sell
  }

  /** The risk position after k orders of the plan. */
  function Held(k: nat): int {
    if k <= 16 then 100 * (k % 2) else if k <= 51 then 100 * (k - 16) else 3500 - 100 * (k - 51)
  }

  /** The k-th order is provoked by a better price with 900 shares, which then shrink to 100. */
  function Provoke(k: nat, price: u64): ItchMessage
    requires k <= 121
  {
    AddOrder(1, 2 + k, Plan(k), 900, price)
  }

  function Calm(k: nat): ItchMessage
    requires k <= 121
  {
    ModifyOrder(1, 2 + k, 800)
  }

  /** A run without shared locates that is still going. */
  ghost predicate Runs(packets: seq<seq<u8>>, s: System) {
    && UnsharedRun(Start([FIRST], 0), packets)
    && Start([FIRST], 0).Packets(packets) == (s, true)
  }

  lemma OneMorePacket(packets: seq<seq<u8>>, s: System, data: seq<u8>, s': System)
    requires Runs(packets, s) && s.Packet(data) == (s', true)
    requires Parse(data).Parsed? ==> Unshared(s.market, Parse(data).msg)
    ensures Runs(packets + [data], s')
  {
    PacketsPush(Start([FIRST], 0), packets, data);
    assert forall k | 0 <= k <= |packets| :: (packets + [data])[..k] == packets[..k];
    forall k | 0 <= k < |packets| + 1
      ensures var r := Start([FIRST], 0).Packets((packets + [data])[..k]);
              r.1 && Parse((packets + [data])[k]).Parsed? ==> Unshared(r.0.market, Parse((packets + [data])[k]).msg)
    {
      assert packets[..|packets|] == packets;
      assert k < |packets| ==> (packets + [data])[k] == packets[k];
    }
  }

  /** One symbol on locate 1, every order filled. */
  ghost predicate Alone(s: System) {
    && Settled(s) && |s.market.procs| == 1 && s.market.Slot(1) == Some(0) && s.market.procs[0].locate == 1
  }

  // What one message on locate 1 does to the only symbol, its fill included.
  lemma OneMessage(packets: seq<seq<u8>>, s: System, m: ItchMessage) returns (s': System)
    requires Runs(packets, s) && Alone(s)
    requires m.locate == 1 && !m.StockDirectory? && FitsPacket(m)
    requires Parse(Print(m)) == Parsed(m) && |Print(m)| >= 11
    ensures Runs(packets + [Print(m)], s') && Alone(s')
    ensures Took(s.market, m, s'.market)
  {
    var s1 := s.Tick(Print(m));
    TickSettles(s, Print(m));
    s' := s1.Filter(m).Drain();
    FilterSettles(s1, m);
    DispatchMoves(s1, m);
    OneMorePacket(packets, s, Print(m), s');
  }

  /** The only symbol of one state has taken this message, and perhaps sent an order, by the other. */
  predicate Took(m: State, msg: ItchMessage, m': State) {
    && |m.procs| == |m'.procs| == 1 && m'.Slot(1) == m.Slot(1)
    && var p, p' := m.procs[0], m'.procs[0];
    var order := p.Absorb(msg).Decide(m.counter).1;
    && p'.locate == p.locate && p'.book == p.Absorb(msg).book
    && p'.log.sent == Push(p.log.sent, order)
    && p'.limits.position == p.limits.position + if order.Some? then Signed(order.value) else 0
  }

  lemma DispatchTakes(s: System, msg: ItchMessage)
    requires |s.market.procs| == 1
    ensures Took(s.market, msg, s.Dispatch(0, msg).market)
  {
    var p := s.market.procs[0];
    HandleEffect(p, msg, s.gw, s.market.counter, s.market.time);
    HandleKeepsBook(p, msg, s.gw, s.market.counter, s.market.time);
  }

  lemma StillTook(m: State, msg: ItchMessage, m': State, r: ExecutionReport)
    requires Took(m, msg, m')
    ensures Took(m, msg, m'.Confirm(r))
  {
  }

  lemma DispatchMoves(s: System, msg: ItchMessage)
    requires Alone(s) && msg.locate == 1 && !msg.StockDirectory?
    ensures Took(s.market, msg, s.Filter(msg).Drain().market)
  {
    assert s.Filter(msg) == s.Dispatch(0, msg);
    DispatchTakes(s, msg);
    DispatchDrained(s, 0, msg);
    var order := s.market.procs[0].Handle(msg, s.gw, s.market.counter, s.market.time).order;
    if order.Some? { StillTook(s.market, msg, s.Dispatch(0, msg).market, Echo(order.value)); }
  }

  lemma HandleKeepsBook(p: Proc, m: ItchMessage, gw: Account, id: nat, time: nat)
    ensures p.Handle(m, gw, id, time).p.book == p.Absorb(m).book
  {
    DecideEffect(p.Absorb(m), id);
    EmitEffect(p.Absorb(m).Decide(id).0, p.Handle(m, gw, id, time).gw, time);
  }

  function Other(side: Side): Side {
    if side == Buy then Sell else Buy
  }

  /** A better price on one side becomes the best there, and leaves the other side alone. */
  lemma BetterIsBest(b: Book, id: u64, side: Side, price: u64)
    requires b.Best(side).Some? ==> Better(side, price, b.Best(side).value.price)
    ensures var b' := b.Add(id, side, price, 900);
            && b'.Best(side) == Some(Quote(price, 900)) && b'.Best(Other(side)) == b.Best(Other(side))
            && id in b'.orders && b'.orders[id] == Order(price, 900, side)
  {
    var b' := b.Add(id, side, price, 900);
    assert price in b'.On(side) && b'.On(side)[price] == 900;
    assert b'.On(Other(side)) == b.On(Other(side));
  }

  lemma ShrunkIsBest(b: Book, id: u64, side: Side, price: u64)
    requires id in b.orders && b.orders[id] == Order(price, 900, side) && b.Best(side) == Some(Quote(price, 900))
    ensures var b' := b.Cancel(id, 800);
            b'.Best(side) == Some(Quote(price, 100)) && b'.Best(Other(side)) == b.Best(Other(side))
  {
    var b' := b.Cancel(id, 800);
    assert price in b'.On(side) && b'.On(side)[price] == 100;
    assert b'.On(Other(side)) == b.On(Other(side));
  }

  /** The symbol after k orders of the plan, with 100 shares at either best price. */
  ghost predicate Poised(s: System, k: nat, bid: u64, ask: u64) {
    && Alone(s) && k <= 121 && bid + 122 - k <= ask < TWO32
    && var p := s.market.procs[0];
    && |p.log.sent| == k && p.limits.position == Held(k)
    && p.book.BestBid() == Some(Quote(bid, 100)) && p.book.BestAsk() == Some(Quote(ask, 100))
  }

  lemma RememberedMid(p: Proc)
    requires FollowsFeed(p) && TwoSided(p.book)
    ensures LastMid(p.log.feed) == Mid2(p.book)
  {
    assert p.log.feed != [];
  }

  lemma HeldNext(k: nat)
    requires k < 121
    ensures Plan(k) == Buy ==> k <= 50 && Held(k) <= 3400 && Held(k + 1) == Held(k) + 100
    ensures Plan(k) == Sell ==> Held(k) >= -3400 && Held(k + 1) == Held(k) - 100
  {
  }

  function Closer(k: nat, bid: u64, ask: u64): u64
    requires bid < ask
  {
    if Plan(k) == Buy then bid + 1 else ask - 1
  }

  /** A better price with nine tenths of the best shares provokes the planned order. */
  lemma Provokes(p: Proc, k: nat, bid: u64, ask: u64, id: nat)
    requires k < 121 && bid + 1 < ask < TWO32
    requires FollowsFeed(p) && WithinLimits(p) && p.strat.position == 100 * k && p.limits.position == Held(k)
    requires p.book.BestBid() == Some(Quote(bid, 100)) && p.book.BestAsk() == Some(Quote(ask, 100))
    ensures var q, price := p.Absorb(Provoke(k, Closer(k, bid, ask))), Closer(k, bid, ask);
            && q.book.Best(Plan(k)) == Some(Quote(price, 900))
            && q.book.Best(Other(Plan(k))) == p.book.Best(Other(Plan(k)))
            && 2 + k in q.book.orders && q.book.orders[2 + k] == Order(price, 900, Plan(k))
            && var order := q.Decide(id).1;
               order.Some? && order.value.side == Plan(k) && order.value.quantity == 100
  {
    var price := Closer(k, bid, ask);
    BetterIsBest(p.book, 2 + k, Plan(k), price);
    RememberedMid(p);
    HeldNext(k);
    SendsExactlyWhen(p, Provoke(k, price), id);
  }

  lemma ProvokePrints(k: nat, price: u64)
    requires k <= 121 && price < TWO32
    ensures var m := Provoke(k, price); Parse(Print(m)) == Parsed(m) && |Print(m)| >= 11
    ensures Parse(Print(Calm(k))) == Parsed(Calm(k)) && |Print(Calm(k))| >= 11
  {
    AddRoundTrip(1, 2 + k, Plan(k), 900, price);
    ModifyRoundTrip(1, 2 + k, 800);
  }

  lemma Provoked(packets: seq<seq<u8>>, s: System, k: nat, bid: u64, ask: u64) returns (s': System)
    requires Runs(packets, s) && Poised(s, k, bid, ask) && k < 121
    ensures Runs(packets + [Print(Provoke(k, Closer(k, bid, ask)))], s') && Alone(s')
    ensures var p, price := s'.market.procs[0], Closer(k, bid, ask);
            && |p.log.sent| == k + 1 && p.limits.position == Held(k + 1)
            && p.book.Best(Plan(k)) == Some(Quote(price, 900))
            && p.book.Best(Other(Plan(k))) == s.market.procs[0].book.Best(Other(Plan(k)))
            && 2 + k in p.book.orders && p.book.orders[2 + k] == Order(price, 900, Plan(k))
  {
    var price := Closer(k, bid, ask);
    ProvokePrints(k, price);
    s' := OneMessage(packets, s, Provoke(k, price));
    Provokes(s.market.procs[0], k, bid, ask, s.market.counter);
    HeldNext(k);
  }

  // The shares shrink at an unmoved midpoint, so nothing is sent.
  lemma Calmed(packets: seq<seq<u8>>, s: System, k: nat, price: u64, side: Side) returns (s': System)
    requires Runs(packets, s) && Alone(s) && k <= 121 && price < TWO32
    requires var b := s.market.procs[0].book;
             && b.Best(side) == Some(Quote(price, 900)) && b.Best(Other(side)).Some?
             && 2 + k in b.orders && b.orders[2 + k] == Order(price, 900, side)
    ensures Runs(packets + [Print(Calm(k))], s') && Alone(s')
    ensures var p, p' := s.market.procs[0], s'.market.procs[0];
            && p'.log.sent == p.log.sent && p'.limits.position == p.limits.position
            && p'.book.Best(side) == Some(Quote(price, 100)) && p'.book.Best(Other(side)) == p.book.Best(Other(side))
  {
    ProvokePrints(k, price);
    CalmSendsNothing(s.market.procs[0], k, price, side, s.market.counter);
    s' := OneMessage(packets, s, Calm(k));
  }

  lemma CalmSendsNothing(p: Proc, k: nat, price: u64, side: Side, id: nat)
    requires FollowsFeed(p) && WithinLimits(p) && k <= 121
    requires p.book.Best(side) == Some(Quote(price, 900)) && p.book.Best(Other(side)).Some?
    requires 2 + k in p.book.orders && p.book.orders[2 + k] == Order(price, 900, side)
    ensures var q := p.Absorb(Calm(k));
            && q.Decide(id).1.None?
            && q.book.Best(side) == Some(Quote(price, 100)) && q.book.Best(Other(side)) == p.book.Best(Other(side))
  {
    ShrunkIsBest(p.book, 2 + k, side, price);
    NoMoveNoOrder(p, Calm(k), id);
  }

  lemma OneMoreOrder(packets: seq<seq<u8>>, s: System, k: nat, bid: u64, ask: u64)
    returns (packets': seq<seq<u8>>, s': System, bid': u64, ask': u64)
    requires Runs(packets, s) && Poised(s, k, bid, ask) && k < 121
    ensures Runs(packets', s') && Poised(s', k + 1, bid', ask')
  {
    var side, price := Plan(k), Closer(k, bid, ask);
    var s1 := Provoked(packets, s, k, bid, ask);
    var packets1 := packets + [Print(Provoke(k, price))];
    s' := Calmed(packets1, s1, k, price, side);
    packets' := packets1 + [Print(Calm(k))];
    bid', ask' := if side == Buy then price else bid, if side == Sell then price else ask;
  }

  const OPENING_BID := AddOrder(1, 0, Buy, 100, 1000)
  const OPENING_ASK := AddOrder(1, 1, Sell, 100, 2000)

  lemma Opened() returns (packets: seq<seq<u8>>, s: System)
    ensures Runs(packets, s) && Alone(s)
    ensures s.market.procs[0].log.sent == [] && s.market.procs[0].limits.position == 0
    ensures s.market.procs[0].book == EMPTY_BOOK
  {
    var s0, data := Start([FIRST], 0), Print(StockDirectory(1, FIRST));
    assert s0.market.procs == [NewProc(FIRST)];
    assert FindSymbol(s0.market.procs, FIRST) == Some(0);
    s := DirectoryMoves(s0, 1, FIRST, 0);
    DirectoryRoundTrip(1, FIRST);
    assert Trim(FIRST) == FIRST && Clean(FIRST) == FIRST;
    StartSettled([FIRST], 0);
    PacketSettles(s0, data);
    assert Runs([], s0);
    OneMorePacket([], s0, data, s);
    packets := [] + [data];
  }

  // The opening quotes balance, so nothing is sent.
  lemma Quoted() returns (packets: seq<seq<u8>>, s: System)
    ensures Runs(packets, s) && Poised(s, 0, 1000, 2000)
  {
    var packets0, s0 := Opened();
    AddRoundTrip(1, 0, Buy, 100, 1000);
    AddRoundTrip(1, 1, Sell, 100, 2000);
    OpeningBook(s0.market.procs[0].book);
    Balanced(s0.market.procs[0], OPENING_BID, s0.market.counter);
    var s1 := OneMessage(packets0, s0, OPENING_BID);
    var packets1 := packets0 + [Print(OPENING_BID)];
    Balanced(s1.market.procs[0], OPENING_ASK, s1.market.counter);
    s := OneMessage(packets1, s1, OPENING_ASK);
    packets := packets1 + [Print(OPENING_ASK)];
  }

  lemma Balanced(p: Proc, m: ItchMessage, id: nat)
    requires FollowsFeed(p) && WithinLimits(p) && FitsPacket(m)
    requires var b := p.Absorb(m).book; TwoSided(b) ==> b.BestBid().value.quantity == b.BestAsk().value.quantity == 100
    ensures p.Absorb(m).Decide(id).1.None?
  {
    SendsExactlyWhen(p, m, id);
  }

  lemma OpeningBook(b: Book)
    requires b == EMPTY_BOOK
    ensures var b1 := b.Add(0, Buy, 1000, 100);
            var b2 := b1.Add(1, Sell, 2000, 100);
            && !TwoSided(b1)
            && b2.BestBid() == Some(Quote(1000, 100)) && b2.BestAsk() == Some(Quote(2000, 100))
  {
    var b2 := b.Add(0, Buy, 1000, 100).Add(1, Sell, 2000, 100);
    assert b2.bids == map[1000 := 100] && b2.asks == map[2000 := 100];
    assert 1000 in b2.bids && 2000 in b2.asks;
  }

  lemma {:induction false} PlanRuns(k: nat) returns (packets: seq<seq<u8>>, s: System, bid: u64, ask: u64)
    requires k <= 121
    ensures Runs(packets, s) && Poised(s, k, bid, ask)
  {
    if k == 0 {
      packets, s := Quoted();
      bid, ask := 1000, 2000;
    } else {
      packets, s, bid, ask := PlanRuns(k - 1);
      packets, s, bid, ask := OneMoreOrder(packets, s, k - 1, bid, ask);
    }
  }

  /** The cap is reached: some run without shared locates has its one symbol send 121 orders. */
  lemma CapIsReached() returns (packets: seq<seq<u8>>)
    ensures UnsharedRun(Start([FIRST], 0), packets)
    ensures var m := Start([FIRST], 0).Packets(packets).0.market;
            m.counter == 121 && |m.procs| == 1 && |m.procs[0].log.sent| == 121
  {
    var s, bid, ask;
    packets, s, bid, ask := PlanRuns(121);
    CounterIsSum([FIRST], 0, packets);
    SumOfOne(s.market.procs);
  }
}
