/** What holds of one symbol in every reachable state, whatever the gateway reports. */
module ProcessorLaws {
  import opened Common
  import opened Sums
  import opened OrderBook
  import opened Strategy
  import opened Risk
  import opened Itch
  import opened ItchRoundTrip
  import opened Gateway
  import opened Processor
  import Feed

  const SIGNED: OrderCommand -> int := (c: OrderCommand) => Signed(c)

  predicate TwoSided(b: Book) {
    b.BestBid().Some? && b.BestAsk().Some?
  }

  /** Twice the midpoint of the best prices. */
  function Mid2(b: Book): nat
    requires TwoSided(b)
  {
    b.BestBid().value.price + b.BestAsk().value.price
  }

  /** Twice the midpoint the last time the book had both sides; zero if it never had. */
  function LastMid(ms: seq<ItchMessage>): nat {
    if ms == [] then 0
    else if TwoSided(Feed.BookAfter(ms)) then Mid2(Feed.BookAfter(ms))
    else LastMid(Feed.Init(ms))
  }

  /** Every price in the book fits the 4-byte price field of a packet. */
  ghost predicate SmallPrices(b: Book) {
    && (forall id | id in b.orders :: b.orders[id].price < TWO32)
    && (forall p: u64 | p in b.bids :: p < TWO32)
    && (forall p: u64 | p in b.asks :: p < TWO32)
  }

  /** Book, tape and midpoint are those of the messages received. */
  ghost predicate FollowsFeed(p: Proc) {
    && p.book == Feed.BookAfter(p.log.feed)
    && p.tape == Feed.TapeAfter(p.log.feed)
    && p.strat.mid2 == LastMid(p.log.feed)
    && SmallPrices(p.book)
  }

  /** The risk position is the signed sum of the orders sent, all of 100 shares, in bounds. */
  ghost predicate WithinLimits(p: Proc) {
    && p.limits == DEFAULT_LIMITS.(position := p.limits.position)
    && p.limits.position == SumSeq(p.log.sent, SIGNED)
    && p.limits.position % 100 == 0
    && -3500 <= p.limits.position <= 3500
    && forall k | 0 <= k < |p.log.sent| :: p.log.sent[k].quantity == ORDER_QUANTITY
  }

  ghost predicate SentIn(p: Proc, id: nat) {
    exists k :: 0 <= k < |p.log.sent| && p.log.sent[k].orderId == id
  }

  /** Every order sent is either awaited or was filled, once. */
  ghost predicate FilledOnce(p: Proc, counter: nat) {
    && (forall k | 0 <= k < |p.log.sent| :: p.log.sent[k].orderId < counter)
    && (forall id | id in p.tracker :: SentIn(p, id) && id !in p.log.fills)
    && (forall k | 0 <= k < |p.log.fills| :: SentIn(p, p.log.fills[k]))
    && (forall j, k | 0 <= j < k < |p.log.fills| :: p.log.fills[j] != p.log.fills[k])
    && |p.log.sent| == |p.log.fills| + |p.tracker|
    && p.strat.tradeCount == |p.log.fills|
  }

  /** Emitted midpoints are positive and each differs from the one before. */
  predicate MidsAlternate(p: Proc) {
    && p.lastMid == (if p.log.mids == [] then 0 else p.log.mids[|p.log.mids| - 1])
    && (forall k | 0 <= k < |p.log.mids| :: p.log.mids[k] > 0)
    && (forall k | 0 < k < |p.log.mids| :: p.log.mids[k - 1] != p.log.mids[k])
  }

  ghost predicate Sound(p: Proc, counter: nat) {
    FollowsFeed(p) && WithinLimits(p) && FilledOnce(p, counter) && MidsAlternate(p)
  }

  lemma NewIsSound(symbol: Symbol)
    ensures Sound(NewProc(symbol), 0)
  {
  }

  lemma SmallPricesKept(p: Proc, m: ItchMessage)
    requires SmallPrices(p.book) && FitsPacket(m)
    ensures SmallPrices(p.Absorb(m).book)
  {
  }

  lemma AbsorbFollows(p: Proc, m: ItchMessage)
    requires FollowsFeed(p) && FitsPacket(m)
    ensures var q := p.Absorb(m);
            && q.log.feed == p.log.feed + [m] && Feed.Init(q.log.feed) == p.log.feed
            && q.book == Feed.BookAfter(q.log.feed) && q.tape == Feed.TapeAfter(q.log.feed)
            && SmallPrices(q.book)
  {
    SmallPricesKept(p, m);
    Feed.AfterOneMore(p.log.feed, m);
    assert (p.log.feed + [m])[..|p.log.feed|] == p.log.feed;
  }

  /** When the strategy wants to buy or sell, given the doubled midpoint it remembers. */
  predicate BuySignal(b: Book, before: nat) {
    TwoSided(b) &&
    var bid, ask := b.BestBid().value.quantity, b.BestAsk().value.quantity;
    Add32(bid, ask) != 0 && 5 * bid > 4 * Add32(bid, ask) && Mid2(b) > before
  }

  predicate SellSignal(b: Book, before: nat) {
    TwoSided(b) &&
    var bid, ask := b.BestBid().value.quantity, b.BestAsk().value.quantity;
    Add32(bid, ask) != 0 && 5 * bid < Add32(bid, ask) && Mid2(b) < before
  }

  /** The order a symbol sends when it sees a book: it buys at the best ask or sells at the
      best bid, 100 shares, while both position limits allow it. */
  ghost function Expected(b: Book, before: nat, filled: int, position: int, locate: u16, id: nat): Option<OrderCommand>
    requires SmallPrices(b)
  {
    if BuySignal(b, before) && filled <= 5000 && position <= 3400 then
      Some(OrderCommand(locate, id, b.BestAsk().value.price, 100, Buy))
    else if SellSignal(b, before) && filled > -5000 && position >= -3400 then
      Some(OrderCommand(locate, id, b.BestBid().value.price, 100, Sell))
    else None
  }

  lemma StrategyWish(s: Strat, b: Book)
    ensures var wish := s.OnBookUpdate(b.BestBid(), b.BestAsk()).1;
            && (wish.Some? <==>
                  || (BuySignal(b, s.mid2) && s.position <= 5000)
                  || (SellSignal(b, s.mid2) && s.position > -5000))
            && (wish.Some? ==>
                  && (wish.value.side == Buy <==> BuySignal(b, s.mid2))
                  && wish.value.quantity == 100
                  && wish.value.price == (if wish.value.side == Buy then b.BestAsk() else b.BestBid()).value.price % TWO32)
  {
  }

  // Only the position limit can reject an order priced at the opposite best.
  lemma OnlyPositionRejects(l: Limits, b: Book, cmd: OrderCommand)
    requires l == DEFAULT_LIMITS.(position := l.position) && cmd.quantity == 100 && TwoSided(b)
    requires cmd.price == (if cmd.side == Buy then b.BestAsk() else b.BestBid()).value.price
    ensures l.Judge(cmd, b.BestBid(), b.BestAsk())
         == if -3500 <= l.position + Signed(cmd) <= 3500 then Pass else PositionFail
  {
  }

  lemma DecideIsExpected(q: Proc, id: nat)
    requires SmallPrices(q.book) && WithinLimits(q)
    ensures q.Decide(id).1 == Expected(q.book, q.strat.mid2, q.strat.position, q.limits.position, q.locate, id)
  {
    var wish := q.strat.OnBookUpdate(q.book.BestBid(), q.book.BestAsk()).1;
    StrategyWish(q.strat, q.book);
    if wish.Some? {
      OnlyPositionRejects(q.limits, q.book, wish.value.(locate := q.locate));
    }
  }

  /** A symbol sends exactly the expected order, given the midpoint of the last two-sided
      book: the price is the opposite best price, unchanged by the cast to u32, and neither
      the size limit nor the price band ever rejects it. */
  lemma SendsExactlyWhen(p: Proc, m: ItchMessage, id: nat)
    requires FollowsFeed(p) && WithinLimits(p) && FitsPacket(m)
    ensures SmallPrices(p.Absorb(m).book)
    ensures p.Absorb(m).Decide(id).1
         == Expected(p.Absorb(m).book, LastMid(p.log.feed), p.strat.position, p.limits.position, p.locate, id)
  {
    AbsorbFollows(p, m);
    DecideIsExpected(p.Absorb(m), id);
  }

  /** The sent order is what changes: position and log take it, all else of the risk state stays. */
  lemma DecideEffect(q: Proc, id: nat)
    ensures var (q', order) := q.Decide(id);
            && q'.log == q.log.(sent := Push(q.log.sent, order))
            && q'.tracker == (if order.Some? then q.tracker + {id} else q.tracker)
            && (order.Some? ==>
                  order.value.orderId == id && order.value.quantity == ORDER_QUANTITY && order.value.locate == q.locate)
            && q'.limits == (if order.Some?
                             then q.limits.(position := q.limits.position + Signed(order.value)) else q.limits)
            && (order.Some? ==> Abs(q'.limits.position) <= q.limits.maxPosition)
            && q'.strat.position == q.strat.position && q'.strat.tradeCount == q.strat.tradeCount
            && q'.strat.mid2 == (if TwoSided(q.book) then Mid2(q.book) else q.strat.mid2)
            && q'.(strat := q.strat, limits := q.limits, tracker := q.tracker, log := q.log) == q
  {
  }

  lemma EmitEffect(p: Proc, gw: Account, time: nat)
    ensures var (p', payload) := p.Emit(gw, time);
            && p'.(lastMid := p.lastMid, log := p.log) == p
            && p'.log == p.log.(mids := p'.log.mids)
            && (MidsAlternate(p) ==> MidsAlternate(p'))
            && (payload.Some? <==> p'.log.mids != p.log.mids)
            && (payload.Some? ==> p'.log.mids == p.log.mids + [payload.value.midpoint])
  {
    if p.Emit(gw, time).1.Some? {
      assert |p.Emit(gw, time).0.log.mids| == |p.log.mids| + 1;
    }
  }

  lemma SendKeepsLimits(p: Proc, p': Proc, order: OrderCommand)
    requires WithinLimits(p)
    requires p'.log.sent == p.log.sent + [order] && order.quantity == ORDER_QUANTITY
    requires p'.limits == p.limits.(position := p.limits.position + Signed(order))
    requires Abs(p'.limits.position) <= 3500
    ensures WithinLimits(p')
  {
    SumSeqPush(p.log.sent, SIGNED, order);
  }

  lemma SendKeepsIds(p: Proc, p': Proc, order: OrderCommand)
    requires FilledOnce(p, order.orderId)
    requires p'.log.sent == p.log.sent + [order] && p'.log.fills == p.log.fills
    requires p'.tracker == p.tracker + {order.orderId} && p'.strat.tradeCount == p.strat.tradeCount
    ensures FilledOnce(p', order.orderId + 1)
    ensures forall id :: SentIn(p', id) <==> SentIn(p, id) || id == order.orderId
  {
    forall id ensures SentIn(p', id) <==> SentIn(p, id) || id == order.orderId {
      if SentIn(p, id) {
        var k :| 0 <= k < |p.log.sent| && p.log.sent[k].orderId == id;
        assert p'.log.sent[k].orderId == id;
      }
      assert p'.log.sent[|p.log.sent|].orderId == order.orderId;
    }
  }

  lemma HandleFeed(p: Proc, m: ItchMessage, gw: Account, id: nat, time: nat)
    requires FollowsFeed(p) && FitsPacket(m)
    ensures FollowsFeed(p.Handle(m, gw, id, time).p)
    ensures p.Handle(m, gw, id, time).p.log.feed == p.log.feed + [m]
  {
    AbsorbFollows(p, m);
    var q := p.Absorb(m);
    DecideEffect(q, id);
    var e := p.Handle(m, gw, id, time);
    EmitEffect(q.Decide(id).0, e.gw, time);
  }

  /** What handling one message changes besides the book: the order sent, if any. */
  lemma HandleEffect(p: Proc, m: ItchMessage, gw: Account, id: nat, time: nat)
    ensures var e := p.Handle(m, gw, id, time);
            && e.p.log.feed == p.log.feed + [m]
            && e.p.log.sent == Push(p.log.sent, e.order) && e.p.log.fills == p.log.fills
            && e.p.tracker == (if e.order.Some? then p.tracker + {id} else p.tracker)
            && e.p.locate == p.locate && e.p.symbol == p.symbol
            && e.p.strat.position == p.strat.position && e.p.strat.tradeCount == p.strat.tradeCount
            && e.p.limits == (if e.order.Some?
                              then p.limits.(position := p.limits.position + Signed(e.order.value)) else p.limits)
            && (e.order.Some? ==>
                  && e.order.value.orderId == id && e.order.value.locate == p.locate
                  && e.order.value.quantity == ORDER_QUANTITY
                  && Abs(e.p.limits.position) <= p.limits.maxPosition)
            && (MidsAlternate(p) ==> MidsAlternate(e.p))
            && e.order == p.Absorb(m).Decide(id).1
  {
    DecideEffect(p.Absorb(m), id);
    var e := p.Handle(m, gw, id, time);
    EmitEffect(p.Absorb(m).Decide(id).0, e.gw, time);
  }

  lemma HandleKeepsLimits(p: Proc, m: ItchMessage, gw: Account, id: nat, time: nat)
    requires WithinLimits(p)
    ensures WithinLimits(p.Handle(m, gw, id, time).p)
  {
    HandleEffect(p, m, gw, id, time);
    var e := p.Handle(m, gw, id, time);
    if e.order.Some? { SendKeepsLimits(p, e.p, e.order.value); }
  }

  lemma HandleKeepsIds(p: Proc, m: ItchMessage, gw: Account, id: nat, time: nat)
    requires FilledOnce(p, id)
    ensures var e := p.Handle(m, gw, id, time);
            && FilledOnce(e.p, if e.order.Some? then id + 1 else id)
            && forall k :: SentIn(e.p, k) <==> SentIn(p, k) || (e.order.Some? && k == id)
  {
    HandleEffect(p, m, gw, id, time);
    var e := p.Handle(m, gw, id, time);
    if e.order.Some? { SendKeepsIds(p, e.p, e.order.value); }
  }

  lemma HandleKeepsSound(p: Proc, m: ItchMessage, gw: Account, id: nat, time: nat)
    requires Sound(p, id) && FitsPacket(m)
    ensures var e := p.Handle(m, gw, id, time);
            && Sound(e.p, if e.order.Some? then id + 1 else id)
            && forall k :: SentIn(e.p, k) <==> SentIn(p, k) || (e.order.Some? && k == id)
  {
    HandleFeed(p, m, gw, id, time);
    HandleKeepsLimits(p, m, gw, id, time);
    HandleKeepsIds(p, m, gw, id, time);
    HandleEffect(p, m, gw, id, time);
  }

  lemma FillKeepsSound(p: Proc, r: ExecutionReport, counter: nat)
    requires Sound(p, counter) && r.orderId in p.tracker
    ensures Sound(p.Fill(r), counter)
    ensures forall k :: SentIn(p.Fill(r), k) <==> SentIn(p, k)
  {
    var p' := p.Fill(r);
    assert forall k :: SentIn(p', k) <==> SentIn(p, k);
    assert |p'.tracker| == |p.tracker| - 1;
  }

  /** A message that leaves both best prices' midpoint where it was sends no order. */
  lemma NoMoveNoOrder(p: Proc, m: ItchMessage, id: nat)
    requires FollowsFeed(p) && WithinLimits(p) && FitsPacket(m)
    requires var b' := p.Absorb(m).book;
             TwoSided(b') ==> TwoSided(p.book) && Mid2(b') == Mid2(p.book)
    ensures p.Absorb(m).Decide(id).1.None?
  {
    SendsExactlyWhen(p, m, id);
  }

  /** Off-book trades and messages about unknown ids never send an order. */
  lemma QuietMessagesSendNothing(p: Proc, m: ItchMessage, id: nat)
    requires FollowsFeed(p) && WithinLimits(p) && FitsPacket(m)
    requires !m.AddOrder?
    requires m.ModifyOrder? || m.DeleteOrder? || m.OrderExecuted? || m.OrderExecutedWithPrice? ==>
               m.orderId !in p.book.orders
    ensures p.Absorb(m).Decide(id).1.None?
  {
    Feed.UnknownIdsChangeNothing(p.book, p.tape, m);
    NoMoveNoOrder(p, m, id);
  }
}
