/** One symbol: its book, tape, strategy, risk limits and open orders. */
module Processor {
  import opened Common
  import opened OrderBook
  import opened Ticker
  import opened Strategy
  import opened Risk
  import opened Itch
  import opened Gateway
  import Feed

  /** Everything that happened to a symbol, in order: the messages routed to it, the orders
      it sent, the order ids whose fill it was credited, and the midpoints it emitted. */
  datatype Log = Log(feed: seq<ItchMessage>, sent: seq<OrderCommand>, fills: seq<nat>, mids: seq<u32>)

  /** A symbol's state as a value; the specification of SymbolProcessor below. */
  datatype Proc = Proc(
    symbol: Symbol, locate: u16, book: Book, tape: Tape, strat: Strat, limits: Limits,
    tracker: set<nat>, lastMid: u32, log: Log)
  {
    /** The message reaches the book and the tape. */
    function Absorb(m: ItchMessage): Proc {
      var (b, t) := Feed.Apply(book, tape, m);
      this.(book := b, tape := t, log := log.(feed := log.feed + [m]))
    }

    /** The strategy looks at the best prices; an order that passes the risk check is sent
        under the given id. */
    function Decide(id: nat): (Proc, Option<OrderCommand>) {
      var (s, wish) := strat.OnBookUpdate(book.BestBid(), book.BestAsk());
      if wish.None? then (this.(strat := s), None)
      else
        var cmd := wish.value.(locate := locate);
        var (l, d) := limits.Check(cmd, book.BestBid(), book.BestAsk());
        if d != Pass then (this.(strat := s), None)
        else
          var order := cmd.(orderId := id);
          (this.(strat := s, limits := l, tracker := tracker + {id}, log := log.(sent := log.sent + [order])),
           Some(order))
    }

    /** The whole-tick midpoint, zero unless both best prices are positive. */
    function Midpoint(): u32 {
      var bid := if book.BestBid().Some? then book.BestBid().value.price else 0;
      var ask := if book.BestAsk().Some? then book.BestAsk().value.price else 0;
      if bid > 0 && ask > 0 then (bid + ask) / 2 % TWO32 else 0
    }

    /** The telemetry record emitted when the midpoint is new. */
    function Emit(gw: Account, time: nat): (Proc, Option<TelemetryPayload>) {
      var mid := Midpoint();
      if mid > 0 && mid != lastMid then
        (this.(lastMid := mid, log := log.(mids := log.mids + [mid])),
         Some(TelemetryPayload(time, gw.Cash(locate) + gw.Position(locate) * mid, mid, gw.Position(locate), locate)))
      else (this, None)
    }

    /** A confirmed fill of an order this symbol is waiting for. */
    function Fill(r: ExecutionReport): Proc {
      this.(strat := strat.OnTrade(r.lastQty, Buyer), tracker := tracker - {r.orderId},
            log := log.(fills := log.fills + [r.orderId]))
    }

    function Handle(m: ItchMessage, gw: Account, id: nat, time: nat): Event {
      var (p, order) := Absorb(m).Decide(id);
      var gw' := if order.Some? then gw.Send(order.value) else gw;
      var (p', payload) := p.Emit(gw', time);
      Event(p', gw', order, payload)
    }
  }

  /** What handling one message produces. */
  datatype Event = Event(p: Proc, gw: Account, order: Option<OrderCommand>, payload: Option<TelemetryPayload>)

  function NewProc(symbol: Symbol): Proc {
    Proc(symbol, 0, EMPTY_BOOK, EMPTY_TAPE, FRESH_STRAT, DEFAULT_LIMITS, {}, 0, Log([], [], [], []))
  }

  function Push<T>(s: seq<T>, x: Option<T>): seq<T> {
    if x.Some? then s + [x.value] else s
  }

  lemma HandleSteps(
    p: Proc, m: ItchMessage, gw: Account, id: nat, time: nat, decided: Proc, order: Option<OrderCommand>, gw': Account)
    requires (decided, order) == p.Absorb(m).Decide(id)
    requires gw' == if order.Some? then gw.Send(order.value) else gw
    ensures var (p', payload) := decided.Emit(gw', time);
            p.Handle(m, gw, id, time) == Event(p', gw', order, payload)
  {
  }

  class AnalyticsWriter {
    var messages: seq<TelemetryPayload>

    constructor ()
      ensures messages == []
    {
      messages := [];
    }

    method Write(payload: TelemetryPayload)
      modifies this
      ensures messages == old(messages) + [payload]
    {
      messages := messages + [payload];
    }
  }

  class SymbolProcessor {
    const symbol: Symbol
    var stockLocate: u16
    const book: L3OrderBook
    const strategy: SimpleMidPoint
    const ticker: TradeTicker
    const risk: LocalRisk
    var orderTracker: set<nat>
    var lastMidpoint: u32
    ghost var log: Log

    constructor (symbol: Symbol)
      ensures View() == NewProc(symbol)
      ensures fresh(Repr())
    {
      this.symbol := symbol;
      stockLocate := 0;
      book := new L3OrderBook();
      strategy := new SimpleMidPoint();
      ticker := new TradeTicker();
      risk := new LocalRisk(1000, 2, 3500);
      orderTracker, lastMidpoint := {}, 0;
      log := Log([], [], [], []);
    }

    ghost function Repr(): set<object> {
      {this, book, strategy, ticker, risk}
    }

    ghost predicate Apart(other: SymbolProcessor) {
      && this != other && book != other.book && strategy != other.strategy
      && ticker != other.ticker && risk != other.risk
    }

    ghost function View(): Proc
      reads Repr()
    {
      Proc(symbol, stockLocate, book.View(), ticker.View(), strategy.View(), risk.View(),
           orderTracker, lastMidpoint, log)
    }

    method HandleEvent(m: ItchMessage, writer: AnalyticsWriter, gateway: ReplayGateway, globalOrderId: nat, time: nat)
      returns (nextId: nat, ghost order: Option<OrderCommand>)
      modifies Repr(), writer, gateway
      ensures var e := old(View()).Handle(m, old(gateway.View()), globalOrderId, time);
              && View() == e.p && gateway.View() == e.gw && order == e.order
              && nextId == (if e.order.Some? then globalOrderId + 1 else globalOrderId)
              && writer.messages == Push(old(writer.messages), e.payload)
    {
      ghost var p, gw := View(), gateway.View();
      UpdateBook(m);
      nextId, order := Decide(gateway, globalOrderId);
      HandleSteps(p, m, gw, globalOrderId, time, View(), order, gateway.View());
      SendTelemetry(gateway, writer, time);
    }

    method UpdateBook(m: ItchMessage)
      modifies Repr()
      ensures View() == old(View()).Absorb(m)
    {
      log := log.(feed := log.feed + [m]);
      match m {
        case AddOrder(_, id, side, quantity, price) =>
          book.AddOrder(id, side, price, quantity);
        case ModifyOrder(_, id, quantity) =>
          book.CancelOrder(id, quantity);
        case Trade(_, price, quantity, matchNumber, bid) =>
          var side := match bid case Buy => Buyer case Sell => Seller;
          ticker.AddTrade(price, quantity, matchNumber, side);
        case DeleteOrder(_, id) =>
          if id in book.orders {
            book.CancelOrder(id, book.orders[id].quantity);
          }
        case OrderExecuted(_, id, quantity, matchNumber) =>
          if id in book.orders {
            var side := match book.orders[id].side case Buy => Seller case Sell => Buyer;
            ticker.AddTrade(book.orders[id].price, quantity, matchNumber, side);
            book.CancelOrder(id, quantity);
          }
        case OrderExecutedWithPrice(_, id, quantity, price, matchNumber) =>
          if id in book.orders {
            var side := match book.orders[id].side case Buy => Seller case Sell => Buyer;
            ticker.AddTrade(price, quantity, matchNumber, side);
            book.CancelOrder(id, quantity);
          }
        case StockDirectory(_, _) =>
      }
    }

    method Decide(gateway: ReplayGateway, globalOrderId: nat) returns (nextId: nat, ghost order: Option<OrderCommand>)
      modifies Repr(), gateway
      ensures (View(), order) == old(View()).Decide(globalOrderId)
      ensures gateway.View() == if order.Some? then old(gateway.View()).Send(order.value) else old(gateway.View())
      ensures nextId == if order.Some? then globalOrderId + 1 else globalOrderId
    {
      nextId, order := globalOrderId, None;
      var bid := book.GetBestBid();
      var ask := book.GetBestAsk();
      var wish := strategy.OnBookUpdate(bid, ask);
      if wish.Some? {
        var cmd := wish.value.(locate := stockLocate);
        var decision := risk.Check(cmd, bid, ask);
        if decision == Pass {
          cmd := cmd.(orderId := globalOrderId);
          nextId := globalOrderId + 1;
          gateway.SendOrder(cmd);
          orderTracker := orderTracker + {cmd.orderId};
          order := Some(cmd);
          log := log.(sent := log.sent + [cmd]);
        }
      }
    }

    method CurrentMidpoint() returns (midpoint: u32)
      ensures midpoint == View().Midpoint()
    {
      var bid := book.GetBestBid();
      var ask := book.GetBestAsk();
      var bidPrice: nat := if bid.Some? then bid.value.price else 0;
      var askPrice: nat := if ask.Some? then ask.value.price else 0;
      midpoint := if bidPrice > 0 && askPrice > 0 then (bidPrice + askPrice) / 2 % TWO32 else 0;
    }

    method SendTelemetry(gateway: ReplayGateway, writer: AnalyticsWriter, time: nat)
      modifies this, writer
      ensures var (p, payload) := old(View()).Emit(gateway.View(), time);
              View() == p && writer.messages == Push(old(writer.messages), payload)
    {
      var midpoint := CurrentMidpoint();
      if midpoint > 0 && midpoint != lastMidpoint {
        lastMidpoint := midpoint;
        log := log.(mids := log.mids + [midpoint]);
        var cash := gateway.GetCashBalance(stockLocate);
        var position := gateway.GetPosition(stockLocate);
        writer.Write(TelemetryPayload(time, cash + position * midpoint, midpoint, position, stockLocate));
      }
    }

    method ConfirmFill(r: ExecutionReport)
      modifies this, strategy
      ensures View() == if r.orderId in old(View()).tracker then old(View()).Fill(r) else old(View())
    {
      if r.orderId in orderTracker {
        strategy.OnTrade(r.lastPrice, r.lastQty, Buyer);
        orderTracker := orderTracker - {r.orderId};
        log := log.(fills := log.fills + [r.orderId]);
      }
    }
  }
}
