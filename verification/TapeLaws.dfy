/** The tape told from the messages: which of them trade, at what price, against which side. */
module TapeLaws {
  import opened Common
  import opened OrderBook
  import opened Itch
  import opened Feed
  import Ticker

  /** The last add of an order under this id. */
  function LastAdd(ms: Messages, id: u64): Option<ItchMessage> {
    if ms == [] then None
    else if Last(ms).AddOrder? && Last(ms).orderId == id then Some(Last(ms))
    else LastAdd(Init(ms), id)
  }

  /** A resting order has the price and side it was added with. */
  ghost predicate AsAdded(ms: Messages, id: u64, o: Order) {
    LastAdd(ms, id).Some? &&
    var m := LastAdd(ms, id).value;
    m.AddOrder? && o.price == m.price && o.side == m.side
  }

  lemma {:induction false} RestingAsAdded(ms: Messages, id: u64)
    requires id in BookAfter(ms).orders
    ensures AsAdded(ms, id, BookAfter(ms).orders[id])
  {
    if ms == [] {
    } else if Last(ms).AddOrder? && Last(ms).orderId == id {
    } else {
      RestedBefore(BookAfter(Init(ms)), TapeAfter(Init(ms)), Last(ms), id);
      RestingAsAdded(Init(ms), id);
    }
  }

  // Only an add brings an order in, and nothing else changes its price or side.
  lemma RestedBefore(b: Book, t: Ticker.Tape, m: ItchMessage, id: u64)
    requires id in Apply(b, t, m).0.orders && !(m.AddOrder? && m.orderId == id)
    ensures id in b.orders
    ensures var o, o' := b.orders[id], Apply(b, t, m).0.orders[id]; o'.price == o.price && o'.side == o.side
  {
  }

  /** A message trades if it is an off-book trade, or executes an order that rests. */
  predicate Trades(b: Book, m: ItchMessage) {
    m.Trade? || ((m.OrderExecuted? || m.OrderExecutedWithPrice?) && m.orderId in b.orders)
  }

  /** The trade a message makes, from it and the messages before: an execution takes the price of
      the add unless it brings its own, and its aggressor is opposite the add. */
  ghost predicate TradeOf(t: Ticker.Trade, before: Messages, m: ItchMessage) {
    match m
    case Trade(_, price, quantity, matchNumber, bid) =>
      && t.price == price && t.quantity == quantity && t.matchNumber == matchNumber
      && (t.side == Buyer <==> bid == Buy)
    case OrderExecuted(_, id, quantity, matchNumber) =>
      && t.quantity == quantity && t.matchNumber == matchNumber
      && LastAdd(before, id).Some? && LastAdd(before, id).value.AddOrder?
      && t.price == LastAdd(before, id).value.price
      && (t.side == Buyer <==> LastAdd(before, id).value.side == Sell)
    case OrderExecutedWithPrice(_, id, quantity, price, matchNumber) =>
      && t.price == price && t.quantity == quantity && t.matchNumber == matchNumber
      && LastAdd(before, id).Some? && LastAdd(before, id).value.AddOrder?
      && (t.side == Buyer <==> LastAdd(before, id).value.side == Sell)
    case _ => false
  }

  /** The positions of the messages that trade, in order. */
  function Trading(ms: Messages): seq<nat> {
    if ms == [] then []
    else Trading(Init(ms)) + if Trades(BookAfter(Init(ms)), Last(ms)) then [|ms| - 1] else []
  }

  ghost predicate TradeAt(t: Ticker.Trade, ms: Messages, at: nat) {
    at < |ms| && TradeOf(t, ms[..at], ms[at])
  }

  lemma TradeMade(ms: Messages)
    requires ms != []
    ensures var t, t' := TapeAfter(Init(ms)), TapeAfter(ms);
            if Trades(BookAfter(Init(ms)), Last(ms)) then
              |t'.trades| == |t.trades| + 1 && t'.trades[..|t.trades|] == t.trades
              && TradeOf(t'.trades[|t.trades|], Init(ms), Last(ms)) && t'.lastSale == t'.trades[|t.trades|].price
            else t' == t
  {
    var b, m := BookAfter(Init(ms)), Last(ms);
    if (m.OrderExecuted? || m.OrderExecutedWithPrice?) && m.orderId in b.orders {
      RestingAsAdded(Init(ms), m.orderId);
    }
  }

  /** Over every run the k-th trade on the tape is the one the k-th trading message makes, and the
      last sale is the price of the last of them, zero before the first. */
  lemma {:induction false} TapeTellsTrades(ms: Messages)
    ensures |TapeAfter(ms).trades| == |Trading(ms)|
    ensures forall k | 0 <= k < |Trading(ms)| :: TradeAt(TapeAfter(ms).trades[k], ms, Trading(ms)[k])
    ensures TapeAfter(ms).lastSale
         == if Trading(ms) == [] then 0 else TapeAfter(ms).trades[|Trading(ms)| - 1].price
  {
    if ms == [] {
    } else {
      TapeTellsTrades(Init(ms));
      TradeMade(ms);
      forall k | 0 <= k < |Trading(Init(ms))| ensures TradeAt(TapeAfter(Init(ms)).trades[k], ms, Trading(Init(ms))[k]) {
        TradeStays(TapeAfter(Init(ms)).trades[k], ms, Trading(Init(ms))[k]);
      }
      if Trades(BookAfter(Init(ms)), Last(ms)) {
        OneMoreTrade(ms, TapeAfter(Init(ms)).trades, TapeAfter(ms).trades, Trading(Init(ms)));
      }
    }
  }

  lemma OneMoreTrade(ms: Messages, trades: seq<Ticker.Trade>, trades': seq<Ticker.Trade>, at: seq<nat>)
    requires ms != [] && |trades| == |at| && |trades'| == |trades| + 1 && trades'[..|trades|] == trades
    requires forall k | 0 <= k < |at| :: TradeAt(trades[k], ms, at[k])
    requires TradeOf(trades'[|trades|], Init(ms), Last(ms))
    ensures forall k | 0 <= k < |at| + 1 :: TradeAt(trades'[k], ms, (at + [|ms| - 1])[k])
  {
    assert ms[..|ms| - 1] == Init(ms);
    forall k | 0 <= k < |at| + 1 ensures TradeAt(trades'[k], ms, (at + [|ms| - 1])[k]) {
      if k < |at| { assert trades'[k] == trades[k] && (at + [|ms| - 1])[k] == at[k]; }
    }
  }

  lemma TradeStays(t: Ticker.Trade, ms: Messages, at: nat)
    requires ms != [] && TradeAt(t, Init(ms), at)
    ensures TradeAt(t, ms, at)
  {
    assert Init(ms)[..at] == ms[..at];
  }

  /** The positions listed are exactly those of the trading messages, each once. */
  lemma {:induction false} TradingIs(ms: Messages, at: nat)
    ensures at in Trading(ms) <==> at < |ms| && Trades(BookAfter(ms[..at]), ms[at])
    ensures forall j, k | 0 <= j < k < |Trading(ms)| :: Trading(ms)[j] < Trading(ms)[k]
  {
    if ms == [] {
    } else {
      TradingIs(Init(ms), at);
      TradingBelow(Init(ms));
      assert ms[..|ms| - 1] == Init(ms);
      if at < |ms| - 1 { assert Init(ms)[..at] == ms[..at]; }
    }
  }

  lemma {:induction false} TradingBelow(ms: Messages)
    ensures forall k | 0 <= k < |Trading(ms)| :: Trading(ms)[k] < |ms|
  {
    if ms == [] {
    } else {
      TradingBelow(Init(ms));
    }
  }
}
