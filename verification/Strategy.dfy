/** SimpleMidPoint: trade when the book leans one way and the midpoint moves with it.
    Midpoints are kept doubled, and the 0.8 imbalance threshold is compared by
    cross-multiplication, so every comparison is exact. */
module Strategy {
  import opened Common
  import opened OrderBook

  const ORDER_QUANTITY: u32 := 100
  const POSITION_CAP := 5000

  datatype Strat = Strat(mid2: nat, prevMid2: nat, tradeCount: nat, position: int, nextOrderId: nat) {

    /** The strategy after seeing the best prices, and the order it wants to send. */
    function OnBookUpdate(bid: Option<Quote>, ask: Option<Quote>): (Strat, Option<OrderCommand>) {
      if bid.None? || ask.None? then (this, None)
      else
        var s := this.(prevMid2 := mid2, mid2 := bid.value.price + ask.value.price);
        var total := Add32(bid.value.quantity, ask.value.quantity);
        if total == 0 then (s, None)
        else if 5 * bid.value.quantity > 4 * total && s.mid2 > s.prevMid2 && position <= POSITION_CAP then
          (s.(nextOrderId := nextOrderId + 1), Some(s.Command(ask.value.price, Buy)))
        else if 5 * bid.value.quantity < total && s.mid2 < s.prevMid2 && position > -POSITION_CAP then
          (s.(nextOrderId := nextOrderId + 1), Some(s.Command(bid.value.price, Sell)))
        else (s, None)
    }

    function Command(price: u64, side: Side): OrderCommand {
      OrderCommand(0, nextOrderId, price % TWO32, ORDER_QUANTITY, side)
    }

    function OnTrade(quantity: u32, side: AggressorSide): Strat {
      var shares := AsI32(quantity);
      this.(tradeCount := tradeCount + 1,
            position := WrapI32(if side == Buyer then position + shares else position - shares))
    }
  }

  const FRESH_STRAT := Strat(0, 0, 0, 0, 1)

  function AsI32(q: u32): int {
    if q < 0x8000_0000 then q else q - TWO32
  }

  /** The i32 an integer becomes when an addition wraps. */
  function WrapI32(x: int): (r: int)
    ensures -0x8000_0000 <= r < 0x8000_0000
    ensures -0x8000_0000 <= x < 0x8000_0000 ==> r == x
  {
    (x + 0x8000_0000) % TWO32 - 0x8000_0000
  }

  /** A seller's trade takes back what a buyer's of the same size brought, and both count. */
  lemma TradesCancelOut(s: Strat, quantity: u32)
    requires -0x8000_0000 <= s.position < 0x8000_0000
    ensures s.OnTrade(quantity, Buyer).OnTrade(quantity, Seller) == s.(tradeCount := s.tradeCount + 2)
    ensures s.OnTrade(quantity, Seller).OnTrade(quantity, Buyer) == s.(tradeCount := s.tradeCount + 2)
  {
  }

  /** Wishes are numbered one after the other. */
  lemma WishesAreNumbered(s: Strat, bid: Option<Quote>, ask: Option<Quote>)
    ensures var (s', wish) := s.OnBookUpdate(bid, ask);
            && (wish.Some? ==> wish.value.orderId == s.nextOrderId && s'.nextOrderId == s.nextOrderId + 1)
            && (wish.None? ==> s'.nextOrderId == s.nextOrderId)
            && s'.position == s.position && s'.tradeCount == s.tradeCount
  {
  }

  class SimpleMidPoint {
    var mid2: nat
    var prevMid2: nat
    var tradeCount: nat
    var position: int
    var nextOrderId: nat

    constructor ()
      ensures View() == FRESH_STRAT
    {
      mid2, prevMid2, tradeCount, position, nextOrderId := 0, 0, 0, 0, 1;
    }

    ghost function View(): Strat
      reads this
    {
      Strat(mid2, prevMid2, tradeCount, position, nextOrderId)
    }

    method GenerateId() returns (id: nat)
      modifies this`nextOrderId
      ensures id == old(nextOrderId) && nextOrderId == old(nextOrderId) + 1
    {
      id := nextOrderId;
      nextOrderId := nextOrderId + 1;
    }

    method OnBookUpdate(bid: Option<Quote>, ask: Option<Quote>) returns (cmd: Option<OrderCommand>)
      modifies this
      ensures (View(), cmd) == old(View()).OnBookUpdate(bid, ask)
    {
      cmd := None;
      if bid.Some? && ask.Some? {
        prevMid2 := mid2;
        mid2 := bid.value.price + ask.value.price;
        var total: nat := Add32(bid.value.quantity, ask.value.quantity);
        if total == 0 {
          return;
        }
        if 5 * bid.value.quantity > 4 * total && mid2 > prevMid2 && position <= POSITION_CAP {
          var id := GenerateId();
          return Some(OrderCommand(0, id, ask.value.price % TWO32, ORDER_QUANTITY, Buy));
        }
        if 5 * bid.value.quantity < total && mid2 < prevMid2 && position > -POSITION_CAP {
          var id := GenerateId();
          return Some(OrderCommand(0, id, bid.value.price % TWO32, ORDER_QUANTITY, Sell));
        }
      }
    }

    method OnTrade(price: u64, quantity: u32, side: AggressorSide)
      modifies this
      ensures View() == old(View()).OnTrade(quantity, side)
    {
      tradeCount := tradeCount + 1;
      match side {
        case Buyer => position := WrapI32(position + AsI32(quantity));
        case Seller => position := WrapI32(position - AsI32(quantity));
      }
    }
  }
}
