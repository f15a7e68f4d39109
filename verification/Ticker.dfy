/** The trade ticker: every trade seen, their volume, and the last sale price. */
module Ticker {
  import opened Common

  datatype Trade = Trade(price: u64, quantity: u32, matchNumber: u64, side: AggressorSide)

  datatype Tape = Tape(trades: seq<Trade>, totalVolume: nat, lastSale: u64) {
    function Record(t: Trade): Tape {
      Tape(trades + [t], totalVolume + t.quantity, t.price)
    }
  }

  const EMPTY_TAPE := Tape([], 0, 0)

  class TradeTicker {
    var trades: seq<Trade>
    var totalVolume: nat
    var lastSale: u64

    constructor ()
      ensures View() == EMPTY_TAPE
    {
      trades, totalVolume, lastSale := [], 0, 0;
    }

    ghost function View(): Tape
      reads this
    {
      Tape(trades, totalVolume, lastSale)
    }

    method AddTrade(price: u64, quantity: u32, matchNumber: u64, side: AggressorSide)
      modifies this
      ensures View() == old(View()).Record(Trade(price, quantity, matchNumber, side))
    {
      var t := Trade(price, quantity, matchNumber, side);
      lastSale := price;
      totalVolume := totalVolume + quantity;
      trades := trades + [t];
    }
  }
}
