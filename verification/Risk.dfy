/** The per-symbol risk check: order size, projected position, price band. */
module Risk {
  import opened Common
  import opened OrderBook

  datatype Decision = Pass | QuantityFail | PositionFail | BandFail

  /** `band` is the allowed distance from the opposite best price, in percent. */
  datatype Limits = Limits(maxQuantity: u32, band: nat, maxPosition: int, position: int) {

    function Judge(cmd: OrderCommand, bid: Option<Quote>, ask: Option<Quote>): Decision {
      if cmd.quantity > maxQuantity then QuantityFail
      else if Abs(position + Signed(cmd)) > maxPosition then PositionFail
      else if cmd.side == Buy && ask.Some? && 100 * cmd.price > ask.value.price * (100 + band) then BandFail
      else if cmd.side == Sell && bid.Some? && 100 * cmd.price < bid.value.price * (100 - band) then BandFail
      else Pass
    }

    function Check(cmd: OrderCommand, bid: Option<Quote>, ask: Option<Quote>): (Limits, Decision) {
      var d := Judge(cmd, bid, ask);
      (if d == Pass then this.(position := position + Signed(cmd)) else this, d)
    }
  }

  const DEFAULT_LIMITS := Limits(1000, 2, 3500, 0)

  function Abs(x: int): nat {
    if x < 0 then -x else x
  }

  /** A buy may cost at most 2% more than the best ask, a sell bring at least 98% of the best bid. */
  predicate InBand(cmd: OrderCommand, bid: Option<Quote>, ask: Option<Quote>) {
    && (cmd.side == Buy && ask.Some? ==> cmd.price as real <= 1.02 * ask.value.price as real)
    && (cmd.side == Sell && bid.Some? ==> cmd.price as real >= 0.98 * bid.value.price as real)
  }

  /** The position if the order is filled in full. */
  function Projected(position: int, cmd: OrderCommand): int {
    if cmd.side == Buy then position + cmd.quantity else position - cmd.quantity
  }

  /** A symbol's limits pass an order exactly when it is at most 1000 shares, leaves the position
      within 3500 either way, and is in the band; a failure names the first of these it breaks.
      The position moves exactly when it passes. */
  lemma JudgedByLimits(position: int, cmd: OrderCommand, bid: Option<Quote>, ask: Option<Quote>)
    ensures var l := DEFAULT_LIMITS.(position := position);
            var sizeOk, positionOk := cmd.quantity <= 1000, -3500 <= Projected(position, cmd) <= 3500;
            && (l.Judge(cmd, bid, ask) == Pass <==> sizeOk && positionOk && InBand(cmd, bid, ask))
            && (l.Judge(cmd, bid, ask) == QuantityFail <==> !sizeOk)
            && (l.Judge(cmd, bid, ask) == PositionFail <==> sizeOk && !positionOk)
            && (l.Judge(cmd, bid, ask) == BandFail <==> sizeOk && positionOk && !InBand(cmd, bid, ask))
            && l.Check(cmd, bid, ask).1 == l.Judge(cmd, bid, ask)
            && l.Check(cmd, bid, ask).0
            == l.(position := if l.Judge(cmd, bid, ask) == Pass then Projected(position, cmd) else position)
  {
  }

  class LocalRisk {
    var maxQuantity: u32
    var band: nat
    var maxPosition: int
    var position: int

    constructor (maxQuantity: u32, band: nat, maxPosition: int)
      ensures View() == Limits(maxQuantity, band, maxPosition, 0)
    {
      this.maxQuantity, this.band, this.maxPosition, position := maxQuantity, band, maxPosition, 0;
    }

    ghost function View(): Limits
      reads this
    {
      Limits(maxQuantity, band, maxPosition, position)
    }

    method Check(cmd: OrderCommand, bid: Option<Quote>, ask: Option<Quote>) returns (d: Decision)
      modifies this`position
      ensures (View(), d) == old(View()).Check(cmd, bid, ask)
    {
      if cmd.quantity > maxQuantity {
        return QuantityFail;
      }
      var delta: int := if cmd.side == Buy then cmd.quantity else -(cmd.quantity as int);
      var projected := position + delta;
      if Abs(projected) > maxPosition {
        return PositionFail;
      }
      match cmd.side {
        case Buy =>
          if ask.Some? {
            if 100 * cmd.price > ask.value.price * (100 + band) {
              return BandFail;
            }
          }
        case Sell =>
          if bid.Some? {
            if 100 * cmd.price < bid.value.price * (100 - band) {
              return BandFail;
            }
          }
      }
      position := projected;
      return Pass;
    }
  }
}
