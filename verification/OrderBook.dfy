/** The L3 order book: resting orders by id, and the share total of each price level. */
module OrderBook {
  import opened Common

  datatype Order = Order(price: u64, quantity: u32, side: Side)

  datatype Quote = Quote(price: u64, quantity: u32)

  type Levels = map<u64, u32>

  /** The book as a value; its functions are the specification of L3OrderBook below. */
  datatype Book = Book(orders: map<u64, Order>, bids: Levels, asks: Levels) {

    function On(side: Side): Levels {
      if side == Buy then bids else asks
    }

    function SetSide(side: Side, levels: Levels): Book {
      if side == Buy then this.(bids := levels) else this.(asks := levels)
    }

    /** Shares shown at a price; an absent level shows none. */
    function Level(side: Side, price: u64): u32 {
      if price in On(side) then On(side)[price] else 0
    }

    function Add(id: u64, side: Side, price: u64, quantity: u32): Book {
      SetSide(side, Raised(On(side), price, quantity))
        .(orders := orders[id := Order(price, quantity, side)])
    }

    function Cancel(id: u64, quantity: u32): Book {
      if id !in orders then this
      else
        var o := orders[id];
        var left := Sub32(o.quantity, quantity);
        SetSide(o.side, Reduced(On(o.side), o.price, quantity))
          .(orders := if left == 0 then orders - {id} else orders[id := o.(quantity := left)])
    }

    function BestBid(): Option<Quote> {
      Best(Buy)
    }

    function BestAsk(): Option<Quote> {
      Best(Sell)
    }

    /** Distance between the best prices, zero when the book is crossed. */
    function Spread(): Option<u64> {
      if BestBid().None? || BestAsk().None? then None
      else
        var bid, ask := BestBid().value.price, BestAsk().value.price;
        Some(if bid <= ask then ask - bid else 0)
    }

    function Best(side: Side): (q: Option<Quote>)
      ensures q.None? <==> On(side) == map[]
      ensures q.Some? ==> q.value.price in On(side) && q.value.quantity == On(side)[q.value.price]
      ensures q.Some? ==> forall p | p in On(side) ::
                if side == Buy then p <= q.value.price else q.value.price <= p
    {
      var levels := On(side);
      if levels == map[] then None
      else
        assert levels.Keys != {};
        var p := if side == Buy then MaxKey(levels.Keys) else MinKey(levels.Keys);
        Some(Quote(p, levels[p]))
    }
  }

  const EMPTY_BOOK := Book(map[], map[], map[])

  /** A level after `quantity` shares join it. */
  function Raised(levels: Levels, price: u64, quantity: u32): Levels {
    levels[price := Add32(if price in levels then levels[price] else 0, quantity)]
  }

  /** A level after `quantity` shares leave it; a level reaching zero is dropped. */
  function Reduced(levels: Levels, price: u64, quantity: u32): Levels {
    if price !in levels then levels
    else if Sub32(levels[price], quantity) == 0 then levels - {price}
    else levels[price := Sub32(levels[price], quantity)]
  }

  predicate IsMax(s: set<u64>, m: u64) {
    m in s && forall y | y in s :: y <= m
  }

  lemma MaxExists(s: set<u64>)
    requires s != {}
    ensures exists m :: IsMax(s, m)
  {
    var c :| c in s;
    if s == {c} {
      assert IsMax(s, c);
    } else {
      MaxExists(s - {c});
      var m :| IsMax(s - {c}, m);
      assert forall y | y in s :: y == c || y in s - {c};
      assert IsMax(s, if m < c then c else m);
    }
  }

  function MaxKey(s: set<u64>): (m: u64)
    requires s != {}
    ensures IsMax(s, m)
  {
    MaxExists(s);
    var m :| IsMax(s, m);
    m
  }

  predicate IsMin(s: set<u64>, m: u64) {
    m in s && forall y | y in s :: m <= y
  }

  lemma MinExists(s: set<u64>)
    requires s != {}
    ensures exists m :: IsMin(s, m)
  {
    var c :| c in s;
    if s == {c} {
      assert IsMin(s, c);
    } else {
      MinExists(s - {c});
      var m :| IsMin(s - {c}, m);
      assert forall y | y in s :: y == c || y in s - {c};
      assert IsMin(s, if c < m then c else m);
    }
  }

  function MinKey(s: set<u64>): (m: u64)
    requires s != {}
    ensures IsMin(s, m)
  {
    MinExists(s);
    var m :| IsMin(s, m);
    m
  }

  /** The mutable book. */
  class L3OrderBook {
    var orders: map<u64, Order>
    var bids: Levels
    var asks: Levels

    constructor ()
      ensures View() == EMPTY_BOOK
    {
      orders, bids, asks := map[], map[], map[];
    }

    ghost function View(): Book
      reads this
    {
      Book(orders, bids, asks)
    }

    method AddOrder(id: u64, side: Side, price: u64, quantity: u32)
      modifies this
      ensures View() == old(View()).Add(id, side, price, quantity)
    {
      orders := orders[id := Order(price, quantity, side)];
      match side {
        case Buy => bids := bids[price := Add32(if price in bids then bids[price] else 0, quantity)];
        case Sell => asks := asks[price := Add32(if price in asks then asks[price] else 0, quantity)];
      }
    }

    method CancelOrder(id: u64, quantity: u32)
      modifies this
      ensures View() == old(View()).Cancel(id, quantity)
    {
      if id in orders {
        var order := orders[id];
        var left := Sub32(order.quantity, quantity);
        orders := orders[id := order.(quantity := left)];
        var levels := if order.side == Sell then asks else bids;
        if order.price in levels {
          levels := levels[order.price := Sub32(levels[order.price], quantity)];
          if levels[order.price] == 0 {
            levels := levels - {order.price};
          }
        }
        match order.side {
          case Buy => bids := levels;
          case Sell => asks := levels;
        }
        if left == 0 {
          orders := orders - {id};
        }
        assert orders == old(View()).Cancel(id, quantity).orders;
      }
    }

    method GetBestBid() returns (q: Option<Quote>)
      ensures q == View().BestBid()
    {
      q := Book(orders, bids, asks).BestBid();
    }

    method GetBestAsk() returns (q: Option<Quote>)
      ensures q == View().BestAsk()
    {
      q := Book(orders, bids, asks).BestAsk();
    }

    method Spread() returns (s: Option<u64>)
      ensures s == View().Spread()
      ensures s.Some? <==> bids != map[] && asks != map[]
      ensures s.Some? ==>
                var bid, ask := View().BestBid().value.price, View().BestAsk().value.price;
                s.value as int == if bid <= ask then ask - bid else 0
    {
      var bid := GetBestBid();
      var ask := GetBestAsk();
      if bid.Some? && ask.Some? {
        s := Some(if bid.value.price <= ask.value.price then ask.value.price - bid.value.price else 0);
      } else {
        s := None;
      }
    }
  }
}
