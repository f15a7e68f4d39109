/** What the level index of the order book means, and the algebra of book operations. */
module BookLaws {
  import opened Common
  import opened Sums
  import opened OrderBook

  /** Shares of overwritten orders that their level still counts, by side and price. */
  type Orphans = map<(Side, u64), nat>

  function Orphaned(orphans: Orphans, side: Side, price: u64): nat {
    if (side, price) in orphans then orphans[(side, price)] else 0
  }

  /** Adding under an id that already rests orphans the old order's shares. */
  function OrphansAfterAdd(b: Book, orphans: Orphans, id: u64): Orphans {
    if id !in b.orders then orphans
    else
      var o := b.orders[id];
      orphans[(o.side, o.price) := Orphaned(orphans, o.side, o.price) + o.quantity]
  }

  function AtLevel(side: Side, price: u64): Order -> int {
    (o: Order) => if o.side == side && o.price == price then o.quantity else 0
  }

  /** Shares of the orders resting at a price. */
  ghost function Resting(b: Book, side: Side, price: u64): int {
    SumMap(b.orders, AtLevel(side, price))
  }

  ghost predicate LevelAgrees(b: Book, orphans: Orphans, side: Side, price: u64) {
    b.Level(side, price) == Resting(b, side, price) + Orphaned(orphans, side, price)
  }

  /** Every level shows the resting shares at its price plus the orphaned ones. */
  ghost predicate Agrees(b: Book, orphans: Orphans) {
    forall side: Side, price: u64 :: LevelAgrees(b, orphans, side, price)
  }

  lemma EmptyAgrees()
    ensures Agrees(EMPTY_BOOK, map[])
  {
    forall side: Side, price: u64 ensures LevelAgrees(EMPTY_BOOK, map[], side, price) {}
  }

  lemma RestingPut(b: Book, id: u64, o: Order, side: Side, price: u64)
    ensures SumMap(b.orders[id := o], AtLevel(side, price))
         == Resting(b, side, price) + AtLevel(side, price)(o)
          - (if id in b.orders then AtLevel(side, price)(b.orders[id]) else 0)
  {
    SumMapPut(b.orders, AtLevel(side, price), id, o);
  }

  lemma RestingDrop(b: Book, id: u64, side: Side, price: u64)
    requires id in b.orders
    ensures SumMap(b.orders - {id}, AtLevel(side, price))
         == Resting(b, side, price) - AtLevel(side, price)(b.orders[id])
  {
    SumMapSplit(b.orders, AtLevel(side, price), id);
  }

  // A resting order's shares are counted at its level.
  lemma LevelCoversOrder(b: Book, orphans: Orphans, id: u64)
    requires Agrees(b, orphans) && id in b.orders
    ensures b.orders[id].quantity <= b.Level(b.orders[id].side, b.orders[id].price)
  {
    var o := b.orders[id];
    assert LevelAgrees(b, orphans, o.side, o.price);
    RestingDrop(b, id, o.side, o.price);
    SumMapNonNegative(b.orders - {id}, AtLevel(o.side, o.price));
  }

  lemma LevelAfterAdd(b: Book, id: u64, o: Order, side: Side, price: u64)
    ensures b.Add(id, o.side, o.price, o.quantity).Level(side, price)
         == Add32(b.Level(side, price), if o.side == side && o.price == price then o.quantity else 0)
  {
  }

  lemma OrphanedAfterAdd(b: Book, orphans: Orphans, id: u64, side: Side, price: u64)
    ensures Orphaned(OrphansAfterAdd(b, orphans, id), side, price)
         == Orphaned(orphans, side, price) + (if id in b.orders then AtLevel(side, price)(b.orders[id]) else 0)
  {
  }

  // What an add does to the level it joins, and to every other.
  lemma AddAgrees(b: Book, orphans: Orphans, id: u64, o: Order, side: Side, price: u64)
    requires LevelAgrees(b, orphans, side, price)
    ensures LevelAgrees(b.Add(id, o.side, o.price, o.quantity), OrphansAfterAdd(b, orphans, id), side, price)
       <==> (side, price) != (o.side, o.price) || b.Level(o.side, o.price) + o.quantity < TWO32
  {
    LevelAfterAdd(b, id, o, side, price);
    OrphanedAfterAdd(b, orphans, id, side, price);
    assert b.Add(id, o.side, o.price, o.quantity).orders == b.orders[id := o];
    RestingPut(b, id, o, side, price);
  }

  /** Adding keeps the index right exactly when the level's u32 total does not wrap. */
  lemma AddKeepsAgreement(b: Book, orphans: Orphans, id: u64, side: Side, price: u64, quantity: u32)
    requires Agrees(b, orphans)
    ensures Agrees(b.Add(id, side, price, quantity), OrphansAfterAdd(b, orphans, id))
       <==> b.Level(side, price) + quantity < TWO32
  {
    var b', orphans' := b.Add(id, side, price, quantity), OrphansAfterAdd(b, orphans, id);
    forall s: Side, p: u64
      ensures LevelAgrees(b', orphans', s, p)
         <==> (s, p) != (side, price) || b.Level(side, price) + quantity < TWO32
    {
      assert LevelAgrees(b, orphans, s, p);
      AddAgrees(b, orphans, id, Order(price, quantity, side), s, p);
    }
    assert LevelAgrees(b', orphans', side, price) <==> b.Level(side, price) + quantity < TWO32;
  }

  /** Whether a cancel leaves the index right: it takes no more than the order holds (or,
      wrapping both totals alike, more than the whole level holds). */
  predicate CancelKeepsIndex(b: Book, id: u64, quantity: u32) {
    id in b.orders ==>
      var o := b.orders[id];
      || quantity <= o.quantity
      || (o.price in b.On(o.side) && quantity > b.Level(o.side, o.price))
  }

  lemma LevelAfterCancel(b: Book, id: u64, quantity: u32, side: Side, price: u64)
    requires id in b.orders
    ensures b.Cancel(id, quantity).Level(side, price)
         == if price in b.On(side) && (side, price) == (b.orders[id].side, b.orders[id].price)
            then Sub32(b.Level(side, price), quantity) else b.Level(side, price)
  {
  }

  // A cancel of all the order holds takes it off its level.
  lemma DropAgrees(b: Book, orphans: Orphans, id: u64, side: Side, price: u64)
    requires Agrees(b, orphans) && id in b.orders
    ensures LevelAgrees(b.Cancel(id, b.orders[id].quantity), orphans, side, price)
  {
    var o := b.orders[id];
    assert b.Cancel(id, o.quantity).orders == b.orders - {id};
    LevelAfterCancel(b, id, o.quantity, side, price);
    LevelCoversOrder(b, orphans, id);
    assert LevelAgrees(b, orphans, side, price);
    RestingDrop(b, id, side, price);
  }

  lemma ShrinkAgrees(b: Book, orphans: Orphans, id: u64, quantity: u32, side: Side, price: u64)
    requires Agrees(b, orphans) && id in b.orders && b.orders[id].quantity != quantity
    ensures LevelAgrees(b.Cancel(id, quantity), orphans, side, price)
       <==> (side, price) != (b.orders[id].side, b.orders[id].price) || CancelKeepsIndex(b, id, quantity)
  {
    var o := b.orders[id];
    var o' := o.(quantity := Sub32(o.quantity, quantity));
    assert b.Cancel(id, quantity).orders == b.orders[id := o'];
    LevelAfterCancel(b, id, quantity, side, price);
    LevelCoversOrder(b, orphans, id);
    assert LevelAgrees(b, orphans, side, price);
    RestingPut(b, id, o', side, price);
  }

  lemma CancelKeepsAgreement(b: Book, orphans: Orphans, id: u64, quantity: u32)
    requires Agrees(b, orphans)
    ensures Agrees(b.Cancel(id, quantity), orphans) <==> CancelKeepsIndex(b, id, quantity)
  {
    if id in b.orders {
      var o := b.orders[id];
      forall side: Side, price: u64
        ensures LevelAgrees(b.Cancel(id, quantity), orphans, side, price)
           <==> (side, price) != (o.side, o.price) || CancelKeepsIndex(b, id, quantity)
      {
        if quantity == o.quantity {
          DropAgrees(b, orphans, id, side, price);
        } else {
          ShrinkAgrees(b, orphans, id, quantity, side, price);
        }
      }
      assert LevelAgrees(b.Cancel(id, quantity), orphans, o.side, o.price) <==> CancelKeepsIndex(b, id, quantity);
    }
  }

  /** Cancelling a resting order in two parts is cancelling their sum. */
  lemma CancelsAddUp(b: Book, orphans: Orphans, id: u64, first: u32, second: u32)
    requires Agrees(b, orphans) && id in b.orders
    requires first + second <= b.orders[id].quantity
    ensures b.Cancel(id, first).Cancel(id, second) == b.Cancel(id, first + second)
  {
    var o := b.orders[id];
    LevelCoversOrder(b, orphans, id);
    var twice, once := b.Cancel(id, first).Cancel(id, second), b.Cancel(id, first + second);
    assert twice.orders == once.orders;
    assert twice.On(o.side) == once.On(o.side);
  }

  function CancelAll(b: Book, id: u64, cuts: seq<u32>): Book {
    if cuts == [] then b else CancelAll(b, id, cuts[..|cuts| - 1]).Cancel(id, cuts[|cuts| - 1])
  }

  function Total(cuts: seq<u32>): nat {
    if cuts == [] then 0 else Total(cuts[..|cuts| - 1]) + cuts[|cuts| - 1]
  }

  lemma {:induction false} CancelAllAddsUp(b: Book, orphans: Orphans, id: u64, cuts: seq<u32>)
    requires Agrees(b, orphans) && id in b.orders && b.orders[id].quantity > 0
    requires Total(cuts) <= b.orders[id].quantity
    ensures CancelAll(b, id, cuts) == b.Cancel(id, Total(cuts))
  {
    if cuts == [] {
      LevelCoversOrder(b, orphans, id);
      assert b.Cancel(id, 0).orders == b.orders;
    } else {
      var n := |cuts| - 1;
      CancelAllAddsUp(b, orphans, id, cuts[..n]);
      CancelsAddUp(b, orphans, id, Total(cuts[..n]), cuts[n]);
    }
  }

  /** A fresh order that is added and then cancelled away in any number of parts leaves no
      trace, unless its level was already present with a total of zero: that entry goes. */
  lemma AddThenCancelRestores(b: Book, orphans: Orphans, id: u64, side: Side, price: u64, cuts: seq<u32>)
    requires Agrees(b, orphans) && id !in b.orders
    requires 0 < Total(cuts) && b.Level(side, price) + Total(cuts) < TWO32
    ensures CancelAll(b.Add(id, side, price, Total(cuts)), id, cuts) == b
       <==> (price in b.On(side) ==> b.On(side)[price] > 0)
  {
    AddKeepsAgreement(b, orphans, id, side, price, Total(cuts));
    CancelAllAddsUp(b.Add(id, side, price, Total(cuts)), orphans, id, cuts);
    AddThenOneCancel(b, id, side, price, Total(cuts));
  }

  lemma AddThenOneCancel(b: Book, id: u64, side: Side, price: u64, q: u32)
    requires id !in b.orders && q > 0
    ensures b.Add(id, side, price, q).Cancel(id, q) == b <==> (price in b.On(side) ==> b.On(side)[price] > 0)
  {
    var b' := b.Add(id, side, price, q);
    assert b'.orders - {id} == b.orders;
    if price in b.On(side) && b.On(side)[price] == 0 {
      assert price !in b'.Cancel(id, q).On(side);
    } else {
      assert b'.Cancel(id, q).On(side) == b.On(side);
    }
  }

  lemma RaisesCommute(levels: Levels, p: u64, q: u32, p': u64, q': u32)
    ensures Raised(Raised(levels, p, q), p', q') == Raised(Raised(levels, p', q'), p, q)
  {
  }

  lemma ReducesCommute(levels: Levels, p: u64, q: u32, p': u64, q': u32)
    requires p == p' && p in levels ==> q + q' <= levels[p]
    ensures Reduced(Reduced(levels, p, q), p', q') == Reduced(Reduced(levels, p', q'), p, q)
  {
    if p != p' && p in levels && p' in levels {
      assert levels - {p} - {p'} == levels - {p'} - {p};
    }
  }

  /** Adds under different ids commute. */
  lemma AddsCommute(b: Book, i: u64, si: Side, pi: u64, qi: u32, j: u64, sj: Side, pj: u64, qj: u32)
    requires i != j
    ensures b.Add(i, si, pi, qi).Add(j, sj, pj, qj) == b.Add(j, sj, pj, qj).Add(i, si, pi, qi)
  {
    var oi, oj := Order(pi, qi, si), Order(pj, qj, sj);
    assert b.orders[i := oi][j := oj] == b.orders[j := oj][i := oi];
    if si == sj {
      RaisesCommute(b.On(si), pi, qi, pj, qj);
    }
  }

  /** Cancels of two different orders commute while each takes no more than its order holds. */
  lemma CancelsCommute(b: Book, orphans: Orphans, i: u64, ci: u32, j: u64, cj: u32)
    requires Agrees(b, orphans) && i != j && i in b.orders && j in b.orders
    requires ci <= b.orders[i].quantity && cj <= b.orders[j].quantity
    ensures b.Cancel(i, ci).Cancel(j, cj) == b.Cancel(j, cj).Cancel(i, ci)
  {
    var oi, oj := b.orders[i], b.orders[j];
    assert b.Cancel(i, ci).Cancel(j, cj).orders == b.Cancel(j, cj).Cancel(i, ci).orders;
    if oi.side == oj.side {
      if oi.price == oj.price {
        LevelCoversOrder(b, orphans, i);
        CancelKeepsAgreement(b, orphans, i, ci);
        LevelCoversOrder(b.Cancel(i, ci), orphans, j);
      }
      ReducesCommute(b.On(oi.side), oi.price, ci, oj.price, cj);
    }
  }

  lemma RaiseAndReduce(levels: Levels, p: u64, q: u32, p': u64, c: u32)
    requires p' in levels ==> c <= levels[p']
    requires p' !in levels ==> c == 0
    requires p in levels ==> levels[p] + q < TWO32
    ensures Reduced(Raised(levels, p, q), p', c) == Raised(Reduced(levels, p', c), p, q)
       <==> !(p == p' && q == 0 && c == if p in levels then levels[p] else 0)
  {
    var x, y := Reduced(Raised(levels, p, q), p', c), Raised(Reduced(levels, p', c), p, q);
    if p != p' {
      assert x == y;
    } else if q == 0 && c == (if p in levels then levels[p] else 0) {
      assert p !in x && p in y;
    } else {
      assert x == y;
    }
  }

  /** An add and a cancel of different orders commute unless an empty order is added to the
      level the cancel clears: adding first loses the level, cancelling first keeps it at zero. */
  lemma AddAndCancelCommute(b: Book, orphans: Orphans, i: u64, side: Side, price: u64, q: u32, j: u64, c: u32)
    requires Agrees(b, orphans) && i != j && j in b.orders && c <= b.orders[j].quantity
    requires b.Level(side, price) + q < TWO32
    ensures b.Add(i, side, price, q).Cancel(j, c) == b.Cancel(j, c).Add(i, side, price, q)
       <==> !(b.orders[j].side == side && b.orders[j].price == price && q == 0 && c == b.Level(side, price))
  {
    var o := b.orders[j];
    LevelCoversOrder(b, orphans, j);
    assert b.Add(i, side, price, q).Cancel(j, c).orders == b.Cancel(j, c).Add(i, side, price, q).orders;
    if o.side == side {
      RaiseAndReduce(b.On(side), price, q, o.price, c);
    }
  }

  /** No order and no level is empty. */
  ghost predicate Positive(b: Book) {
    && (forall id | id in b.orders :: b.orders[id].quantity > 0)
    && (forall side: Side, price: u64 | price in b.On(side) :: b.On(side)[price] > 0)
  }

  lemma RestingPositive(b: Book, side: Side, price: u64)
    ensures Resting(b, side, price) >= 0
    ensures Resting(b, side, price) > 0 <==>
            exists id :: id in b.orders && AtLevel(side, price)(b.orders[id]) > 0
  {
    SumMapNonNegative(b.orders, AtLevel(side, price));
  }

  predicate Better(side: Side, p: u64, than: u64) {
    if side == Buy then p > than else p < than
  }

  /** The best quote of a side is the best price among its resting orders, with the full
      size resting there; it is absent exactly when the side has no resting order. */
  lemma BestIsBestResting(b: Book, side: Side)
    requires Agrees(b, map[]) && Positive(b)
    ensures b.Best(side).None? <==> forall id | id in b.orders :: b.orders[id].side != side
    ensures b.Best(side).Some? ==>
              var q := b.Best(side).value;
              && q.quantity == Resting(b, side, q.price)
              && (exists id :: id in b.orders && b.orders[id].side == side && b.orders[id].price == q.price)
              && (forall id | id in b.orders && b.orders[id].side == side :: !Better(side, b.orders[id].price, q.price))
  {
    forall id | id in b.orders ensures b.orders[id].price in b.On(b.orders[id].side) {
      var o := b.orders[id];
      assert LevelAgrees(b, map[], o.side, o.price);
      RestingPositive(b, o.side, o.price);
      assert AtLevel(o.side, o.price)(o) > 0;
    }
    if b.Best(side).Some? {
      var q := b.Best(side).value;
      assert LevelAgrees(b, map[], side, q.price);
      RestingPositive(b, side, q.price);
    }
  }
}
