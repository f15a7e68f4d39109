/** What a run of ITCH messages does to one symbol's book and tape, with the share accounts. */
module Feed {
  import opened Common
  import opened Sums
  import opened OrderBook
  import opened BookLaws
  import opened Ticker
  import opened Itch

  type Messages = seq<ItchMessage>

  function Opposite(side: Side): AggressorSide {
    if side == Buy then Seller else Buyer
  }

  /** The book and tape after one message. */
  function Apply(b: Book, t: Tape, m: ItchMessage): (Book, Tape) {
    match m
    case AddOrder(_, id, side, quantity, price) => (b.Add(id, side, price, quantity), t)
    case ModifyOrder(_, id, quantity) => (b.Cancel(id, quantity), t)
    case Trade(_, price, quantity, matchNumber, bid) =>
      (b, t.Record(Ticker.Trade(price, quantity, matchNumber, if bid == Buy then Buyer else Seller)))
    case DeleteOrder(_, id) =>
      (if id in b.orders then b.Cancel(id, b.orders[id].quantity) else b, t)
    case OrderExecuted(_, id, quantity, matchNumber) =>
      if id !in b.orders then (b, t)
      else (b.Cancel(id, quantity),
            t.Record(Ticker.Trade(b.orders[id].price, quantity, matchNumber, Opposite(b.orders[id].side))))
    case OrderExecutedWithPrice(_, id, quantity, price, matchNumber) =>
      if id !in b.orders then (b, t)
      else (b.Cancel(id, quantity),
            t.Record(Ticker.Trade(price, quantity, matchNumber, Opposite(b.orders[id].side))))
    case StockDirectory(_, _) => (b, t)
  }

  function BookAfter(ms: Messages): Book {
    if ms == [] then EMPTY_BOOK else Apply(BookAfter(Init(ms)), TapeAfter(Init(ms)), Last(ms)).0
  }

  function TapeAfter(ms: Messages): Tape {
    if ms == [] then EMPTY_TAPE else Apply(BookAfter(Init(ms)), TapeAfter(Init(ms)), Last(ms)).1
  }

  function Init(ms: Messages): Messages requires ms != [] { ms[..|ms| - 1] }

  function Last(ms: Messages): ItchMessage requires ms != [] { ms[|ms| - 1] }

  /** Shares by where they came from and where they went. */
  datatype Ledger = Ledger(
    orphans: Orphans, added: nat, cancelled: nat, executedBuys: nat, executedSells: nat,
    printedBuys: nat, printedSells: nat)
  {
    /** Shares executed against a resting order of the given side. */
    function Execute(side: Side, quantity: u32): Ledger {
      if side == Buy then this.(executedBuys := executedBuys + quantity)
      else this.(executedSells := executedSells + quantity)
    }

    function PrintTrade(side: Side, quantity: u32): Ledger {
      if side == Buy then this.(printedBuys := printedBuys + quantity)
      else this.(printedSells := printedSells + quantity)
    }
  }

  function Entry(l: Ledger, b: Book, m: ItchMessage): Ledger {
    match m
    case AddOrder(_, id, _, quantity, _) =>
      l.(added := l.added + quantity, orphans := OrphansAfterAdd(b, l.orphans, id))
    case ModifyOrder(_, id, quantity) =>
      if id in b.orders then l.(cancelled := l.cancelled + quantity) else l
    case DeleteOrder(_, id) =>
      if id in b.orders then l.(cancelled := l.cancelled + b.orders[id].quantity) else l
    case OrderExecuted(_, id, quantity, _) =>
      if id in b.orders then l.Execute(b.orders[id].side, quantity) else l
    case OrderExecutedWithPrice(_, id, quantity, _, _) =>
      if id in b.orders then l.Execute(b.orders[id].side, quantity) else l
    case Trade(_, _, quantity, _, bid) => l.PrintTrade(bid, quantity)
    case StockDirectory(_, _) => l
  }

  function LedgerAfter(ms: Messages): Ledger {
    if ms == [] then Ledger(map[], 0, 0, 0, 0, 0, 0)
    else Entry(LedgerAfter(Init(ms)), BookAfter(Init(ms)), Last(ms))
  }

  // One more message is one more step.
  lemma AfterOneMore(ms: Messages, m: ItchMessage)
    ensures BookAfter(ms + [m]) == Apply(BookAfter(ms), TapeAfter(ms), m).0
    ensures TapeAfter(ms + [m]) == Apply(BookAfter(ms), TapeAfter(ms), m).1
    ensures LedgerAfter(ms + [m]) == Entry(LedgerAfter(ms), BookAfter(ms), m)
  {
    assert Init(ms + [m]) == ms;
  }

  /** The shares a message takes off a resting order. */
  function Taken(m: ItchMessage): Option<(u64, u32)> {
    match m
    case ModifyOrder(_, id, quantity) => Some((id, quantity))
    case OrderExecuted(_, id, quantity, _) => Some((id, quantity))
    case OrderExecutedWithPrice(_, id, quantity, _, _) => Some((id, quantity))
    case _ => None
  }

  /** The message takes no more than the order it names still holds. */
  predicate Bounded(b: Book, m: ItchMessage) {
    Taken(m).Some? && Taken(m).value.0 in b.orders ==> Taken(m).value.1 <= b.orders[Taken(m).value.0].quantity
  }

  /** The message leaves the level index right. */
  predicate KeepsIndex(b: Book, m: ItchMessage) {
    && (m.AddOrder? ==> b.Level(m.side, m.price) + m.quantity < TWO32)
    && (Taken(m).Some? ==> CancelKeepsIndex(b, Taken(m).value.0, Taken(m).value.1))
  }

  /** A fresh, non-empty add, or a message that takes no more than is there. */
  predicate Clean(b: Book, m: ItchMessage) {
    && Bounded(b, m) && KeepsIndex(b, m)
    && (m.AddOrder? ==> m.orderId !in b.orders && m.quantity > 0)
  }

  predicate AllAlong(ms: Messages, good: (Book, ItchMessage) -> bool) {
    forall k | 0 <= k < |ms| :: good(BookAfter(ms[..k]), ms[k])
  }

  lemma AllAlongInit(ms: Messages, good: (Book, ItchMessage) -> bool)
    requires ms != [] && AllAlong(ms, good)
    ensures AllAlong(Init(ms), good) && good(BookAfter(Init(ms)), Last(ms))
  {
    forall k | 0 <= k < |ms| - 1 ensures good(BookAfter(Init(ms)[..k]), Init(ms)[k]) {
      assert Init(ms)[..k] == ms[..k];
    }
  }

  lemma AgreementStep(b: Book, t: Tape, l: Ledger, m: ItchMessage)
    requires Agrees(b, l.orphans)
    ensures Agrees(Apply(b, t, m).0, Entry(l, b, m).orphans) <==> KeepsIndex(b, m)
  {
    match m
    case AddOrder(_, id, side, quantity, price) => AddKeepsAgreement(b, l.orphans, id, side, price, quantity);
    case ModifyOrder(_, id, quantity) => CancelKeepsAgreement(b, l.orphans, id, quantity);
    case OrderExecuted(_, id, quantity, _) => CancelKeepsAgreement(b, l.orphans, id, quantity);
    case OrderExecutedWithPrice(_, id, quantity, _, _) => CancelKeepsAgreement(b, l.orphans, id, quantity);
    case DeleteOrder(_, id) =>
      if id in b.orders { CancelKeepsAgreement(b, l.orphans, id, b.orders[id].quantity); }
    case _ =>
  }

  lemma ApplyKeepsAgreement(ms: Messages)
    requires ms != [] && Agrees(BookAfter(Init(ms)), LedgerAfter(Init(ms)).orphans)
    ensures Agrees(BookAfter(ms), LedgerAfter(ms).orphans) <==> KeepsIndex(BookAfter(Init(ms)), Last(ms))
  {
    AgreementStep(BookAfter(Init(ms)), TapeAfter(Init(ms)), LedgerAfter(Init(ms)), Last(ms));
  }

  lemma {:induction false} AgreesWhileIndexKept(ms: Messages)
    requires AllAlong(ms, KeepsIndex)
    ensures Agrees(BookAfter(ms), LedgerAfter(ms).orphans)
  {
    if ms == [] {
      EmptyAgrees();
    } else {
      AllAlongInit(ms, KeepsIndex);
      AgreesWhileIndexKept(Init(ms));
      ApplyKeepsAgreement(ms);
    }
  }

  /** After any run whose messages keep the index right, every level shows exactly the shares
      resting at its price plus those orphaned by overwritten ids; the first message that
      fails KeepsIndex makes some level wrong. */
  lemma LevelsAgreeAfterRun(ms: Messages, m: ItchMessage)
    requires AllAlong(ms, KeepsIndex)
    ensures Agrees(BookAfter(ms), LedgerAfter(ms).orphans)
    ensures Agrees(BookAfter(ms + [m]), LedgerAfter(ms + [m]).orphans) <==> KeepsIndex(BookAfter(ms), m)
  {
    AgreesWhileIndexKept(ms);
    assert Init(ms + [m]) == ms;
    ApplyKeepsAgreement(ms + [m]);
  }

  /** The order a message takes shares off, and how many: all that rest for a delete. */
  function Removed(b: Book, m: ItchMessage): Option<(u64, u32)> {
    if m.DeleteOrder? && m.orderId in b.orders then Some((m.orderId, b.orders[m.orderId].quantity))
    else if Taken(m).Some? && Taken(m).value.0 in b.orders then Taken(m)
    else None
  }

  function RemovedAt(b: Book, m: ItchMessage, side: Side, price: u64): nat {
    match Removed(b, m)
    case None => 0
    case Some((id, quantity)) =>
      if id in b.orders && (b.orders[id].side, b.orders[id].price) == (side, price) then quantity else 0
  }

  // What a message but an add does to the book, in terms of the shares it removes.
  lemma ApplyRemoves(b: Book, t: Tape, m: ItchMessage)
    requires !m.AddOrder?
    ensures Apply(b, t, m).0 ==
            match Removed(b, m) case None => b case Some((id, quantity)) => b.Cancel(id, quantity)
  {
  }

  lemma RemovalLowersLevel(b: Book, orphans: Orphans, id: u64, quantity: u32, side: Side, price: u64)
    requires Agrees(b, orphans) && id in b.orders && quantity <= b.orders[id].quantity
    ensures var at := if (b.orders[id].side, b.orders[id].price) == (side, price) then quantity else 0;
            at <= b.Level(side, price) && b.Cancel(id, quantity).Level(side, price) == b.Level(side, price) - at
  {
    LevelCoversOrder(b, orphans, id);
    LevelAfterCancel(b, id, quantity, side, price);
  }

  lemma RemovedIsBounded(b: Book, m: ItchMessage)
    requires Bounded(b, m)
    ensures Removed(b, m).Some? ==>
              var (id, quantity) := Removed(b, m).value;
              id in b.orders && quantity <= b.orders[id].quantity
  {
  }

  /** A bounded message never takes a level below zero: it lowers each by exactly the shares
      it removes there, which the order it names still held. */
  lemma NoLevelUnderflow(ms: Messages, m: ItchMessage, side: Side, price: u64)
    requires AllAlong(ms, KeepsIndex) && Bounded(BookAfter(ms), m) && !m.AddOrder?
    ensures var b := BookAfter(ms);
            && RemovedAt(b, m, side, price) <= b.Level(side, price)
            && BookAfter(ms + [m]).Level(side, price) == b.Level(side, price) - RemovedAt(b, m, side, price)
            && (Removed(b, m).Some? ==>
                  var (id, quantity) := Removed(b, m).value;
                  id in b.orders && quantity <= b.orders[id].quantity)
  {
    var b := BookAfter(ms);
    AgreesWhileIndexKept(ms);
    AfterOneMore(ms, m);
    ApplyRemoves(b, TapeAfter(ms), m);
    RemovedIsBounded(b, m);
    match Removed(b, m)
    case None =>
    case Some((id, quantity)) => RemovalLowersLevel(b, LedgerAfter(ms).orphans, id, quantity, side, price);
  }

  const QUANTITY: Order -> int := (o: Order) => o.quantity
  const COUNT: nat -> int := (n: nat) => n

  ghost function RestingTotal(b: Book): int {
    SumMap(b.orders, QUANTITY)
  }

  ghost function OrphanTotal(orphans: Orphans): int {
    SumMap(orphans, COUNT)
  }

  ghost predicate Balanced(b: Book, l: Ledger) {
    l.added == RestingTotal(b) + OrphanTotal(l.orphans) + l.cancelled + l.executedBuys + l.executedSells
  }

  lemma CancelTotal(b: Book, id: u64, quantity: u32)
    requires id in b.orders
    ensures RestingTotal(b.Cancel(id, quantity)) == RestingTotal(b)
          - (if quantity <= b.orders[id].quantity then quantity else quantity - TWO32)
  {
    var left := Sub32(b.orders[id].quantity, quantity);
    if left == 0 {
      SumMapSplit(b.orders, QUANTITY, id);
    } else {
      SumMapPut(b.orders, QUANTITY, id, b.orders[id].(quantity := left));
    }
  }

  lemma BalanceStep(b: Book, t: Tape, l: Ledger, m: ItchMessage)
    requires Balanced(b, l)
    ensures Balanced(Apply(b, t, m).0, Entry(l, b, m)) <==> Bounded(b, m)
  {
    if m.AddOrder? {
      AddBalance(b, l, m.orderId, m.side, m.price, m.quantity);
    } else if m.DeleteOrder? {
      if m.orderId in b.orders { CancelTotal(b, m.orderId, b.orders[m.orderId].quantity); }
    } else if Taken(m).Some? && Taken(m).value.0 in b.orders {
      CancelTotal(b, Taken(m).value.0, Taken(m).value.1);
    }
  }

  lemma RunBalanceStep(ms: Messages)
    requires ms != [] && Balanced(BookAfter(Init(ms)), LedgerAfter(Init(ms)))
    ensures Balanced(BookAfter(ms), LedgerAfter(ms)) <==> Bounded(BookAfter(Init(ms)), Last(ms))
  {
    BalanceStep(BookAfter(Init(ms)), TapeAfter(Init(ms)), LedgerAfter(Init(ms)), Last(ms));
  }

  lemma AddTotal(b: Book, id: u64, o: Order)
    ensures RestingTotal(b.Add(id, o.side, o.price, o.quantity))
         == RestingTotal(b) + o.quantity - (if id in b.orders then b.orders[id].quantity else 0)
  {
    assert b.Add(id, o.side, o.price, o.quantity).orders == b.orders[id := o];
    SumMapPut(b.orders, QUANTITY, id, o);
  }

  lemma OrphanTotalAfterAdd(b: Book, orphans: Orphans, id: u64)
    ensures OrphanTotal(OrphansAfterAdd(b, orphans, id))
         == OrphanTotal(orphans) + (if id in b.orders then b.orders[id].quantity else 0)
  {
    if id in b.orders {
      var o := b.orders[id];
      SumMapPut<(Side, u64), nat>(orphans, COUNT, (o.side, o.price), Orphaned(orphans, o.side, o.price) + o.quantity);
    }
  }

  lemma AddBalance(b: Book, l: Ledger, id: u64, side: Side, price: u64, quantity: u32)
    requires Balanced(b, l)
    ensures Balanced(b.Add(id, side, price, quantity),
                     l.(added := l.added + quantity, orphans := OrphansAfterAdd(b, l.orphans, id)))
  {
    AddTotal(b, id, Order(price, quantity, side));
    OrphanTotalAfterAdd(b, l.orphans, id);
  }

  lemma {:induction false} BalancedWhileBounded(ms: Messages)
    requires AllAlong(ms, Bounded)
    ensures Balanced(BookAfter(ms), LedgerAfter(ms))
  {
    if ms == [] {
      EmptyBalanced();
    } else {
      AllAlongInit(ms, Bounded);
      BalancedWhileBounded(Init(ms));
      RunBalanceStep(ms);
    }
  }

  /** Every share added is resting, orphaned, cancelled or executed, for as long as no message
      takes more than its order holds; the first message that does unbalances the accounts. */
  lemma SharesConserved(ms: Messages, m: ItchMessage)
    requires AllAlong(ms, Bounded)
    ensures Balanced(BookAfter(ms), LedgerAfter(ms))
    ensures Balanced(BookAfter(ms + [m]), LedgerAfter(ms + [m])) <==> Bounded(BookAfter(ms), m)
  {
    BalancedWhileBounded(ms);
    AfterOneMore(ms, m);
    BalanceStep(BookAfter(ms), TapeAfter(ms), LedgerAfter(ms), m);
  }

  lemma EmptyBalanced()
    ensures Balanced(BookAfter([]), LedgerAfter([]))
  {
  }

  const TRADE_SIZE: Ticker.Trade -> int := (t: Ticker.Trade) => t.quantity

  function SizeBy(side: AggressorSide): Ticker.Trade -> int {
    (t: Ticker.Trade) => if t.side == side then t.quantity else 0
  }

  /** The volume is the sum of the trades; buyers' trades are printed buys and executions
      against resting sells, sellers' trades the reverse; the last sale is the last trade's. */
  ghost predicate VolumeRight(t: Tape, l: Ledger) {
    && t.totalVolume == SumSeq(t.trades, TRADE_SIZE)
    && t.totalVolume == l.printedBuys + l.printedSells + l.executedBuys + l.executedSells
    && SumSeq(t.trades, SizeBy(Buyer)) == l.printedBuys + l.executedSells
    && SumSeq(t.trades, SizeBy(Seller)) == l.printedSells + l.executedBuys
    && t.lastSale == if t.trades == [] then 0 else t.trades[|t.trades| - 1].price
  }

  lemma SumsAfterTrade(trades: seq<Ticker.Trade>, trade: Ticker.Trade)
    ensures SumSeq(trades + [trade], TRADE_SIZE) == SumSeq(trades, TRADE_SIZE) + trade.quantity
    ensures forall side :: SumSeq(trades + [trade], SizeBy(side))
                        == SumSeq(trades, SizeBy(side)) + (if trade.side == side then trade.quantity else 0)
  {
    SumSeqPush(trades, TRADE_SIZE, trade);
    forall side { SumSeqPush(trades, SizeBy(side), trade); }
  }

  // A trade the ledger counts for its aggressor keeps the volume right.
  lemma TradeKeepsVolume(t: Tape, l: Ledger, trade: Ticker.Trade, l': Ledger)
    requires VolumeRight(t, l)
    requires l'.printedBuys + l'.executedSells
          == l.printedBuys + l.executedSells + (if trade.side == Buyer then trade.quantity else 0)
    requires l'.printedSells + l'.executedBuys
          == l.printedSells + l.executedBuys + (if trade.side == Seller then trade.quantity else 0)
    ensures VolumeRight(t.Record(trade), l')
  {
    SumsAfterTrade(t.trades, trade);
  }

  lemma VolumeStep(b: Book, t: Tape, l: Ledger, m: ItchMessage)
    requires VolumeRight(t, l)
    ensures VolumeRight(Apply(b, t, m).1, Entry(l, b, m))
  {
    var t' := Apply(b, t, m).1;
    if t' != t { TradeKeepsVolume(t, l, t'.trades[|t.trades|], Entry(l, b, m)); }
  }

  /** After any run the traded volume, in all and by aggressor, is what was printed plus what
      executed against resting orders. */
  lemma {:induction false} VolumeAccounts(ms: Messages)
    ensures VolumeRight(TapeAfter(ms), LedgerAfter(ms))
  {
    if ms == [] {
    } else {
      VolumeAccounts(Init(ms));
      VolumeStep(BookAfter(Init(ms)), TapeAfter(Init(ms)), LedgerAfter(Init(ms)), Last(ms));
    }
  }

  /** Messages about ids that do not rest, and off-book trades, leave the book alone. */
  lemma UnknownIdsChangeNothing(b: Book, t: Tape, m: ItchMessage)
    requires !m.AddOrder?
    requires m.ModifyOrder? || m.DeleteOrder? || m.OrderExecuted? || m.OrderExecutedWithPrice? ==>
               m.orderId !in b.orders
    ensures Apply(b, t, m).0 == b
    ensures Apply(b, t, m).1 == t <==> !m.Trade?
  {
    if m.Trade? { assert |Apply(b, t, m).1.trades| == |t.trades| + 1; }
  }

  lemma {:induction false} CleanRun(ms: Messages)
    requires AllAlong(ms, Clean)
    ensures Agrees(BookAfter(ms), map[]) && Positive(BookAfter(ms)) && LedgerAfter(ms).orphans == map[]
  {
    if ms == [] {
      EmptyAgrees();
    } else {
      AllAlongInit(ms, Clean);
      CleanRun(Init(ms));
      ApplyKeepsAgreement(ms);
      PositiveStep(BookAfter(Init(ms)), TapeAfter(Init(ms)), Last(ms));
    }
  }

  lemma CancelKeepsPositive(b: Book, id: u64, quantity: u32)
    requires Positive(b)
    ensures Positive(b.Cancel(id, quantity))
  {
    if id in b.orders {
      forall side: Side, price: u64 | price in b.Cancel(id, quantity).On(side)
        ensures b.Cancel(id, quantity).On(side)[price] > 0
      {
        assert price in b.On(side) ==> b.On(side)[price] > 0;
      }
    }
  }

  lemma PositiveStep(b: Book, t: Tape, m: ItchMessage)
    requires Positive(b) && Clean(b, m)
    ensures Positive(Apply(b, t, m).0)
  {
    match m
    case AddOrder(_, id, side, quantity, price) =>
      forall s: Side, p: u64 | p in b.Add(id, side, price, quantity).On(s)
        ensures b.Add(id, side, price, quantity).On(s)[p] > 0
      {
        assert p in b.On(s) ==> b.On(s)[p] > 0;
      }
    case ModifyOrder(_, id, quantity) => CancelKeepsPositive(b, id, quantity);
    case OrderExecuted(_, id, quantity, _) => CancelKeepsPositive(b, id, quantity);
    case OrderExecutedWithPrice(_, id, quantity, _, _) => CancelKeepsPositive(b, id, quantity);
    case DeleteOrder(_, id) => if id in b.orders { CancelKeepsPositive(b, id, b.orders[id].quantity); }
    case _ =>
  }

  /** After any run of clean messages the best bid is the highest price among the resting
      buys with the full size resting there, the best ask the lowest among the sells, and
      each is absent exactly when its side has no resting order. */
  lemma BestPricesAfterCleanRun(ms: Messages, side: Side)
    requires AllAlong(ms, Clean)
    ensures var b := BookAfter(ms);
            && (b.Best(side).None? <==> forall id | id in b.orders :: b.orders[id].side != side)
            && (b.Best(side).Some? ==>
                  var q := b.Best(side).value;
                  && q.quantity == Resting(b, side, q.price)
                  && (exists id :: id in b.orders && b.orders[id].side == side && b.orders[id].price == q.price)
                  && (forall id | id in b.orders && b.orders[id].side == side ::
                        !Better(side, b.orders[id].price, q.price)))
  {
    CleanRun(ms);
    BestIsBestResting(BookAfter(ms), side);
  }

  /** No order on the same side rests at a better price. */
  ghost predicate BestResting(b: Book, id: u64) {
    && id in b.orders
    && forall k | k in b.orders && b.orders[k].side == b.orders[id].side ::
         !Better(b.orders[id].side, b.orders[k].price, b.orders[id].price)
  }

  ghost predicate Rests(b: Book, side: Side) {
    exists id :: id in b.orders && b.orders[id].side == side
  }

  /** The distance from one price up to another, zero when they cross. */
  function Distance(bid: u64, ask: u64): u64 {
    if bid <= ask then ask - bid else 0
  }

  /** The spread is there exactly when both sides rest, and it is the distance between any best
      resting bid and any best resting ask. */
  ghost predicate SpreadRight(b: Book, bid: u64, ask: u64) {
    && (b.Spread().Some? <==> Rests(b, Buy) && Rests(b, Sell))
    && (BestResting(b, bid) && BestResting(b, ask) && b.orders[bid].side == Buy && b.orders[ask].side == Sell ==>
          b.Spread() == Some(Distance(b.orders[bid].price, b.orders[ask].price)))
  }

  // The best quote of a side is there exactly when it rests, at the price of any best order.
  lemma BestPriceIs(b: Book, side: Side, id: u64)
    requires Agrees(b, map[]) && Positive(b)
    ensures b.Best(side).Some? <==> Rests(b, side)
    ensures BestResting(b, id) && b.orders[id].side == side ==>
              b.Best(side).Some? && b.Best(side).value.price == b.orders[id].price
  {
    BestIsBestResting(b, side);
  }

  lemma SpreadOf(b: Book, bid: u64, ask: u64)
    requires Agrees(b, map[]) && Positive(b)
    ensures SpreadRight(b, bid, ask)
  {
    BestPriceIs(b, Buy, bid);
    BestPriceIs(b, Sell, ask);
  }

  /** After any run of clean messages there is a spread exactly when both sides have resting
      orders, and it is the distance from the best resting bid up to the best resting ask,
      zero when these cross. */
  lemma SpreadAfterCleanRun(ms: Messages, bid: u64, ask: u64)
    requires AllAlong(ms, Clean)
    ensures SpreadRight(BookAfter(ms), bid, ask)
  {
    CleanRun(ms);
    SpreadOf(BookAfter(ms), bid, ask);
  }
}
