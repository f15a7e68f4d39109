/** Every telemetry record and every order belongs to one symbol: what the records show, and how
    many there are of each. */
module TelemetryLaws {
  import opened Common
  import opened Sums
  import opened Itch
  import opened OrderBook
  import opened Gateway
  import opened Processor
  import opened ProcessorLaws
  import opened Market
  import opened MarketLaws
  import Feed

  /** The midpoints of the telemetry records written for the messages routed to symbol i. */
  function Shown(m: State, acts: seq<Action>, i: nat): seq<u32> {
    if acts == [] then []
    else
      var n := |acts| - 1;
      var before := Behave(m, acts[..n]);
      Shown(m, acts[..n], i) + if LeadsTo(before, acts[n], i) then Written(before, Act(before, acts[n])) else []
  }

  /** The midpoints of the records written between two states. */
  function Written(before: State, after: State): seq<u32> {
    if |before.telemetry| > |after.telemetry| then []
    else
      var added := after.telemetry[|before.telemetry|..];
      seq(|added|, k requires 0 <= k < |added| => added[k].midpoint)
  }

  // An action adds to the telemetry, if anything, one record, and its midpoint to the log of
  // the symbol it led to.
  lemma ActWrites(m: State, a: Action, i: nat)
    requires i < |m.procs|
    ensures m.telemetry <= Act(m, a).telemetry && |Act(m, a).telemetry| <= |m.telemetry| + 1
    ensures (forall j: nat :: !LeadsTo(m, a, j)) ==> Act(m, a).telemetry == m.telemetry
    ensures i < |Act(m, a).procs|
    ensures Act(m, a).procs[i].log.mids
         == m.procs[i].log.mids + if LeadsTo(m, a, i) then Written(m, Act(m, a)) else []
  {
    match a
    case Reports(reports) =>
      ConfirmAllSends(m, reports);
      ConfirmAllKeepsLog(m, reports, i);
    case Deliver(msg, gw, time) =>
      var m1 := m.(time := time);
      assert m1.Slot(msg.locate) == m.Slot(msg.locate);
      if !msg.StockDirectory? && m1.Slot(msg.locate).Some? {
        var j := m1.Slot(msg.locate).value;
        assert LeadsTo(m, a, j);
        DispatchWrites(System(m1, gw), j, msg);
      }
  }

  lemma DispatchWrites(s: System, j: nat, msg: ItchMessage)
    requires j < |s.market.procs|
    ensures var m, m' := s.market, s.Dispatch(j, msg).market;
            && m.telemetry <= m'.telemetry && |m'.telemetry| <= |m.telemetry| + 1
            && m'.procs == m.procs[j := m'.procs[j]]
            && m'.procs[j].log.mids == m.procs[j].log.mids + Written(m, m')
  {
    var p := s.market.procs[j];
    DecideEffect(p.Absorb(msg), s.market.counter);
    var e := p.Handle(msg, s.gw, s.market.counter, s.market.time);
    EmitEffect(p.Absorb(msg).Decide(s.market.counter).0, e.gw, s.market.time);
  }

  lemma {:induction false} ShownIsLogged(symbols: seq<Symbol>, midnight: nat, acts: seq<Action>, i: nat)
    requires i < |symbols|
    ensures var m := Behave(NewMarket(symbols, midnight), acts);
            i < |m.procs| && m.procs[i].log.mids == Shown(NewMarket(symbols, midnight), acts, i)
  {
    if acts == [] {
    } else {
      var n := |acts| - 1;
      ShownIsLogged(symbols, midnight, acts[..n], i);
      ActWrites(Behave(NewMarket(symbols, midnight), acts[..n]), acts[n], i);
    }
  }

  /** In every behaviour the records written for the messages routed to a symbol show midpoints
      that are positive and each differ from the one before. */
  lemma TelemetryAlternates(symbols: seq<Symbol>, midnight: nat, acts: seq<Action>, i: nat)
    requires OnTheWire(acts) && i < |symbols|
    ensures var mids := Shown(NewMarket(symbols, midnight), acts, i);
            && (forall k | 0 <= k < |mids| :: mids[k] > 0)
            && (forall k | 0 < k < |mids| :: mids[k - 1] != mids[k])
  {
    AlwaysSound(symbols, midnight, acts);
    ShownIsLogged(symbols, midnight, acts, i);
    assert MidsAlternate(Behave(NewMarket(symbols, midnight), acts).procs[i]);
  }

  /** Both sides rest at positive prices, and their midpoint in whole ticks is not the last one. */
  predicate NewMid(b: Book, last: nat) {
    && TwoSided(b) && b.BestBid().value.price > 0 && b.BestAsk().value.price > 0
    && Mid2(b) / 2 != last
  }

  function LastOf(mids: seq<u32>): nat {
    if mids == [] then 0 else mids[|mids| - 1]
  }

  /** What a record says, given the time, the symbol's locate, the book and the account. */
  predicate Shows(t: TelemetryPayload, time: nat, locate: u16, b: Book, gw: Account) {
    && TwoSided(b) && t.midpoint == Mid2(b) / 2 && t.timestamp == time && t.locate == locate
    && t.position == gw.Position(locate) && t.equity == gw.Cash(locate) + gw.Position(locate) * (Mid2(b) / 2)
  }

  lemma HandleRecords(p: Proc, m: ItchMessage, gw: Account, id: nat, time: nat)
    requires SmallPrices(p.Absorb(m).book) && MidsAlternate(p)
    ensures var e, b := p.Handle(m, gw, id, time), p.Absorb(m).book;
            && (e.payload.Some? <==> NewMid(b, LastOf(p.log.mids)))
            && (e.payload.Some? ==> Shows(e.payload.value, time, p.locate, b, e.gw))
  {
    DecideEffect(p.Absorb(m), id);
    EmitsExactlyWhen(p.Absorb(m).Decide(id).0, p.Handle(m, gw, id, time).gw, time);
  }

  lemma EmitsExactlyWhen(p: Proc, gw: Account, time: nat)
    requires SmallPrices(p.book) && MidsAlternate(p)
    ensures var (_, payload) := p.Emit(gw, time);
            && (payload.Some? <==> NewMid(p.book, LastOf(p.log.mids)))
            && (payload.Some? ==> Shows(payload.value, time, p.locate, p.book, gw))
  {
    MidpointIs(p);
    EmitIs(p, gw, time);
  }

  lemma MidpointIs(p: Proc)
    requires SmallPrices(p.book)
    ensures var priced := TwoSided(p.book) && p.book.BestBid().value.price > 0 && p.book.BestAsk().value.price > 0;
            p.Midpoint() == if priced then Mid2(p.book) / 2 else 0
    ensures TwoSided(p.book) && p.book.BestBid().value.price > 0 && p.book.BestAsk().value.price > 0 ==> p.Midpoint() > 0
  {
  }

  lemma EmitIs(p: Proc, gw: Account, time: nat)
    ensures var mid := p.Midpoint();
            p.Emit(gw, time).1 ==
            if mid == 0 || mid == p.lastMid then None
            else Some(TelemetryPayload(
                   time, gw.Cash(p.locate) + gw.Position(p.locate) * mid, mid, gw.Position(p.locate), p.locate))
  {
  }

  /** The account after a message: the order it provoked, if any, has been booked. */
  function Booking(gw: Account, before: State, after: State): Account {
    if |after.sent| > |before.sent| then gw.Send(after.sent[|before.sent|]) else gw
  }

  lemma DispatchRecords(s: System, i: nat, msg: ItchMessage)
    requires i < |s.market.procs|
    requires SmallPrices(s.market.procs[i].Absorb(msg).book) && MidsAlternate(s.market.procs[i])
    ensures var m, m', p := s.market, s.Dispatch(i, msg).market, s.market.procs[i];
            var b := p.Absorb(msg).book;
            if NewMid(b, LastOf(p.log.mids)) then
              exists t :: m'.telemetry == m.telemetry + [t] && Shows(t, m.time, p.locate, b, Booking(s.gw, m, m'))
            else m'.telemetry == m.telemetry
  {
    var m, p := s.market, s.market.procs[i];
    var e := p.Handle(msg, s.gw, m.counter, m.time);
    HandleRecords(p, msg, s.gw, m.counter, m.time);
    assert s.Dispatch(i, msg).market.telemetry == Push(m.telemetry, e.payload);
    assert e.gw == Booking(s.gw, m, s.Dispatch(i, msg).market);
  }

  /** After any behaviour a message routed to symbol i adds a record if and only if it leaves
      both sides resting at positive prices with a midpoint other than the last one shown for
      the symbol. The record shows that midpoint, the time, and the symbol's account at it. */
  lemma RecordedExactlyWhen(symbols: seq<Symbol>, midnight: nat, acts: seq<Action>, i: nat, a: Action)
    requires OnTheWire(acts) && OnTheWire([a])
    requires i < |symbols| && LeadsTo(Behave(NewMarket(symbols, midnight), acts), a, i)
    ensures var m0 := NewMarket(symbols, midnight);
            var m, m' := Behave(m0, acts), Act(Behave(m0, acts), a);
            var b := Feed.BookAfter(Routed(m0, acts, i) + [a.m]);
            i < |m.procs| &&
            if NewMid(b, LastOf(Shown(m0, acts, i))) then
              exists t :: m'.telemetry == m.telemetry + [t]
                          && Shows(t, a.time, m.procs[i].locate, b, Booking(a.gw, m, m'))
            else m'.telemetry == m.telemetry
  {
    var m := Behave(NewMarket(symbols, midnight), acts);
    assert [a][0] == a;
    AlwaysSound(symbols, midnight, acts);
    FeedIsRouted(symbols, midnight, acts, i);
    ShownIsLogged(symbols, midnight, acts, i);
    assert Sound(m.procs[i], m.counter);
    AbsorbFollows(m.procs[i], a.m);
    var m1 := m.(time := a.time);
    assert m1.Slot(a.m.locate) == m.Slot(a.m.locate);
    DispatchRecords(System(m1, a.gw), i, a.m);
  }

  const ORDERS: Proc -> int := (p: Proc) => |p.log.sent|
  const RECORDS: Proc -> int := (p: Proc) => |p.log.mids|

  /** The orders the market sent are those of its symbols together, and so are its records. */
  ghost predicate Counted(m: State) {
    && |m.sent| == SumSeq(m.procs, ORDERS)
    && |m.telemetry| == SumSeq(m.procs, RECORDS)
  }

  lemma {:induction false} NothingCounted(procs: seq<Proc>)
    requires forall i | 0 <= i < |procs| :: procs[i].log == Log([], [], [], [])
    ensures SumSeq(procs, ORDERS) == 0 && SumSeq(procs, RECORDS) == 0
  {
    if procs == [] {
    } else {
      NothingCounted(procs[..|procs| - 1]);
    }
  }

  // Replacing one symbol by one with the same log leaves the sums alone.
  lemma SameLogCounted(m: State, m': State, i: nat, p: Proc)
    requires Counted(m) && i < |m.procs| && m'.procs == m.procs[i := p]
    requires |p.log.sent| == |m.procs[i].log.sent| && |p.log.mids| == |m.procs[i].log.mids|
    requires m'.sent == m.sent && m'.telemetry == m.telemetry
    ensures Counted(m')
  {
    SumSeqUpdate(m.procs, ORDERS, i, p);
    SumSeqUpdate(m.procs, RECORDS, i, p);
  }

  lemma {:induction false} ConfirmAllCounted(m: State, reports: seq<ExecutionReport>)
    requires Counted(m)
    ensures Counted(m.ConfirmAll(reports))
  {
    if reports == [] {
    } else {
      var n := |reports| - 1;
      ConfirmAllCounted(m, reports[..n]);
      var m1, r := m.ConfirmAll(reports[..n]), reports[n];
      var slot := m1.Slot(r.locate);
      if slot.Some? && r.orderId in m1.procs[slot.value].tracker {
        SameLogCounted(m1, m1.Confirm(r), slot.value, m1.procs[slot.value].Fill(r));
      }
    }
  }

  lemma DispatchCounted(s: System, j: nat, msg: ItchMessage)
    requires Counted(s.market) && j < |s.market.procs|
    ensures Counted(s.Dispatch(j, msg).market)
  {
    var m := s.market;
    var e := m.procs[j].Handle(msg, s.gw, m.counter, m.time);
    HandleEffect(m.procs[j], msg, s.gw, m.counter, m.time);
    DispatchWrites(s, j, msg);
    SumSeqUpdate(m.procs, ORDERS, j, e.p);
    SumSeqUpdate(m.procs, RECORDS, j, e.p);
  }

  lemma FilterCounted(s: System, msg: ItchMessage)
    requires Counted(s.market)
    ensures Counted(s.Filter(msg).market)
  {
    if msg.StockDirectory? {
      var i := FindSymbol(s.market.procs, Clean(msg.symbol));
      if i.Some? && msg.locate < |s.market.lookup| {
        SameLogCounted(s.market, s.Filter(msg).market, i.value, s.market.procs[i.value].(locate := msg.locate));
      }
    } else if s.market.Slot(msg.locate).Some? {
      DispatchCounted(s, s.market.Slot(msg.locate).value, msg);
    }
  }

  /** In every behaviour each order sent was logged by one symbol, and each record written shows
      one midpoint logged by one symbol: the counts agree. */
  lemma {:induction false} AlwaysCounted(symbols: seq<Symbol>, midnight: nat, acts: seq<Action>)
    ensures Counted(Behave(NewMarket(symbols, midnight), acts))
  {
    if acts == [] {
      var procs := NewMarket(symbols, midnight).procs;
      assert forall i | 0 <= i < |procs| :: procs[i] == NewProc(symbols[i]);
      NothingCounted(procs);
    } else {
      var n := |acts| - 1;
      AlwaysCounted(symbols, midnight, acts[..n]);
      var m := Behave(NewMarket(symbols, midnight), acts[..n]);
      match acts[n]
      case Deliver(msg, gw, time) => FilterCounted(System(m.(time := time), gw), msg);
      case Reports(reports) => ConfirmAllCounted(m, reports);
    }
  }
}
