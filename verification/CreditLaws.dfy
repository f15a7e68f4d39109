/** Behaviours in which no locate is shared and the gateway echoes the orders sent, late, repeated
    or never: an order is credited to its sender exactly when it has been reported. */
module CreditLaws {
  import opened Common
  import opened Itch
  import opened Strategy
  import opened Processor
  import opened ProcessorLaws
  import opened Market
  import opened MarketLaws
  import opened UnsharedLaws

  /** The ids of the orders reported so far. */
  function Reported(acts: seq<Action>): set<nat> {
    if acts == [] then {}
    else Reported(acts[..|acts| - 1]) + Named(acts[|acts| - 1])
  }

  function Named(a: Action): set<nat> {
    if a.Reports? then ReportedIds(a.reports) else {}
  }

  function ReportedIds(reports: seq<ExecutionReport>): set<nat> {
    set r | r in reports :: r.orderId
  }

  ghost predicate UnsharedActs(m: State, acts: seq<Action>) {
    forall k | 0 <= k < |acts| && acts[k].Deliver? :: Unshared(Behave(m, acts[..k]), acts[k].m)
  }

  /** An order of symbol i is on a locate that leads back to it, and is credited exactly when it
      is reported, awaited exactly when it is not. */
  ghost predicate Placed(m: State, i: nat, c: OrderCommand, reported: set<nat>)
    requires i < |m.procs|
  {
    && c.orderId < |m.sent| && m.sent[c.orderId] == c && m.Slot(c.locate) == Some(i)
    && (c.orderId in m.procs[i].log.fills <==> c.orderId in reported)
    && (c.orderId in m.procs[i].tracker <==> c.orderId !in reported)
  }

  ghost predicate AllPlaced(m: State, reported: set<nat>) {
    && (forall id | id in reported :: id < |m.sent|)
    && forall i, c | 0 <= i < |m.procs| && c in m.procs[i].log.sent :: Placed(m, i, c, reported)
  }

  lemma ConfirmPlaced(m: State, r: ExecutionReport, reported: set<nat>)
    requires AllPlaced(m, reported) && IsEcho(m, r)
    ensures AllPlaced(m.Confirm(r), reported + {r.orderId})
  {
    var m', reported' := m.Confirm(r), reported + {r.orderId};
    forall i, c | 0 <= i < |m'.procs| && c in m'.procs[i].log.sent ensures Placed(m', i, c, reported') {
      assert Placed(m, i, c, reported);
    }
  }

  lemma {:induction false} ConfirmAllPlaced(m: State, reports: seq<ExecutionReport>, reported: set<nat>)
    requires AllPlaced(m, reported) && forall r | r in reports :: IsEcho(m, r)
    ensures AllPlaced(m.ConfirmAll(reports), reported + ReportedIds(reports))
  {
    if reports == [] {
      assert reported + ReportedIds(reports) == reported;
    } else {
      var front, r := reports[..|reports| - 1], reports[|reports| - 1];
      ConfirmAllPlaced(m, front, reported);
      ConfirmAllSends(m, front);
      assert r in reports;
      ConfirmPlaced(m.ConfirmAll(front), r, reported + ReportedIds(front));
      assert reports == front + [r];
      assert reported + ReportedIds(front) + {r.orderId} == reported + ReportedIds(reports);
    }
  }

  lemma {:induction false} ConfirmAllHomed(m: State, reports: seq<ExecutionReport>)
    requires Homed(m)
    ensures Homed(m.ConfirmAll(reports))
  {
    if reports == [] {
    } else {
      ConfirmAllHomed(m, reports[..|reports| - 1]);
      OneConfirmHomed(m.ConfirmAll(reports[..|reports| - 1]), reports[|reports| - 1]);
    }
  }

  lemma OneConfirmHomed(m: State, r: ExecutionReport)
    requires Homed(m)
    ensures Homed(m.Confirm(r))
  {
    assert forall l: u16 :: m.Confirm(r).Slot(l) == m.Slot(l);
  }

  lemma DirectoryPlaced(m: State, locate: u16, symbol: Symbol, reported: set<nat>)
    requires Homed(m) && AllPlaced(m, reported) && Unshared(m, StockDirectory(locate, symbol))
    ensures Homed(m.Directory(locate, symbol)) && AllPlaced(m.Directory(locate, symbol), reported)
  {
    var m', at := m.Directory(locate, symbol), FindSymbol(m.procs, Clean(symbol));
    if at.Some? {
      assert forall l: u16 :: m'.Slot(l) == if l == locate then at else m.Slot(l);
      assert forall i | 0 <= i < |m.procs| :: m'.procs[i] == m.procs[i].(locate := m'.procs[i].locate);
      forall i, c | 0 <= i < |m'.procs| && c in m'.procs[i].log.sent ensures Placed(m', i, c, reported) {
        assert Placed(m, i, c, reported);
      }
    }
  }

  // Symbol i moves on to p', which perhaps sent an order.
  lemma MovePlaced(m: State, m': State, i: nat, p': Proc, order: Option<OrderCommand>, reported: set<nat>)
    requires Homed(m) && AllPlaced(m, reported) && i < |m.procs|
    requires m'.procs == m.procs[i := p'] && m'.lookup == m.lookup && m'.sent == Push(m.sent, order)
    requires p'.locate == m.procs[i].locate && p'.log.fills == m.procs[i].log.fills
    requires p'.log.sent == Push(m.procs[i].log.sent, order)
    requires p'.tracker == m.procs[i].tracker + if order.Some? then {order.value.orderId} else {}
    requires order.Some? ==>
               && order.value.orderId == |m.sent| && m.Slot(order.value.locate) == Some(i)
               && order.value.orderId !in p'.log.fills
    ensures Homed(m') && AllPlaced(m', reported)
  {
    assert forall l: u16 :: m'.Slot(l) == m.Slot(l);
    forall j, c | 0 <= j < |m'.procs| && c in m'.procs[j].log.sent ensures Placed(m', j, c, reported) {
      if c in m.procs[j].log.sent {
        assert Placed(m, j, c, reported);
      }
    }
  }

  lemma DispatchPlaced(s: System, i: nat, msg: ItchMessage, reported: set<nat>)
    requires Homed(s.market) && AllPlaced(s.market, reported) && MarketSound(s.market)
    requires i < |s.market.procs| && s.market.Slot(s.market.procs[i].locate) == Some(i)
    ensures Homed(s.Dispatch(i, msg).market) && AllPlaced(s.Dispatch(i, msg).market, reported)
  {
    var m := s.market;
    var e := m.procs[i].Handle(msg, s.gw, m.counter, m.time);
    HandleEffect(m.procs[i], msg, s.gw, m.counter, m.time);
    FreshId(m.procs[i], m.counter);
    MovePlaced(m, s.Dispatch(i, msg).market, i, e.p, e.order, reported);
  }

  lemma FreshId(p: Proc, counter: nat)
    requires FilledOnce(p, counter)
    ensures counter !in p.log.fills
  {
    if counter in p.log.fills {
      var k :| 0 <= k < |p.log.fills| && p.log.fills[k] == counter;
      SentBelow(p, counter, p.log.fills[k]);
    }
  }

  lemma FilterPlaced(s: System, msg: ItchMessage, reported: set<nat>)
    requires Homed(s.market) && AllPlaced(s.market, reported) && MarketSound(s.market)
    requires Unshared(s.market, msg)
    ensures Homed(s.Filter(msg).market) && AllPlaced(s.Filter(msg).market, reported)
  {
    if msg.StockDirectory? {
      DirectoryPlaced(s.market, msg.locate, msg.symbol, reported);
    } else if s.market.Slot(msg.locate).Some? {
      DispatchPlaced(s, s.market.Slot(msg.locate).value, msg, reported);
    }
  }

  lemma AnyTimePlaced(m: State, time: nat, reported: set<nat>)
    requires Homed(m) && AllPlaced(m, reported)
    ensures var m' := m.(time := time); Homed(m') && AllPlaced(m', reported)
    ensures forall msg :: Unshared(m, msg) ==> Unshared(m.(time := time), msg)
  {
    var m' := m.(time := time);
    assert forall l: u16 :: m'.Slot(l) == m.Slot(l);
    forall i, c | 0 <= i < |m'.procs| && c in m'.procs[i].log.sent ensures Placed(m', i, c, reported) {
      assert Placed(m, i, c, reported);
    }
  }

  lemma {:induction false} AlwaysPlaced(symbols: seq<Symbol>, midnight: nat, acts: seq<Action>)
    requires OnTheWire(acts) && Echoing(NewMarket(symbols, midnight), acts)
    requires UnsharedActs(NewMarket(symbols, midnight), acts)
    ensures var m := Behave(NewMarket(symbols, midnight), acts); Homed(m) && AllPlaced(m, Reported(acts))
  {
    if acts == [] {
    } else {
      var m0, front, a := NewMarket(symbols, midnight), acts[..|acts| - 1], acts[|acts| - 1];
      assert forall k | 0 <= k < |front| :: front[k] == acts[k] && front[..k] == acts[..k];
      AlwaysPlaced(symbols, midnight, front);
      AlwaysSound(symbols, midnight, front);
      ActPlaced(Behave(m0, front), a, Reported(front));
    }
  }

  lemma ActPlaced(m: State, a: Action, reported: set<nat>)
    requires Homed(m) && AllPlaced(m, reported) && MarketSound(m)
    requires a.Deliver? ==> Unshared(m, a.m)
    requires a.Reports? ==> forall r | r in a.reports :: IsEcho(m, r)
    ensures Homed(Act(m, a)) && AllPlaced(Act(m, a), reported + Named(a))
  {
    match a
    case Deliver(msg, gw, time) =>
      AnyTimePlaced(m, time, reported);
      SoundAnyTime(m, m.(time := time));
      FilterPlaced(System(m.(time := time), gw), msg, reported);
      assert reported + Named(a) == reported;
    case Reports(reports) =>
      ConfirmAllPlaced(m, reports, reported);
      ConfirmAllHomed(m, reports);
  }

  /** In every such behaviour an order is credited to the symbol that sent it if and only if it
      has been reported, and awaited by it if and only if it has not. */
  lemma CreditedExactlyWhenReported(symbols: seq<Symbol>, midnight: nat, acts: seq<Action>, i: nat, c: OrderCommand)
    requires OnTheWire(acts) && Echoing(NewMarket(symbols, midnight), acts)
    requires UnsharedActs(NewMarket(symbols, midnight), acts)
    requires var m := Behave(NewMarket(symbols, midnight), acts); i < |m.procs| && c in m.procs[i].log.sent
    ensures var p := Behave(NewMarket(symbols, midnight), acts).procs[i];
            && (c.orderId in p.log.fills <==> c.orderId in Reported(acts))
            && (c.orderId in p.tracker <==> c.orderId !in Reported(acts))
  {
    AlwaysPlaced(symbols, midnight, acts);
    assert Placed(Behave(NewMarket(symbols, midnight), acts), i, c, Reported(acts));
  }

  /** Once every order sent has been reported nobody awaits a fill, and each position is 100 per
      order sent. */
  lemma AllReportedAllCredited(symbols: seq<Symbol>, midnight: nat, acts: seq<Action>, i: nat)
    requires OnTheWire(acts) && Echoing(NewMarket(symbols, midnight), acts) && i < |symbols|
    requires UnsharedActs(NewMarket(symbols, midnight), acts)
    requires forall id: nat | id < Behave(NewMarket(symbols, midnight), acts).counter :: id in Reported(acts)
    ensures var m := Behave(NewMarket(symbols, midnight), acts);
            && |m.procs| == |symbols| && m.procs[i].tracker == {}
            && m.procs[i].strat.position == WrapI32(100 * |m.procs[i].log.sent|)
  {
    var m := Behave(NewMarket(symbols, midnight), acts);
    AlwaysSound(symbols, midnight, acts);
    PositionPlusAwaitedIsSent(symbols, midnight, acts, i);
    var p := m.procs[i];
    assert Sound(p, m.counter);
    forall id | id in p.tracker ensures false {
      var k :| 0 <= k < |p.log.sent| && p.log.sent[k].orderId == id;
      CreditedExactlyWhenReported(symbols, midnight, acts, i, p.log.sent[k]);
    }
  }
}
