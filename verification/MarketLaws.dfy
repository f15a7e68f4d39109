/** What holds of the whole market after any messages and any execution reports at all. */
module MarketLaws {
  import opened Common
  import opened Sums
  import opened Strategy
  import opened Itch
  import opened ItchRoundTrip
  import opened Gateway
  import opened Processor
  import opened ProcessorLaws
  import opened Market
  import BookLaws
  import Feed

  /** What the outside world can do: deliver a message while the gateway is in any state, or
      return any reports from a poll. */
  datatype Action = Deliver(m: ItchMessage, gw: Account, time: nat) | Reports(reports: seq<ExecutionReport>)

  function Act(m: State, a: Action): State {
    match a
    case Deliver(msg, gw, time) => System(m.(time := time), gw).Filter(msg).market
    case Reports(reports) => m.ConfirmAll(reports)
  }

  function Behave(m: State, acts: seq<Action>): State {
    if acts == [] then m else Act(Behave(m, acts[..|acts| - 1]), acts[|acts| - 1])
  }

  predicate OnTheWire(acts: seq<Action>) {
    forall k | 0 <= k < |acts| :: acts[k].Deliver? ==> FitsPacket(acts[k].m)
  }

  /** Order ids count up from zero, every symbol is sound, and no two symbols sent the same id. */
  ghost predicate MarketSound(m: State) {
    && |m.sent| == m.counter
    && (forall k | 0 <= k < |m.sent| :: m.sent[k].orderId == k)
    && (forall i | 0 <= i < |m.procs| :: Sound(m.procs[i], m.counter))
    && IdsApart(m.procs)
  }

  ghost predicate IdsApart(procs: seq<Proc>) {
    forall i, j, id | 0 <= i < j < |procs| :: !(SentIn(procs[i], id) && SentIn(procs[j], id))
  }

  lemma NewMarketIsSound(symbols: seq<Symbol>, midnight: nat)
    ensures MarketSound(NewMarket(symbols, midnight))
  {
    forall i | 0 <= i < |symbols| ensures Sound(NewMarket(symbols, midnight).procs[i], 0) {
      NewIsSound(symbols[i]);
    }
  }

  // Two states that differ at most in their clocks.
  predicate SameButTime(m: State, m': State) {
    m.(time := m'.time) == m'
  }

  lemma SoundAnyTime(m: State, m': State)
    requires MarketSound(m) && SameButTime(m, m')
    ensures MarketSound(m')
  {
    assert m'.procs == m.procs;
  }

  lemma SentBelow(p: Proc, counter: nat, id: nat)
    requires FilledOnce(p, counter) && SentIn(p, id)
    ensures id < counter
  {
  }

  lemma ConfirmKeepsSound(m: State, r: ExecutionReport)
    requires MarketSound(m)
    ensures MarketSound(m.Confirm(r))
  {
    var slot := m.Slot(r.locate);
    if slot.Some? && r.orderId in m.procs[slot.value].tracker {
      FillKeepsSound(m.procs[slot.value], r, m.counter);
    }
  }

  lemma {:induction false} ConfirmAllKeepsSound(m: State, reports: seq<ExecutionReport>)
    requires MarketSound(m)
    ensures MarketSound(m.ConfirmAll(reports))
  {
    if reports == [] {
    } else {
      var n := |reports| - 1;
      ConfirmAllKeepsSound(m, reports[..n]);
      ConfirmKeepsSound(m.ConfirmAll(reports[..n]), reports[n]);
    }
  }

  lemma RelocatedIsSound(p: Proc, locate: u16, counter: nat)
    requires Sound(p, counter)
    ensures Sound(p.(locate := locate), counter)
    ensures forall id :: SentIn(p.(locate := locate), id) <==> SentIn(p, id)
  {
  }

  lemma DirectoryKeepsSound(m: State, locate: u16, symbol: Symbol)
    requires MarketSound(m)
    ensures MarketSound(m.Directory(locate, symbol))
  {
    var i := FindSymbol(m.procs, Clean(symbol));
    if i.Some? {
      RelocatedIsSound(m.procs[i.value], locate, m.counter);
    }
  }

  lemma SoundLater(p: Proc, counter: nat, later: nat)
    requires Sound(p, counter) && counter <= later
    ensures Sound(p, later)
  {
  }

  // A new id is nobody's yet, so it leaves the ids of any two symbols apart.
  lemma NewIdKeepsApart(p: Proc, p': Proc, q: Proc, counter: nat, id: nat)
    requires FilledOnce(p, counter) && FilledOnce(q, counter)
    requires forall k :: SentIn(p', k) ==> SentIn(p, k) || k == counter
    requires !(SentIn(p, id) && SentIn(q, id))
    ensures !(SentIn(p', id) && SentIn(q, id))
  {
    if SentIn(q, id) { SentBelow(q, counter, id); }
  }

  lemma IdsStayApart(procs: seq<Proc>, i: nat, procs': seq<Proc>, counter: nat)
    requires i < |procs| == |procs'| && procs' == procs[i := procs'[i]]
    requires forall j | 0 <= j < |procs| :: FilledOnce(procs[j], counter)
    requires forall id :: SentIn(procs'[i], id) ==> SentIn(procs[i], id) || id == counter
    requires IdsApart(procs)
    ensures IdsApart(procs')
  {
    forall j, k, id | 0 <= j < k < |procs'| ensures !(SentIn(procs'[j], id) && SentIn(procs'[k], id)) {
      if j == i { NewIdKeepsApart(procs[i], procs'[i], procs[k], counter, id); }
      if k == i { NewIdKeepsApart(procs[i], procs'[i], procs[j], counter, id); }
    }
  }

  lemma DispatchOutcome(s: System, i: nat, msg: ItchMessage) returns (p': Proc, order: Option<OrderCommand>)
    requires i < |s.market.procs| && Sound(s.market.procs[i], s.market.counter) && FitsPacket(msg)
    ensures var m, m' := s.market, s.Dispatch(i, msg).market;
            && m'.procs == m.procs[i := p'] && m'.sent == Push(m.sent, order)
            && m'.counter == (if order.Some? then m.counter + 1 else m.counter)
            && Sound(p', m'.counter)
            && (order.Some? ==> order.value.orderId == m.counter)
            && (forall id :: SentIn(p', id) ==> SentIn(m.procs[i], id) || id == m.counter)
  {
    var m := s.market;
    var e := m.procs[i].Handle(msg, s.gw, m.counter, m.time);
    HandleKeepsSound(m.procs[i], msg, s.gw, m.counter, m.time);
    HandleEffect(m.procs[i], msg, s.gw, m.counter, m.time);
    p', order := e.p, e.order;
  }

  lemma DispatchKeepsSound(s: System, i: nat, msg: ItchMessage)
    requires MarketSound(s.market) && i < |s.market.procs| && FitsPacket(msg)
    ensures MarketSound(s.Dispatch(i, msg).market)
  {
    var p', order := DispatchOutcome(s, i, msg);
    MarketMoves(s.market, s.Dispatch(i, msg).market, i, p', order);
  }

  lemma MarketMoves(m: State, m': State, i: nat, p': Proc, order: Option<OrderCommand>)
    requires MarketSound(m) && i < |m.procs| && m'.procs == m.procs[i := p'] && m'.sent == Push(m.sent, order)
    requires m'.counter == if order.Some? then m.counter + 1 else m.counter
    requires Sound(p', m'.counter) && (order.Some? ==> order.value.orderId == m.counter)
    requires forall id :: SentIn(p', id) ==> SentIn(m.procs[i], id) || id == m.counter
    ensures MarketSound(m')
  {
    forall j | 0 <= j < |m.procs| ensures Sound(m'.procs[j], m'.counter) {
      if j != i { SoundLater(m.procs[j], m.counter, m'.counter); }
    }
    IdsStayApart(m.procs, i, m'.procs, m.counter);
  }

  lemma FilterKeepsSound(s: System, msg: ItchMessage)
    requires MarketSound(s.market) && FitsPacket(msg)
    ensures MarketSound(s.Filter(msg).market)
  {
    if msg.StockDirectory? {
      DirectoryKeepsSound(s.market, msg.locate, msg.symbol);
    } else if s.market.Slot(msg.locate).Some? {
      DispatchKeepsSound(s, s.market.Slot(msg.locate).value, msg);
    }
  }

  /** Soundness holds after every behaviour, whatever the gateway returns and however often. */
  lemma {:induction false} AlwaysSound(symbols: seq<Symbol>, midnight: nat, acts: seq<Action>)
    requires OnTheWire(acts)
    ensures MarketSound(Behave(NewMarket(symbols, midnight), acts))
  {
    if acts == [] {
      NewMarketIsSound(symbols, midnight);
    } else {
      var n := |acts| - 1;
      AlwaysSound(symbols, midnight, acts[..n]);
      var m := Behave(NewMarket(symbols, midnight), acts[..n]);
      match acts[n]
      case Deliver(msg, gw, time) => FilterKeepsSound(System(m.(time := time), gw), msg);
      case Reports(reports) => ConfirmAllKeepsSound(m, reports);
    }
  }

  /** The messages of a behaviour whose locate led to symbol i when they were delivered. */
  function Routed(m: State, acts: seq<Action>, i: nat): seq<ItchMessage> {
    if acts == [] then []
    else
      var n := |acts| - 1;
      Routed(m, acts[..n], i) + if LeadsTo(Behave(m, acts[..n]), acts[n], i) then [acts[n].m] else []
  }

  predicate LeadsTo(m: State, a: Action, i: nat) {
    a.Deliver? && !a.m.StockDirectory? && m.Slot(a.m.locate) == Some(i)
  }

  lemma ActExtendsFeeds(m: State, a: Action, i: nat)
    requires i < |m.procs|
    ensures i < |Act(m, a).procs|
    ensures Act(m, a).procs[i].log.feed == m.procs[i].log.feed + if LeadsTo(m, a, i) then [a.m] else []
  {
    match a
    case Reports(reports) => ConfirmAllKeepsLog(m, reports, i);
    case Deliver(msg, gw, time) =>
      var m1 := m.(time := time);
      assert m1.Slot(msg.locate) == m.Slot(msg.locate);
      if !msg.StockDirectory? && m1.Slot(msg.locate).Some? {
        HandleEffect(m1.procs[m1.Slot(msg.locate).value], msg, gw, m.counter, time);
      }
  }

  // Reports add to a symbol's log nothing but fills.
  lemma {:induction false} ConfirmAllKeepsLog(m: State, reports: seq<ExecutionReport>, i: nat)
    requires i < |m.procs|
    ensures i < |m.ConfirmAll(reports).procs|
    ensures var l := m.ConfirmAll(reports).procs[i].log; l == m.procs[i].log.(fills := l.fills)
  {
    if reports == [] {
    } else {
      ConfirmAllKeepsLog(m, reports[..|reports| - 1], i);
    }
  }

  lemma {:induction false} FeedIsRouted(symbols: seq<Symbol>, midnight: nat, acts: seq<Action>, i: nat)
    requires i < |symbols|
    ensures var m := Behave(NewMarket(symbols, midnight), acts);
            i < |m.procs| && m.procs[i].log.feed == Routed(NewMarket(symbols, midnight), acts, i)
  {
    if acts == [] {
    } else {
      var n := |acts| - 1;
      FeedIsRouted(symbols, midnight, acts[..n], i);
      ActExtendsFeeds(Behave(NewMarket(symbols, midnight), acts[..n]), acts[n], i);
    }
  }

  /** In every behaviour each symbol's book, tape and midpoint are those of the messages whose
      locate led to it when they came; so as long as these keep the level index right, its
      levels show exactly the resting and orphaned shares, and its volume is always accounted
      for. */
  lemma BooksFollowTheirFeeds(symbols: seq<Symbol>, midnight: nat, acts: seq<Action>, i: nat)
    requires OnTheWire(acts) && i < |symbols|
    ensures var m, ms := Behave(NewMarket(symbols, midnight), acts), Routed(NewMarket(symbols, midnight), acts, i);
            i < |m.procs| &&
            var p := m.procs[i];
            && p.book == Feed.BookAfter(ms) && p.tape == Feed.TapeAfter(ms) && p.strat.mid2 == LastMid(ms)
            && (Feed.AllAlong(ms, Feed.KeepsIndex) ==> BookLaws.Agrees(p.book, Feed.LedgerAfter(ms).orphans))
            && Feed.VolumeRight(p.tape, Feed.LedgerAfter(ms))
  {
    AlwaysSound(symbols, midnight, acts);
    FeedIsRouted(symbols, midnight, acts, i);
    var ms := Routed(NewMarket(symbols, midnight), acts, i);
    if Feed.AllAlong(ms, Feed.KeepsIndex) { Feed.AgreesWhileIndexKept(ms); }
    Feed.VolumeAccounts(ms);
  }

  /** Whatever reports arrive in a run, duplicated, unknown or misrouted: no order id is
      credited as a fill twice, by one symbol or by two, and none is both credited and still
      awaited. */
  lemma NoOrderFilledTwice(
    symbols: seq<Symbol>, midnight: nat, acts: seq<Action>, i: nat, a: nat, j: nat, b: nat)
    requires OnTheWire(acts)
    requires var m := Behave(NewMarket(symbols, midnight), acts);
             i < |m.procs| && j < |m.procs| && a < |m.procs[i].log.fills| && b < |m.procs[j].log.fills|
    ensures var m := Behave(NewMarket(symbols, midnight), acts);
            && (m.procs[i].log.fills[a] == m.procs[j].log.fills[b] ==> i == j && a == b)
            && m.procs[i].log.fills[a] !in m.procs[j].tracker
            && m.procs[i].log.fills[a] < m.counter
  {
    AlwaysSound(symbols, midnight, acts);
    FilledOnceOverall(Behave(NewMarket(symbols, midnight), acts), i, a, j, b);
  }

  lemma FilledOnceOverall(m: State, i: nat, a: nat, j: nat, b: nat)
    requires MarketSound(m) && i < |m.procs| && j < |m.procs|
    requires a < |m.procs[i].log.fills| && b < |m.procs[j].log.fills|
    ensures m.procs[i].log.fills[a] == m.procs[j].log.fills[b] ==> i == j && a == b
    ensures m.procs[i].log.fills[a] !in m.procs[j].tracker
    ensures m.procs[i].log.fills[a] < m.counter
  {
    var id := m.procs[i].log.fills[a];
    assert SentIn(m.procs[i], id) && SentIn(m.procs[j], m.procs[j].log.fills[b]);
    SentBelow(m.procs[i], m.counter, id);
    if i < j { assert !SentIn(m.procs[j], id); }
    if j < i { assert !SentIn(m.procs[j], id); }
  }

  /** In a run, ids awaited by different symbols differ, and all are below the counter. */
  lemma TrackersDisjoint(symbols: seq<Symbol>, midnight: nat, acts: seq<Action>, i: nat, j: nat, id: nat)
    requires OnTheWire(acts)
    requires var m := Behave(NewMarket(symbols, midnight), acts); i < j < |m.procs| && id in m.procs[i].tracker
    ensures var m := Behave(NewMarket(symbols, midnight), acts); id !in m.procs[j].tracker && id < m.counter
  {
    AlwaysSound(symbols, midnight, acts);
    var m := Behave(NewMarket(symbols, midnight), acts);
    SentBelow(m.procs[i], m.counter, id);
    assert !(SentIn(m.procs[i], id) && SentIn(m.procs[j], id));
  }

  lemma AnswerIsExpected(
    symbols: seq<Symbol>, midnight: nat, acts: seq<Action>, i: nat, msg: ItchMessage, id: nat)
    requires OnTheWire(acts) && FitsPacket(msg) && i < |symbols|
    ensures var m := Behave(NewMarket(symbols, midnight), acts);
            i < |m.procs| &&
            var p, ms := m.procs[i], Routed(NewMarket(symbols, midnight), acts, i);
            var b := Feed.BookAfter(ms + [msg]);
            && SmallPrices(b)
            && p.Absorb(msg).Decide(id).1
            == Expected(b, LastMid(ms), p.strat.position, p.limits.position, p.locate, id)
  {
    AlwaysSound(symbols, midnight, acts);
    FeedIsRouted(symbols, midnight, acts, i);
    var p := Behave(NewMarket(symbols, midnight), acts).procs[i];
    Feed.AfterOneMore(p.log.feed, msg);
    SendsExactlyWhen(p, msg, id);
  }

  /** What the market sends when an action leads to symbol i. */
  lemma ActSends(m: State, a: Action, i: nat)
    requires LeadsTo(m, a, i)
    ensures Act(m, a).sent == Push(m.sent, m.procs[i].Absorb(a.m).Decide(m.counter).1)
  {
    var m1 := m.(time := a.time);
    assert m1.Slot(a.m.locate) == m.Slot(a.m.locate);
    HandleEffect(m1.procs[i], a.m, a.gw, m.counter, a.time);
  }

  lemma ActElsewhereSendsNothing(m: State, a: Action)
    requires forall i: nat :: !LeadsTo(m, a, i)
    ensures Act(m, a).sent == m.sent
  {
    match a
    case Reports(reports) => ConfirmAllSends(m, reports);
    case Deliver(msg, gw, time) =>
      assert m.(time := time).Slot(msg.locate) == m.Slot(msg.locate);
      if !msg.StockDirectory? && m.Slot(msg.locate).Some? {
        assert LeadsTo(m, a, m.Slot(msg.locate).value);
      }
  }

  lemma {:induction false} ConfirmAllSends(m: State, reports: seq<ExecutionReport>)
    ensures m.ConfirmAll(reports).sent == m.sent && m.ConfirmAll(reports).counter == m.counter
    ensures m.ConfirmAll(reports).telemetry == m.telemetry
  {
    if reports == [] {
    } else {
      ConfirmAllSends(m, reports[..|reports| - 1]);
    }
  }

  /** Whatever happened before, the market answers a message with exactly the order expected of
      the symbol its locate leads to, under the next id; in particular it sends only if the
      book is two-sided and its midpoint is not the one of the last two-sided book the messages
      routed there left. */
  lemma EveryOrderIsExpected(symbols: seq<Symbol>, midnight: nat, acts: seq<Action>, i: nat, a: Action)
    requires OnTheWire(acts) && OnTheWire([a])
    requires i < |symbols| && LeadsTo(Behave(NewMarket(symbols, midnight), acts), a, i)
    ensures var m := Behave(NewMarket(symbols, midnight), acts);
            i < |m.procs| &&
            var p, ms := m.procs[i], Routed(NewMarket(symbols, midnight), acts, i);
            var b := Feed.BookAfter(ms + [a.m]);
            SmallPrices(b) &&
            var order := Expected(b, LastMid(ms), p.strat.position, p.limits.position, p.locate, m.counter);
            && Act(m, a).sent == Push(m.sent, order)
            && (order.Some? ==> TwoSided(b) && Mid2(b) != LastMid(ms))
  {
    var m := Behave(NewMarket(symbols, midnight), acts);
    assert [a][0] == a;
    AnswerIsExpected(symbols, midnight, acts, i, a.m, m.counter);
    ActSends(m, a, i);
  }

  /** The order the reports of an echoing gateway are about. */
  predicate IsEcho(m: State, r: ExecutionReport) {
    r.orderId < |m.sent| && r == Echo(m.sent[r.orderId])
  }

  predicate Echoing(m: State, acts: seq<Action>) {
    forall k | 0 <= k < |acts| && acts[k].Reports? ::
      forall r | r in acts[k].reports :: IsEcho(Behave(m, acts[..k]), r)
  }

  /** The strategy's position counts the shares filled, bought or sold alike, as an i32. */
  predicate PositionCountsFills(m: State) {
    && (forall k | 0 <= k < |m.sent| :: m.sent[k].quantity == ORDER_QUANTITY)
    && forall i | 0 <= i < |m.procs| ::
         m.procs[i].strat.position == WrapI32(100 * |m.procs[i].log.fills|)
  }

  lemma WrapAdds(x: int, q: u32)
    ensures WrapI32(WrapI32(x) + AsI32(q)) == WrapI32(x + q)
  {
  }

  lemma ConfirmCounts(m: State, r: ExecutionReport)
    requires PositionCountsFills(m) && IsEcho(m, r)
    ensures PositionCountsFills(m.Confirm(r)) && m.Confirm(r).sent == m.sent
  {
    var slot := m.Slot(r.locate);
    if slot.Some? {
      WrapAdds(100 * |m.procs[slot.value].log.fills|, r.lastQty);
    }
  }

  lemma {:induction false} ConfirmAllCounts(m: State, reports: seq<ExecutionReport>)
    requires PositionCountsFills(m) && forall r | r in reports :: IsEcho(m, r)
    ensures PositionCountsFills(m.ConfirmAll(reports)) && m.ConfirmAll(reports).sent == m.sent
  {
    if reports == [] {
    } else {
      var n := |reports| - 1;
      ConfirmAllCounts(m, reports[..n]);
      assert IsEcho(m, reports[n]);
      ConfirmCounts(m.ConfirmAll(reports[..n]), reports[n]);
    }
  }

  lemma FilterCounts(s: System, msg: ItchMessage)
    requires PositionCountsFills(s.market)
    ensures PositionCountsFills(s.Filter(msg).market)
  {
    if !msg.StockDirectory? && s.market.Slot(msg.locate).Some? {
      var i := s.market.Slot(msg.locate).value;
      HandleEffect(s.market.procs[i], msg, s.gw, s.market.counter, s.market.time);
    }
  }

  /** With a gateway that only echoes sent orders, late, repeated or never, the filled shares
      plus the awaited ones are all the shares each symbol sent. */
  lemma {:induction false} PositionPlusAwaitedIsSent(symbols: seq<Symbol>, midnight: nat, acts: seq<Action>, i: nat)
    requires OnTheWire(acts) && Echoing(NewMarket(symbols, midnight), acts) && i < |symbols|
    ensures var m := Behave(NewMarket(symbols, midnight), acts);
            && PositionCountsFills(m) && |m.procs| == |symbols|
            && m.procs[i].strat.position == WrapI32(100 * (|m.procs[i].log.sent| - |m.procs[i].tracker|))
            && ((forall k | 0 <= k < |m.procs[i].log.sent| :: m.procs[i].log.sent[k].side == Buy) ==>
                  m.procs[i].limits.position == 100 * |m.procs[i].log.sent|)
  {
    CountsAlways(symbols, midnight, acts);
    AlwaysSound(symbols, midnight, acts);
    AllBuys(Behave(NewMarket(symbols, midnight), acts).procs[i].log.sent);
  }

  lemma {:induction false} AllBuys(sent: seq<OrderCommand>)
    ensures (forall k | 0 <= k < |sent| :: sent[k].side == Buy && sent[k].quantity == ORDER_QUANTITY) ==>
              SumSeq(sent, SIGNED) == 100 * |sent|
  {
    if sent == [] {
    } else {
      AllBuys(sent[..|sent| - 1]);
    }
  }

  lemma {:induction false} CountsAlways(symbols: seq<Symbol>, midnight: nat, acts: seq<Action>)
    requires Echoing(NewMarket(symbols, midnight), acts)
    ensures var m := Behave(NewMarket(symbols, midnight), acts); PositionCountsFills(m) && |m.procs| == |symbols|
  {
    if acts == [] {
    } else {
      var n := |acts| - 1;
      var m0, front := NewMarket(symbols, midnight), acts[..n];
      assert forall k | 0 <= k < n :: front[..k] == acts[..k];
      CountsAlways(symbols, midnight, front);
      ActCounts(Behave(m0, front), acts[n]);
    }
  }

  lemma ActCounts(m: State, a: Action)
    requires PositionCountsFills(m)
    requires a.Reports? ==> forall r | r in a.reports :: IsEcho(m, r)
    ensures PositionCountsFills(Act(m, a)) && |Act(m, a).procs| == |m.procs|
  {
    match a
    case Deliver(msg, gw, time) => FilterCounts(System(m.(time := time), gw), msg);
    case Reports(reports) =>
      ConfirmAllCounts(m, reports);
      ConfirmAllSize(m, reports);
  }

  lemma {:induction false} ConfirmAllSize(m: State, reports: seq<ExecutionReport>)
    ensures |m.ConfirmAll(reports).procs| == |m.procs|
    ensures m.ConfirmAll(reports).lookup == m.lookup
  {
    if reports == [] {
    } else {
      ConfirmAllSize(m, reports[..|reports| - 1]);
    }
  }

  lemma {:induction false} CleanKeeps(symbol: Symbol)
    requires Trim(symbol) == symbol
    requires symbol != [] ==> symbol[0] != 0 && symbol[|symbol| - 1] != 0
    ensures Clean(symbol) == symbol
  {
    assert TrimLeft(symbol, IsNul) == symbol && TrimRight(symbol, IsNul) == symbol;
  }

  lemma DirectoryMaps(m: State, locate: u16, symbol: Symbol, i: nat, l: u16)
    requires |m.lookup| == LOCATES && FindSymbol(m.procs, Clean(symbol)) == Some(i)
    ensures var m' := m.Directory(locate, symbol);
            && m'.Slot(l) == (if l == locate then Some(i) else m.Slot(l))
            && i < |m'.procs| && m'.procs[i].locate == locate
  {
  }

  lemma DirectoryPacketIs(s: System, locate: u16, symbol: Symbol)
    requires |symbol| <= 8 && Trim(symbol) == symbol && s.gw.pending == []
    ensures var data := Print(StockDirectory(locate, symbol));
            |data| >= 11 && s.Packet(data) ==
              (s.Tick(data).(market := s.Tick(data).market.Directory(locate, symbol)), true)
  {
    DirectoryRoundTrip(locate, symbol);
    var s2 := s.Tick(Print(StockDirectory(locate, symbol))).Filter(StockDirectory(locate, symbol));
    assert s2.Drain() == s2;
  }

  /** A printed directory packet for a target symbol sends its locate to the first symbol of
      that name, and leaves every other locate where it was. */
  lemma DirectoryPacketMaps(s: System, locate: u16, symbol: Symbol, i: nat, l: u16)
    requires |s.market.lookup| == LOCATES && s.gw.pending == []
    requires |symbol| <= 8 && Trim(symbol) == symbol
    requires symbol != [] ==> symbol[0] != 0 && symbol[|symbol| - 1] != 0
    requires FindSymbol(s.market.procs, symbol) == Some(i)
    ensures var (s', alive) := s.Packet(Print(StockDirectory(locate, symbol)));
            && alive && s'.market.Slot(l) == (if l == locate then Some(i) else s.market.Slot(l))
            && i < |s'.market.procs| && s'.market.procs[i].locate == locate
  {
    DirectoryPacketIs(s, locate, symbol);
    CleanKeeps(symbol);
    var m := s.Tick(Print(StockDirectory(locate, symbol))).market;
    DirectoryMaps(m, locate, symbol, i, l);
    assert m.Slot(l) == s.market.Slot(l);
  }
}
