/** The market state: symbol processors, the locate table that routes messages to them, the
    shared order counter; and the replay engine that feeds it a file of packets. */
module Market {
  import opened Common
  import opened Bytes
  import opened Itch
  import opened Gateway
  import opened Processor
  import Framing

  const LOCATES := 65536
  // Above this many processors an index no longer fits the i16 table.
  const MAX_PROCESSORS := 32768

  /** The market as a value; the specification of MarketState below. */
  datatype State = State(
    procs: seq<Proc>, lookup: seq<int>, counter: nat, time: nat, midnight: nat,
    telemetry: seq<TelemetryPayload>, sent: seq<OrderCommand>)
  {
    /** The processor that messages and fills with this locate go to. */
    function Slot(locate: u16): Option<nat> {
      if locate < |lookup| && 0 <= lookup[locate] < |procs| then Some(lookup[locate]) else None
    }

    function Directory(locate: u16, symbol: Symbol): State {
      var i := FindSymbol(procs, Clean(symbol));
      if i.None? || locate >= |lookup| then this
      else this.(procs := procs[i.value := procs[i.value].(locate := locate)],
                 lookup := lookup[locate := i.value])
    }

    /** One execution report, from any gateway. */
    function Confirm(r: ExecutionReport): State {
      match Slot(r.locate)
      case None => this
      case Some(i) =>
        if r.orderId in procs[i].tracker then this.(procs := procs[i := procs[i].Fill(r)]) else this
    }

    function ConfirmAll(reports: seq<ExecutionReport>): State {
      if reports == [] then this
      else ConfirmAll(reports[..|reports| - 1]).Confirm(reports[|reports| - 1])
    }
  }

  /** The market together with the gateway it trades through. */
  datatype System = System(market: State, gw: Account) {

    function Filter(m: ItchMessage): System {
      if m.StockDirectory? then this.(market := market.Directory(m.locate, m.symbol))
      else
        match market.Slot(m.locate)
        case None => this
        case Some(i) => Dispatch(i, m)
    }

    function Dispatch(i: nat, m: ItchMessage): System
      requires i < |market.procs|
    {
      var e := market.procs[i].Handle(m, gw, market.counter, market.time);
      System(
        market.(procs := market.procs[i := e.p],
                counter := if e.order.Some? then market.counter + 1 else market.counter,
                telemetry := Push(market.telemetry, e.payload),
                sent := Push(market.sent, e.order)),
        e.gw)
    }

    /** The market polls until the gateway has no more reports. */
    function Drain(): System {
      System(market.ConfirmAll(gw.pending), gw.(pending := []))
    }

    /** The clock follows the packet's nanoseconds since midnight. */
    function Tick(data: seq<u8>): System
      requires |data| >= 11
    {
      this.(market := market.(time := market.midnight + FromBE(data[5..11])))
    }

    /** A raw packet; false when a slice past its end stops the process. */
    function Packet(data: seq<u8>): (System, bool) {
      if |data| < 11 then (this, false)
      else
        var s := Tick(data);
        match Parse(data)
        case Panicked => (s, false)
        case Ignored => (s.Drain(), true)
        case Parsed(m) => (s.Filter(m).Drain(), true)
    }

    /** Packets in order, up to the one that stops the process. */
    function Packets(packets: seq<seq<u8>>): (System, bool) {
      if packets == [] then (this, true)
      else
        var (s, alive) := Packets(packets[..|packets| - 1]);
        if alive then s.Packet(packets[|packets| - 1]) else (s, false)
    }
  }

  predicate IsNul(b: u8) {
    b == 0
  }

  function Clean(symbol: Symbol): Symbol {
    Trim(TrimRight(TrimLeft(symbol, IsNul), IsNul))
  }

  function FindSymbol(procs: seq<Proc>, symbol: Symbol): (i: Option<nat>)
    ensures i.None? ==> forall k | 0 <= k < |procs| :: procs[k].symbol != symbol
    ensures i.Some? ==> i.value < |procs| && procs[i.value].symbol == symbol
    ensures i.Some? ==> forall k | 0 <= k < i.value :: procs[k].symbol != symbol
  {
    if procs == [] then None
    else if procs[0].symbol == symbol then Some(0)
    else
      var i := FindSymbol(procs[1..], symbol);
      if i.None? then None
      else
        assert forall k | 1 <= k < i.value + 1 :: procs[k] == procs[1..][k - 1];
        Some(i.value + 1)
  }

  function NewMarket(symbols: seq<Symbol>, midnight: nat): State {
    State(seq(|symbols|, i requires 0 <= i < |symbols| => NewProc(symbols[i])),
          seq(LOCATES, _ => -1), 0, 0, midnight, [], [])
  }

  function Start(symbols: seq<Symbol>, midnight: nat): System {
    System(NewMarket(symbols, midnight), EMPTY_ACCOUNT)
  }

  lemma ConfirmAllPush(m: State, reports: seq<ExecutionReport>, k: nat)
    requires k < |reports|
    ensures m.ConfirmAll(reports[..k + 1]) == m.ConfirmAll(reports[..k]).Confirm(reports[k])
  {
    assert reports[..k + 1][..k] == reports[..k];
  }

  lemma OneReport(m: State, r: ExecutionReport)
    ensures m.ConfirmAll([r]) == m.Confirm(r)
  {
    assert [r][..0] == [];
  }

  lemma PacketsPush(s: System, packets: seq<seq<u8>>, p: seq<u8>)
    ensures s.Packets(packets + [p]) ==
            if s.Packets(packets).1 then s.Packets(packets).0.Packet(p) else s.Packets(packets)
  {
    assert (packets + [p])[..|packets|] == packets;
  }

  // A stopped process takes no further packets.
  lemma {:induction false} PacketsStopped(s: System, packets: seq<seq<u8>>, more: seq<seq<u8>>)
    requires !s.Packets(packets).1
    ensures s.Packets(packets + more) == s.Packets(packets)
  {
    if more == [] {
      assert packets + more == packets;
    } else {
      var n := |more| - 1;
      PacketsStopped(s, packets, more[..n]);
      assert packets + more == (packets + more[..n]) + [more[n]];
      PacketsPush(s, packets + more[..n], more[n]);
    }
  }

  /** A run goes on from where its first packets left it. */
  lemma {:induction false} PacketsOn(s: System, packets: seq<seq<u8>>, later: seq<seq<u8>>)
    requires s.Packets(packets).1
    ensures s.Packets(packets + later) == s.Packets(packets).0.Packets(later)
  {
    if later == [] {
      assert packets + later == packets;
    } else {
      var front, p := later[..|later| - 1], later[|later| - 1];
      PacketsOn(s, packets, front);
      SplitLast(packets, later);
      PacketsPush(s, packets + front, p);
      PacketsPush(s.Packets(packets).0, front, p);
    }
  }

  lemma SplitLast<T>(a: seq<T>, b: seq<T>)
    requires b != []
    ensures b == b[..|b| - 1] + [b[|b| - 1]] && a + b == (a + b[..|b| - 1]) + [b[|b| - 1]]
  {
  }

  class MarketState {
    const processors: seq<SymbolProcessor>
    const lookupTable: array<int>
    var globalOrderId: nat
    const writer: AnalyticsWriter
    var currentTime: nat
    const midnight: nat
    ghost var sent: seq<OrderCommand>
    ghost const parts: set<object>

    /** The processors and everything they own lie in `parts`, and share nothing. */
    ghost predicate Wired() {
      && this !in parts && lookupTable !in parts && writer !in parts
      && (forall i | 0 <= i < |processors| :: processors[i].Repr() <= parts)
      && (forall i, j | 0 <= i < j < |processors| :: processors[i].Apart(processors[j]))
    }

    ghost predicate Valid()
      reads lookupTable
    {
      && Wired()
      && lookupTable.Length == LOCATES
      && (forall l | 0 <= l < LOCATES :: -1 <= lookupTable[l] < |processors|)
    }

    ghost function Repr(): set<object> {
      {this, lookupTable, writer} + parts
    }

    ghost function View(): State
      requires Wired()
      reads Repr()
    {
      State(ProcViews(), lookupTable[..], globalOrderId, currentTime, midnight, writer.messages, sent)
    }

    ghost function ProcViews(): seq<Proc>
      requires Wired()
      reads parts
    {
      seq(|processors|, i requires 0 <= i < |processors| reads parts => processors[i].View())
    }

    ghost function With(gateway: ReplayGateway): System
      requires Wired()
      reads Repr(), gateway
    {
      System(View(), gateway.View())
    }

    constructor (symbols: seq<Symbol>, midnight: nat)
      requires |symbols| <= MAX_PROCESSORS
      ensures Valid() && fresh(Repr())
      ensures View() == NewMarket(symbols, midnight)
    {
      var ps: seq<SymbolProcessor> := [];
      ghost var owned: set<object> := {};
      for i := 0 to |symbols|
        invariant |ps| == i
        invariant fresh(owned)
        invariant forall k | 0 <= k < i :: ps[k].Repr() <= owned && ps[k].View() == NewProc(symbols[k])
        invariant forall j, k | 0 <= j < k < i :: ps[j].Apart(ps[k])
      {
        var p := new SymbolProcessor(symbols[i]);
        ps := ps + [p];
        owned := owned + p.Repr();
      }
      processors, parts := ps, owned;
      lookupTable := new int[LOCATES](_ => -1);
      globalOrderId, currentTime, this.midnight := 0, 0, midnight;
      writer := new AnalyticsWriter();
      sent := [];
      new;
      assert lookupTable[..] == seq(LOCATES, _ => -1);
      assert ProcViews() == NewMarket(symbols, midnight).procs;
    }

    method FindProcessor(symbol: Symbol) returns (i: nat)
      requires Wired()
      ensures i <= |processors|
      ensures FindSymbol(ProcViews(), symbol) == if i < |processors| then Some(i) else None
    {
      i := 0;
      while i < |processors| && processors[i].symbol != symbol
        invariant i <= |processors|
        invariant forall k | 0 <= k < i :: processors[k].symbol != symbol
      {
        i := i + 1;
      }
      assert forall k | 0 <= k < |processors| :: ProcViews()[k].symbol == processors[k].symbol;
    }

    method HandleStockDirectory(locate: u16, symbol: Symbol)
      requires Valid()
      modifies Repr()
      ensures Valid() && View() == old(View()).Directory(locate, symbol)
    {
      var i := FindProcessor(Clean(symbol));
      if i < |processors| {
        Assign(i, locate);
        assert lookupTable[..] == old(lookupTable[..])[locate := i];
      }
    }

    method Assign(i: nat, locate: u16)
      requires Valid() && i < |processors|
      modifies Repr()
      ensures Valid()
      ensures ProcViews() == old(ProcViews())[i := old(ProcViews())[i].(locate := locate)]
      ensures lookupTable[..] == old(lookupTable[..])[locate := i]
      ensures unchanged(this) && unchanged(writer)
    {
      assert processors[i] in processors[i].Repr();
      processors[i].stockLocate := locate;
      lookupTable[locate] := i;
      OnlyOneChanged(i);
    }

    // Only the parts of one processor changed.
    twostate lemma OnlyOneChanged(i: nat)
      requires Wired() && i < |processors|
      requires forall o | o in parts && o !in processors[i].Repr() :: unchanged(o)
      ensures ProcViews() == old(ProcViews())[i := processors[i].View()]
    {
      forall k | 0 <= k < |processors| && k != i
        ensures processors[k].View() == old(processors[k].View())
      {
        forall o | o in processors[k].Repr() ensures o in parts && o !in processors[i].Repr() {}
      }
    }

    /** Takes every report the gateway holds, whatever reports those are. */
    method PollConfirmedOrders(gateway: ReplayGateway)
      requires Valid() && gateway !in Repr()
      modifies Repr(), gateway
      ensures Valid() && With(gateway) == old(With(gateway)).Drain()
    {
      ghost var reports := gateway.pendingFills;
      ghost var done: nat := 0;
      var report := gateway.PollConfirmedOrders();
      while report.Some?
        invariant Valid()
        invariant done <= |reports|
        invariant report == if done < |reports| then Some(reports[done]) else None
        invariant gateway.pendingFills == if done < |reports| then reports[done + 1..] else []
        invariant View() == old(View()).ConfirmAll(reports[..done])
        invariant gateway.View() == old(gateway.View()).(pending := gateway.pendingFills)
        decreases |reports| - done
      {
        ConfirmOne(report.value);
        ConfirmAllPush(old(View()), reports, done);
        done := done + 1;
        report := gateway.PollConfirmedOrders();
      }
      assert reports[..done] == reports;
    }

    method ConfirmOne(r: ExecutionReport)
      requires Valid()
      modifies Repr()
      ensures Valid() && View() == old(View()).Confirm(r)
    {
      var slot := lookupTable[r.locate];
      assert View().Slot(r.locate) == if slot == -1 then None else Some(slot);
      if slot != -1 {
        assert processors[slot].Repr() <= parts;
        processors[slot].ConfirmFill(r);
        OnlyOneChanged(slot);
        assert View().procs == old(View()).Confirm(r).procs;
      }
    }

    method FilterMessage(m: ItchMessage, gateway: ReplayGateway)
      requires Valid() && gateway !in Repr()
      modifies Repr(), gateway
      ensures Valid() && With(gateway) == old(With(gateway)).Filter(m)
    {
      if m.StockDirectory? {
        HandleStockDirectory(m.locate, m.symbol);
      } else {
        var slot := lookupTable[m.locate];
        assert View().Slot(m.locate) == if slot == -1 then None else Some(slot);
        if slot != -1 {
          Dispatch(slot, m, gateway);
        }
      }
    }

    method Dispatch(i: nat, m: ItchMessage, gateway: ReplayGateway)
      requires Valid() && gateway !in Repr() && i < |processors|
      modifies Repr(), gateway
      ensures Valid() && With(gateway) == old(With(gateway)).Dispatch(i, m)
    {
      assert processors[i].Repr() <= parts;
      ghost var order := Route(i, m, gateway);
      sent := Push(sent, order);
      assert ProcViews() == old(With(gateway)).Dispatch(i, m).market.procs;
    }

    method Route(i: nat, m: ItchMessage, gateway: ReplayGateway) returns (ghost order: Option<OrderCommand>)
      requires Valid() && gateway !in Repr() && i < |processors|
      modifies Repr(), gateway
      ensures Valid() && sent == old(sent) && currentTime == old(currentTime) && lookupTable[..] == old(lookupTable[..])
      ensures var e := old(ProcViews())[i].Handle(m, old(gateway.View()), old(globalOrderId), currentTime);
              && ProcViews() == old(ProcViews())[i := e.p]
              && gateway.View() == e.gw && order == e.order
              && globalOrderId == (if e.order.Some? then old(globalOrderId) + 1 else old(globalOrderId))
              && writer.messages == Push(old(writer.messages), e.payload)
    {
      assert processors[i].Repr() <= parts;
      globalOrderId, order := processors[i].HandleEvent(m, writer, gateway, globalOrderId, currentTime);
      OnlyOneChanged(i);
    }

    method SetTime(now: nat)
      requires Valid()
      modifies this
      ensures Valid() && View() == old(View()).(time := now)
    {
      currentTime := now;
      assert ProcViews() == old(ProcViews());
    }

    method HandleRawPacket(data: seq<u8>, gateway: ReplayGateway) returns (alive: bool)
      requires Valid() && gateway !in Repr()
      modifies Repr(), gateway
      ensures Valid() && (With(gateway), alive) == old(With(gateway)).Packet(data)
    {
      if |data| < 11 {
        return false;
      }
      SetTime(midnight + FromBE(data[5..11]));
      var parsed := Parse(data);
      match parsed {
        case Panicked =>
          return false;
        case Parsed(m) =>
          FilterMessage(m, gateway);
        case Ignored =>
      }
      PollConfirmedOrders(gateway);
      return true;
    }

    method ReplayOne(data: seq<u8>, gateway: ReplayGateway, ghost begin: System, ghost packets: seq<seq<u8>>, ghost k: nat)
      returns (alive: bool)
      requires Valid() && gateway !in Repr()
      requires k < |packets| && data == packets[k]
      requires (With(gateway), true) == begin.Packets(packets[..k])
      modifies Repr(), gateway
      ensures Valid() && (With(gateway), alive) == begin.Packets(packets[..k + 1])
    {
      PacketsStep(begin, packets, k);
      alive := HandleRawPacket(data, gateway);
    }

    /** The replay engine's main loop over a length-prefixed file. */
    method Replay(file: seq<u8>, gateway: ReplayGateway) returns (alive: bool)
      requires Valid() && gateway !in Repr()
      modifies Repr(), gateway
      ensures Valid()
      ensures (With(gateway), alive) == old(With(gateway)).Packets(Framing.Frames(file))
    {
      ghost var begin, frames, done := With(gateway), Framing.Frames(file), 0;
      var cursor := 0;
      alive := true;
      assert Aligned(file, 0, frames, 0) by { assert file[0..] == file; }
      while alive && cursor + 2 < |file|
        invariant 0 <= cursor <= |file| && 0 <= done <= |frames|
        invariant Valid()
        invariant Aligned(file, cursor, frames, done)
        invariant (With(gateway), alive) == begin.Packets(frames[..done])
      {
        var end := cursor + 2 + FromBE([file[cursor], file[cursor + 1]]);
        NextFrame(file, cursor, frames, done, end);
        if end > |file| {
          break;
        }
        assert Aligned(file, end, frames, done + 1);
        var payload := file[cursor + 2..end];
        alive := ReplayOne(payload, gateway, begin, frames, done);
        done := done + 1;
        cursor := end;
      }
      if alive && cursor + 2 >= |file| {
        NoFrameLeft(file, cursor, frames, done);
      }
      PacketsAll(begin, frames, done);
    }
  }

  lemma PacketsAll(s: System, packets: seq<seq<u8>>, k: nat)
    requires k <= |packets|
    requires k == |packets| || !s.Packets(packets[..k]).1
    ensures s.Packets(packets) == s.Packets(packets[..k])
  {
    assert packets == packets[..k] + packets[k..];
    if k < |packets| {
      PacketsStopped(s, packets[..k], packets[k..]);
    } else {
      assert packets[..k] == packets;
    }
  }

  lemma PacketsStep(s: System, packets: seq<seq<u8>>, k: nat)
    requires k < |packets| && s.Packets(packets[..k]).1
    ensures s.Packets(packets[..k + 1]) == s.Packets(packets[..k]).0.Packet(packets[k])
  {
    assert packets[..k + 1][..k] == packets[..k];
  }

  /** The frames from `done` on are those of the file from `cursor` on. */
  ghost predicate Aligned(file: seq<u8>, cursor: nat, frames: seq<seq<u8>>, done: nat) {
    cursor <= |file| && done <= |frames| && Framing.Frames(file[cursor..]) == frames[done..]
  }

  lemma NoFrameLeft(file: seq<u8>, cursor: nat, frames: seq<seq<u8>>, done: nat)
    requires cursor <= |file| <= cursor + 2 && done <= |frames|
    requires Aligned(file, cursor, frames, done)
    ensures done == |frames|
  {
    assert |frames[done..]| == 0;
  }

  // The loop's cursor reads the next of the file's frames.
  lemma NextFrame(file: seq<u8>, cursor: nat, frames: seq<seq<u8>>, done: nat, end: nat)
    requires cursor + 2 < |file| && done <= |frames|
    requires Aligned(file, cursor, frames, done)
    requires end == cursor + 2 + FromBE([file[cursor], file[cursor + 1]])
    ensures end > |file| ==> done == |frames|
    ensures end <= |file| ==> done < |frames| && frames[done] == file[cursor + 2..end]
    ensures end <= |file| ==> Aligned(file, end, frames, done + 1)
  {
    var rest, len := file[cursor..], FromBE([file[cursor], file[cursor + 1]]);
    assert rest[0..2] == [file[cursor], file[cursor + 1]];
    if cursor + 2 + len <= |file| {
      assert rest[2..2 + len] == file[cursor + 2..cursor + 2 + len];
      assert rest[2 + len..] == file[cursor + 2 + len..];
      assert frames[done..][0] == frames[done];
      assert frames[done..][1..] == frames[done + 1..];
    } else {
      assert |frames[done..]| == 0;
    }
  }
}
