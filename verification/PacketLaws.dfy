/** What a raw packet does to a replay run, told from its bytes: the clock, the packets passed
    over, the packet that stops the process, and the symbol a directory entry names. */
module PacketLaws {
  import opened Common
  import opened Bytes
  import opened Itch
  import opened ItchFormat
  import opened Processor
  import opened ProcessorLaws
  import opened Market
  import opened MarketLaws
  import Framing

  // Reports and messages leave midnight and the clock alone.
  lemma {:induction false} ConfirmAllKeepsClock(m: State, reports: seq<ExecutionReport>)
    ensures m.ConfirmAll(reports).time == m.time && m.ConfirmAll(reports).midnight == m.midnight
  {
    if reports == [] {
    } else {
      ConfirmAllKeepsClock(m, reports[..|reports| - 1]);
    }
  }

  lemma FilterKeepsClock(s: System, m: ItchMessage)
    ensures s.Filter(m).market.time == s.market.time && s.Filter(m).market.midnight == s.market.midnight
  {
  }

  lemma PacketSetsClock(s: System, data: seq<u8>)
    requires |data| >= 11
    ensures s.Packet(data).0.market.time == s.market.midnight + Word(data, 5, 6)
    ensures s.Packet(data).0.market.midnight == s.market.midnight
  {
    BigEndian(data, 5, 6);
    var s1 := s.Tick(data);
    match Parse(data)
    case Panicked =>
    case Ignored => ConfirmAllKeepsClock(s1.market, s1.gw.pending);
    case Parsed(m) =>
      FilterKeepsClock(s1, m);
      ConfirmAllKeepsClock(s1.Filter(m).market, s1.Filter(m).gw.pending);
  }

  lemma {:induction false} MidnightStays(s: System, packets: seq<seq<u8>>)
    ensures s.Packets(packets).0.market.midnight == s.market.midnight
  {
    if packets == [] {
    } else {
      var n := |packets| - 1;
      MidnightStays(s, packets[..n]);
      if |packets[n]| >= 11 { PacketSetsClock(s.Packets(packets[..n]).0, packets[n]); }
    }
  }

  lemma FilterStampsRecord(s: System, m: ItchMessage)
    ensures var before, after := s.market.telemetry, s.Filter(m).market.telemetry;
            after == before || exists t :: after == before + [t] && t.timestamp == s.market.time
  {
    if !m.StockDirectory? && s.market.Slot(m.locate).Some? {
      var i := s.market.Slot(m.locate).value;
      DecideEffect(s.market.procs[i].Absorb(m), s.market.counter);
      var e := s.market.procs[i].Handle(m, s.gw, s.market.counter, s.market.time);
      assert s.Filter(m).market.telemetry == Push(s.market.telemetry, e.payload);
    }
  }

  lemma PacketStampsRecord(s: System, data: seq<u8>)
    requires |data| >= 11
    ensures var before, after := s.market.telemetry, s.Packet(data).0.market.telemetry;
            after == before ||
            exists t :: after == before + [t] && t.timestamp == s.market.midnight + Word(data, 5, 6)
  {
    BigEndian(data, 5, 6);
    var s1 := s.Tick(data);
    match Parse(data)
    case Panicked =>
    case Ignored => ConfirmAllSends(s1.market, s1.gw.pending);
    case Parsed(m) =>
      FilterStampsRecord(s1, m);
      ConfirmAllSends(s1.Filter(m).market, s1.Filter(m).gw.pending);
  }

  /** After any packets, a further one sets the clock to midnight plus the six-byte timestamp it
      carries, and a record it adds bears that time. */
  lemma ClockIsStamped(symbols: seq<Symbol>, midnight: nat, packets: seq<seq<u8>>, data: seq<u8>)
    requires Start(symbols, midnight).Packets(packets).1 && |data| >= 11
    ensures var m, m' := Start(symbols, midnight).Packets(packets).0.market,
                         Start(symbols, midnight).Packets(packets + [data]).0.market;
            && Start(symbols, midnight).market.time == 0 && m'.time == midnight + Word(data, 5, 6)
            && (m'.telemetry == m.telemetry ||
                exists t :: m'.telemetry == m.telemetry + [t] && t.timestamp == midnight + Word(data, 5, 6))
  {
    var s := Start(symbols, midnight);
    PacketsPush(s, packets, data);
    MidnightStays(s, packets);
    PacketSetsClock(s.Packets(packets).0, data);
    PacketStampsRecord(s.Packets(packets).0, data);
  }

  // The parser does not look at the timestamp.
  lemma StampedParses(packet: seq<u8>, t: nat)
    requires |packet| >= 11
    ensures Parse(Stamped(packet, t)) == Parse(packet)
  {
    var data := Stamped(packet, t);
    assert data[0] == packet[0] && data[1..3] == packet[1..3];
    assert forall i, j | 11 <= i <= j <= |packet| :: data[i..j] == packet[i..j];
  }

  lemma StampRead(packet: seq<u8>, t: nat)
    requires |packet| >= 11 && t < 0x1_0000_0000_0000
    ensures Word(Stamped(packet, t), 5, 6) == t
  {
    Widths();
    assert Pow256(6) == 256 * (256 * Pow256(4));
    BERoundTrip(t, 6);
    BigEndian(Stamped(packet, t), 5, 6);
    assert Stamped(packet, t)[5..11] == ToBE(t, 6);
  }

  lemma PrintIsLong(m: ItchMessage)
    ensures |Print(m)| >= 19
  {
  }

  /** A message printed with any stamp is read back as that message, at midnight plus the stamp. */
  lemma PrintedAtStamp(symbols: seq<Symbol>, midnight: nat, packets: seq<seq<u8>>, m: ItchMessage, t: nat)
    requires Start(symbols, midnight).Packets(packets).1 && t < 0x1_0000_0000_0000
    ensures |Print(m)| >= 19 && Parse(Stamped(Print(m), t)) == Parse(Print(m))
    ensures Start(symbols, midnight).Packets(packets + [Stamped(Print(m), t)]).0.market.time == midnight + t
  {
    PrintIsLong(m);
    StampedParses(Print(m), t);
    StampRead(Print(m), t);
    ClockIsStamped(symbols, midnight, packets, Stamped(Print(m), t));
  }

  lemma {:induction false} NothingPending(s: System, packets: seq<seq<u8>>)
    requires s.gw.pending == []
    ensures s.Packets(packets).0.gw.pending == []
  {
    if packets == [] {
    } else {
      NothingPending(s, packets[..|packets| - 1]);
    }
  }

  /** The same system at another time. */
  function At(s: System, time: nat): System {
    s.(market := s.market.(time := time))
  }

  /** The kind is none of the seven supported, or the side of an add or trade is neither buy nor
      sell. */
  predicate PassedOver(data: seq<u8>) {
    && |data| >= 11
    && (data[0] !in {82, 65, 88, 68, 80, 69, 67}
        || (data[0] == 65 && |data| >= 20 && data[19] !in {66, 83})
        || (data[0] == 80 && |data| >= 44 && data[19] !in {66, 83}))
  }

  /** In any state such a packet moves the clock, takes the reports that wait, and does nothing
      else, and the process goes on; in a replay run, where none wait, it moves only the clock. */
  lemma PassedOverOnlyTicks(s: System, data: seq<u8>)
    requires PassedOver(data)
    ensures s.Packet(data) == (At(s, s.market.midnight + Word(data, 5, 6)).Drain(), true)
    ensures s.gw.pending == [] ==> s.Packet(data) == (At(s, s.market.midnight + Word(data, 5, 6)), true)
  {
    SaysNothing(data);
    TickIs(s, data);
    IgnoredPacket(s, data);
    if s.gw.pending == [] { DrainNothing(s.Tick(data)); }
  }

  lemma PassedOverInRun(symbols: seq<Symbol>, midnight: nat, packets: seq<seq<u8>>, data: seq<u8>)
    requires PassedOver(data)
    ensures var now := Start(symbols, midnight).Packets(packets).0;
            now.Packet(data) == (At(now, midnight + Word(data, 5, 6)), true)
  {
    NothingPending(Start(symbols, midnight), packets);
    MidnightStays(Start(symbols, midnight), packets);
    PassedOverOnlyTicks(Start(symbols, midnight).Packets(packets).0, data);
  }

  lemma TickIs(s: System, data: seq<u8>)
    requires |data| >= 11
    ensures s.Tick(data) == At(s, s.market.midnight + Word(data, 5, 6))
  {
    BigEndian(data, 5, 6);
  }

  lemma DrainNothing(s: System)
    requires s.gw.pending == []
    ensures s.Drain() == s
  {
  }

  lemma IgnoredPacket(s: System, data: seq<u8>)
    requires |data| >= 11 && Parse(data) == Ignored
    ensures s.Packet(data) == (s.Tick(data).Drain(), true)
  {
  }

  lemma SaysNothing(data: seq<u8>)
    requires PassedOver(data)
    ensures Parse(data) == Ignored
  {
    ParsesAs(data);
  }

  /** The packet ends before its timestamp or before a field its kind has. */
  predicate Stops(data: seq<u8>) {
    |data| < 11 || TooShort(data)
  }

  lemma PacketGoesOn(s: System, data: seq<u8>)
    ensures s.Packet(data).1 <==> !Stops(data)
  {
    ParsesAs(data);
  }

  predicate NoneStops(packets: seq<seq<u8>>) {
    forall k | 0 <= k < |packets| :: !Stops(packets[k])
  }

  lemma NoneStopsPush(packets: seq<seq<u8>>)
    requires packets != []
    ensures NoneStops(packets) <==> NoneStops(packets[..|packets| - 1]) && !Stops(packets[|packets| - 1])
  {
    var front := packets[..|packets| - 1];
    assert forall k | 0 <= k < |front| :: front[k] == packets[k];
  }

  /** A run goes on to its end exactly when none of its packets is too short. */
  lemma {:induction false} RunStopsExactlyWhen(s: System, packets: seq<seq<u8>>)
    ensures s.Packets(packets).1 <==> NoneStops(packets)
  {
    if packets == [] {
    } else {
      var front, data := packets[..|packets| - 1], packets[|packets| - 1];
      RunStopsExactlyWhen(s, front);
      NoneStopsPush(packets);
      PacketGoesOn(s.Packets(front).0, data);
    }
  }

  /** It ends in the state before the first that is too short, but for the clock. */
  lemma RunStopsAt(s: System, packets: seq<seq<u8>>, k: nat)
    requires k < |packets| && Stops(packets[k]) && forall j | 0 <= j < k :: !Stops(packets[j])
    ensures var before := s.Packets(packets[..k]).0;
            s.Packets(packets) == (At(before, s.Packets(packets).0.market.time), false)
  {
    RunStopsExactlyWhen(s, packets[..k]);
    PacketsStep(s, packets, k);
    PacketGoesOn(s.Packets(packets[..k]).0, packets[k]);
    ParsesAs(packets[k]);
    PacketsAll(s, packets, k + 1);
  }

  /** The replay of a file ends before the end of the file exactly when one of its frames is too
      short. */
  lemma ReplayStopsExactlyWhen(symbols: seq<Symbol>, midnight: nat, file: seq<u8>)
    ensures var frames := Framing.Frames(file);
            Start(symbols, midnight).Packets(frames).1 <==> NoneStops(frames)
  {
    RunStopsExactlyWhen(Start(symbols, midnight), Framing.Frames(file));
  }

  predicate Zero(b: u8) {
    b == 0
  }

  /** The name a directory symbol stands for: without the zero bytes around it, and then without
      the blanks around what is left. */
  ghost predicate Names(symbol: Symbol, name: Symbol) {
    exists u: Symbol :: StripsTo(symbol, u, Zero) && StripsTo(u, name, Blank)
  }

  lemma CleanIs(symbol: Symbol, name: Symbol)
    ensures Clean(symbol) == name <==> Names(symbol, name)
  {
    var u := TrimRight(TrimLeft(symbol, IsNul), IsNul);
    StripIs(symbol, u, IsNul);
    SameStrip(symbol, u, IsNul, Zero);
    TrimIs(u, Trim(u));
    assert Names(symbol, Trim(u));
    if Names(symbol, name) {
      var v: Symbol :| StripsTo(symbol, v, Zero) && StripsTo(v, name, Blank);
      SameStrip(symbol, v, Zero, IsNul);
      StripIs(symbol, v, IsNul);
      TrimIs(v, name);
    }
  }

  /** A directory entry whose name no symbol has changes nothing. */
  lemma UnknownNameChangesNothing(m: State, locate: u16, symbol: Symbol, name: Symbol)
    requires Names(symbol, name) && forall i | 0 <= i < |m.procs| :: m.procs[i].symbol != name
    ensures m.Directory(locate, symbol) == m
  {
    CleanIs(symbol, name);
  }

  /** Otherwise the first symbol of that name takes the locate, the locate leads to it, and
      nothing else changes. */
  lemma FirstOfNameTakesLocate(m: State, locate: u16, symbol: Symbol, name: Symbol, i: nat, l: u16)
    requires Names(symbol, name) && |m.lookup| == LOCATES
    requires i < |m.procs| && m.procs[i].symbol == name && forall j | 0 <= j < i :: m.procs[j].symbol != name
    ensures var m' := m.Directory(locate, symbol);
            && m'.Slot(l) == (if l == locate then Some(i) else m.Slot(l))
            && m'.procs == m.procs[i := m.procs[i].(locate := locate)]
            && m' == m.(procs := m'.procs, lookup := m'.lookup)
  {
    CleanIs(symbol, name);
  }
}
