/** The message formats of NASDAQ TotalView-ITCH 5.0 by byte offset, and the parser measured
    against them: which packets say which message, which are passed over, which stop the process. */
module ItchFormat {
  import opened Common
  import opened Bytes
  import opened Itch

  predicate Blank(b: u8) {
    b in {9, 10, 11, 12, 13, 32}
  }

  predicate AllDrop(s: Symbol, drop: u8 -> bool) {
    forall i | 0 <= i < |s| :: drop(s[i])
  }

  /** What is left of s when the bytes to drop are taken off both ends. */
  ghost predicate StripsTo(s: Symbol, t: Symbol, drop: u8 -> bool) {
    && (t != [] ==> !drop(t[0]) && !drop(t[|t| - 1]))
    && exists a: Symbol, b: Symbol :: Around(s, a, t, b) && AllDrop(a, drop) && AllDrop(b, drop)
  }

  predicate Around(s: Symbol, a: Symbol, t: Symbol, b: Symbol) {
    s == a + (t + b)
  }

  lemma {:induction false} TrimLeftOff(a: Symbol, x: Symbol, drop: u8 -> bool)
    requires AllDrop(a, drop)
    ensures TrimLeft(a + x, drop) == TrimLeft(x, drop)
  {
    if a == [] {
      assert a + x == x;
    } else {
      assert (a + x)[1..] == a[1..] + x;
      TrimLeftOff(a[1..], x, drop);
    }
  }

  lemma {:induction false} TrimRightOff(x: Symbol, b: Symbol, drop: u8 -> bool)
    requires AllDrop(b, drop)
    ensures TrimRight(x + b, drop) == TrimRight(x, drop)
  {
    if b == [] {
      assert x + b == x;
    } else {
      assert (x + b)[..|x + b| - 1] == x + b[..|b| - 1];
      TrimRightOff(x, b[..|b| - 1], drop);
    }
  }

  lemma {:induction false} TrimLeftSplits(s: Symbol, drop: u8 -> bool) returns (a: Symbol)
    ensures s == a + TrimLeft(s, drop) && AllDrop(a, drop)
    ensures TrimLeft(s, drop) != [] ==> !drop(TrimLeft(s, drop)[0])
  {
    if s == [] || !drop(s[0]) {
      a := [];
    } else {
      var a' := TrimLeftSplits(s[1..], drop);
      a := [s[0]] + a';
    }
  }

  lemma {:induction false} TrimRightSplits(s: Symbol, drop: u8 -> bool) returns (b: Symbol)
    ensures s == TrimRight(s, drop) + b && AllDrop(b, drop)
    ensures TrimRight(s, drop) != [] ==> !drop(TrimRight(s, drop)[|TrimRight(s, drop)| - 1])
  {
    if s == [] || !drop(s[|s| - 1]) {
      b := [];
    } else {
      var b' := TrimRightSplits(s[..|s| - 1], drop);
      b := b' + [s[|s| - 1]];
    }
  }

  /** Trimming both ends leaves exactly what stripping does. */
  lemma StripIs(s: Symbol, t: Symbol, drop: u8 -> bool)
    ensures TrimRight(TrimLeft(s, drop), drop) == t <==> StripsTo(s, t, drop)
  {
    var left := TrimLeft(s, drop);
    var a0 := TrimLeftSplits(s, drop);
    var b0 := TrimRightSplits(left, drop);
    assert Around(s, a0, TrimRight(left, drop), b0);
    if StripsTo(s, t, drop) {
      var a: Symbol, b: Symbol :| Around(s, a, t, b) && AllDrop(a, drop) && AllDrop(b, drop);
      StripOnly(s, a, t, b, drop);
    }
  }

  lemma StripOnly(s: Symbol, a: Symbol, t: Symbol, b: Symbol, drop: u8 -> bool)
    requires Around(s, a, t, b) && AllDrop(a, drop) && AllDrop(b, drop)
    requires t != [] ==> !drop(t[0]) && !drop(t[|t| - 1])
    ensures TrimRight(TrimLeft(s, drop), drop) == t
  {
    TrimLeftOff(a, t + b, drop);
    if t == [] {
      assert t + b == b + [];
      TrimLeftOff(b, [], drop);
    } else {
      TrimRightOff(t, b, drop);
    }
  }

  lemma SameStrip(s: Symbol, t: Symbol, drop: u8 -> bool, drop': u8 -> bool)
    requires forall b: u8 :: drop(b) == drop'(b)
    requires StripsTo(s, t, drop)
    ensures StripsTo(s, t, drop')
  {
    var a: Symbol, b: Symbol :| Around(s, a, t, b) && AllDrop(a, drop) && AllDrop(b, drop);
    assert AllDrop(a, drop') && AllDrop(b, drop');
  }

  /** The parser's trimming takes off exactly the blanks at both ends. */
  lemma TrimIs(s: Symbol, t: Symbol)
    ensures Trim(s) == t <==> StripsTo(s, t, Blank)
  {
    StripIs(s, t, IsSpace);
    if StripsTo(s, t, IsSpace) { SameStrip(s, t, IsSpace, Blank); }
    if StripsTo(s, t, Blank) { SameStrip(s, t, Blank, IsSpace); }
  }

  /** The side a byte of a packet stands for. */
  predicate SideIs(b: u8, side: Side) {
    b == if side == Buy then 66 else 83
  }

  /** The packet says the message, field by field. */
  ghost predicate Says(data: seq<u8>, m: ItchMessage) {
    |data| >= 19 && m.locate == Word(data, 1, 2) &&
    match m
    case StockDirectory(_, symbol) => data[0] == 82 && StripsTo(data[11..19], symbol, Blank)
    case AddOrder(_, id, side, quantity, price) =>
      && |data| >= 36 && data[0] == 65 && id == Word(data, 11, 8) && SideIs(data[19], side)
      && quantity == Word(data, 20, 4) && price == Word(data, 32, 4)
    case OrderExecuted(_, id, quantity, matchNumber) =>
      && |data| >= 31 && data[0] == 69 && id == Word(data, 11, 8)
      && quantity == Word(data, 19, 4) && matchNumber == Word(data, 23, 8)
    case OrderExecutedWithPrice(_, id, quantity, price, matchNumber) =>
      && |data| >= 36 && data[0] == 67 && id == Word(data, 11, 8)
      && quantity == Word(data, 19, 4) && matchNumber == Word(data, 23, 8) && price == Word(data, 32, 4)
    case ModifyOrder(_, id, quantity) =>
      |data| >= 23 && data[0] == 88 && id == Word(data, 11, 8) && quantity == Word(data, 19, 4)
    case DeleteOrder(_, id) => data[0] == 68 && id == Word(data, 11, 8)
    case Trade(_, price, quantity, matchNumber, bid) =>
      && |data| >= 44 && data[0] == 80 && SideIs(data[19], bid)
      && quantity == Word(data, 20, 4) && price == Word(data, 32, 4) && matchNumber == Word(data, 36, 8)
  }

  /** The bytes the parser needs of each kind it supports; of an add with an unknown side it
      needs no more than that side. */
  const LENGTHS: map<u8, nat> := map[82 := 19, 65 := 36, 88 := 23, 68 := 19, 80 := 44, 69 := 31, 67 := 36]

  predicate KnownSide(b: u8) {
    b == 66 || b == 83
  }

  /** The packet ends before a field the parser reads. */
  predicate TooShort(data: seq<u8>) {
    || |data| < 3
    || (data[0] in LENGTHS && |data| < LENGTHS[data[0]]
        && !(data[0] == 65 && |data| >= 20 && !KnownSide(data[19])))
  }

  lemma ParsesAs(data: seq<u8>)
    ensures Parse(data).Parsed? ==> Says(data, Parse(data).msg)
    ensures Parse(data).Panicked? <==> TooShort(data)
  {
    Words(data);
    if |data| >= 19 { TrimIs(data[11..19], Trim(data[11..19])); }
  }

  // The parser's reads are the words of the format.
  lemma Words(data: seq<u8>)
    ensures |data| >= 3 ==> U16BE(data, 1) == Word(data, 1, 2)
    ensures |data| >= 19 ==> U64BE(data, 11) == Word(data, 11, 8)
    ensures |data| >= 23 ==> U32BE(data, 19) == Word(data, 19, 4)
    ensures |data| >= 24 ==> U32BE(data, 20) == Word(data, 20, 4)
    ensures |data| >= 31 ==> U64BE(data, 23) == Word(data, 23, 8)
    ensures |data| >= 36 ==> U32BE(data, 32) == Word(data, 32, 4)
    ensures |data| >= 44 ==> U64BE(data, 36) == Word(data, 36, 8)
  {
    if |data| >= 3 { U16Word(data, 1); }
    if |data| >= 19 { U64Word(data, 11); }
    if |data| >= 23 { U32Word(data, 19); }
    if |data| >= 24 { U32Word(data, 20); }
    if |data| >= 31 { U64Word(data, 23); }
    if |data| >= 36 { U32Word(data, 32); }
    if |data| >= 44 { U64Word(data, 36); }
  }

  /** A packet says at most one message. */
  lemma SaysOne(data: seq<u8>, m: ItchMessage, m': ItchMessage)
    requires Says(data, m) && Says(data, m')
    ensures m == m'
  {
    if m.StockDirectory? {
      TrimIs(data[11..19], m.symbol);
      TrimIs(data[11..19], m'.symbol);
    }
  }

  /** The parser returns a message exactly when the packet says it, stops exactly when the packet
      is too short for what it reads, and passes over everything else. */
  lemma ParseFollowsFormat(data: seq<u8>, m: ItchMessage)
    ensures Parse(data) == Parsed(m) <==> Says(data, m)
    ensures Parse(data) == Panicked <==> TooShort(data)
    ensures Parse(data) == Ignored <==> !TooShort(data) && forall m :: !Says(data, m)
  {
    ParsesAs(data);
    forall m | Says(data, m) ensures Parse(data) == Parsed(m) {
      SaysIsParsed(data, m);
    }
  }

  lemma SaysIsParsed(data: seq<u8>, m: ItchMessage)
    requires Says(data, m)
    ensures Parse(data) == Parsed(m)
  {
    ParsesAs(data);
    assert Parse(data).Parsed?;
    SaysOne(data, m, Parse(data).msg);
  }
}
