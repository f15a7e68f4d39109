/** Parsing a printed message gives the message back. */
module ItchRoundTrip {
  import opened Common
  import opened Bytes
  import opened Itch

  // A fixed-width field read back out of the middle of a packet.
  lemma Field(packet: seq<u8>, before: seq<u8>, n: nat, k: nat)
    requires n < Pow256(k)
    requires before + ToBE(n, k) <= packet
    ensures FromBE(packet[|before|..|before| + k]) == n
  {
    assert packet[|before|..|before| + k] == ToBE(n, k);
    BERoundTrip(n, k);
  }

  lemma HeaderFields(kind: char, locate: u16, packet: seq<u8>)
    requires kind < 128 as char && Header(kind, locate) <= packet
    ensures packet[0] == kind as nat && U16BE(packet, 1) == locate
  {
    Widths();
    assert [kind as nat] + ToBE(locate, 2) <= Header(kind, locate);
    Field(packet, [kind as nat], locate, 2);
  }

  // Every stretch of a packet from its start is a prefix of it.
  lemma Prefixes(h: seq<u8>, f1: seq<u8>, f2: seq<u8>, f3: seq<u8>, f4: seq<u8>, f5: seq<u8>, f6: seq<u8>)
    ensures var a := h + f1; var b := a + f2; var c := b + f3; var d := c + f4; var e := d + f5;
            h <= a <= e + f6 && b <= e + f6 && c <= e + f6 && d <= e + f6 && e <= e + f6
  {
  }

  lemma AddRoundTrip(locate: u16, id: u64, side: Side, quantity: u32, price: u32)
    ensures Parse(Print(AddOrder(locate, id, side, quantity, price)))
         == Parsed(AddOrder(locate, id, side, quantity, price))
  {
    Widths();
    var h := Header('A', locate);
    var a := h + ToBE(id, 8);
    var b := a + [SideByte(side)];
    var c := b + ToBE(quantity, 4);
    var d := c + Zeros(8);
    var p := d + ToBE(price, 4);
    Prefixes(h, ToBE(id, 8), [SideByte(side)], ToBE(quantity, 4), Zeros(8), ToBE(price, 4), []);
    assert p + [] == p;
    HeaderFields('A', locate, p);
    Field(p, h, id, 8);
    Field(p, b, quantity, 4);
    Field(p, d, price, 4);
    assert p[19] == b[19] == SideByte(side);
  }

  lemma TradeRoundTrip(locate: u16, price: u32, quantity: u32, matchNumber: u64, bid: Side)
    ensures Parse(Print(Trade(locate, price, quantity, matchNumber, bid)))
         == Parsed(Trade(locate, price, quantity, matchNumber, bid))
  {
    TradeFields(locate, price, quantity, matchNumber, bid);
  }

  lemma TradeFields(locate: u16, price: u32, quantity: u32, matchNumber: u64, bid: Side)
    ensures var p := Print(Trade(locate, price, quantity, matchNumber, bid));
            && |p| == 44 && p[0] == 'P' as nat && U16BE(p, 1) == locate && p[19] == SideByte(bid)
            && U32BE(p, 20) == quantity && U32BE(p, 32) == price && U64BE(p, 36) == matchNumber
  {
    Widths();
    var h := Header('P', locate);
    var a := h + Zeros(8);
    var b := a + [SideByte(bid)];
    var c := b + ToBE(quantity, 4);
    var d := c + Zeros(8);
    var e := d + ToBE(price, 4);
    var p := e + ToBE(matchNumber, 8);
    Prefixes(h, Zeros(8), [SideByte(bid)], ToBE(quantity, 4), Zeros(8), ToBE(price, 4), ToBE(matchNumber, 8));
    HeaderFields('P', locate, p);
    Field(p, b, quantity, 4);
    Field(p, d, price, 4);
    Field(p, e, matchNumber, 8);
    assert p[19] == b[19] == SideByte(bid);
  }

  lemma ExecutedRoundTrip(locate: u16, id: u64, quantity: u32, matchNumber: u64)
    ensures Parse(Print(OrderExecuted(locate, id, quantity, matchNumber)))
         == Parsed(OrderExecuted(locate, id, quantity, matchNumber))
  {
    Widths();
    var h := Header('E', locate);
    var a := h + ToBE(id, 8);
    var b := a + ToBE(quantity, 4);
    var p := b + ToBE(matchNumber, 8);
    assert h <= a <= b <= p;
    HeaderFields('E', locate, p);
    Field(p, h, id, 8);
    Field(p, a, quantity, 4);
    Field(p, b, matchNumber, 8);
  }

  lemma ExecutedWithPriceRoundTrip(locate: u16, id: u64, quantity: u32, price: u32, matchNumber: u64)
    ensures Parse(Print(OrderExecutedWithPrice(locate, id, quantity, price, matchNumber)))
         == Parsed(OrderExecutedWithPrice(locate, id, quantity, price, matchNumber))
  {
    Widths();
    var h := Header('C', locate);
    var a := h + ToBE(id, 8);
    var b := a + ToBE(quantity, 4);
    var c := b + ToBE(matchNumber, 8);
    var d := c + Zeros(1);
    var p := d + ToBE(price, 4);
    Prefixes(h, ToBE(id, 8), ToBE(quantity, 4), ToBE(matchNumber, 8), Zeros(1), ToBE(price, 4), []);
    assert p + [] == p;
    HeaderFields('C', locate, p);
    Field(p, h, id, 8);
    Field(p, a, quantity, 4);
    Field(p, b, matchNumber, 8);
    Field(p, d, price, 4);
  }

  lemma ModifyRoundTrip(locate: u16, id: u64, quantity: u32)
    ensures Parse(Print(ModifyOrder(locate, id, quantity))) == Parsed(ModifyOrder(locate, id, quantity))
  {
    Widths();
    var h := Header('X', locate);
    var a := h + ToBE(id, 8);
    var p := a + ToBE(quantity, 4);
    assert h <= a <= p;
    HeaderFields('X', locate, p);
    Field(p, h, id, 8);
    Field(p, a, quantity, 4);
  }

  lemma DeleteRoundTrip(locate: u16, id: u64)
    ensures Parse(Print(DeleteOrder(locate, id))) == Parsed(DeleteOrder(locate, id))
  {
    Widths();
    var h := Header('D', locate);
    HeaderFields('D', locate, h + ToBE(id, 8));
    Field(h + ToBE(id, 8), h, id, 8);
  }

  // The 4-byte price field is what bounds the messages a packet can carry.
  predicate FitsPacket(m: ItchMessage) {
    match m
    case AddOrder(_, _, _, _, price) => price < TWO32
    case Trade(_, price, _, _, _) => price < TWO32
    case OrderExecutedWithPrice(_, _, _, price, _) => price < TWO32
    case _ => true
  }

  lemma ParsedFitsPacket(data: seq<u8>)
    ensures Parse(data).Parsed? ==> FitsPacket(Parse(data).msg)
  {
  }

  // Trimming removes blanks added on the right, and nothing from a trimmed symbol.
  lemma {:induction false} TrimLeftFacts(s: Symbol)
    ensures |TrimLeft(s, IsSpace)| <= |s|
    ensures TrimLeft(s, IsSpace) == s <==> s == [] || !IsSpace(s[0])
  {
    if s == [] || !IsSpace(s[0]) {
    } else {
      TrimLeftFacts(s[1..]);
    }
  }

  lemma {:induction false} TrimRightShrinks(s: Symbol)
    ensures |TrimRight(s, IsSpace)| <= |s|
  {
    if s == [] || !IsSpace(s[|s| - 1]) {
    } else {
      TrimRightShrinks(s[..|s| - 1]);
    }
  }

  lemma {:induction false} TrimRightBlanks(s: Symbol, k: nat)
    ensures TrimRight(s + seq(k, _ => 32), IsSpace) == TrimRight(s, IsSpace)
  {
    if k == 0 {
      assert s + seq(k, _ => 32) == s;
    } else {
      var t := s + seq(k, _ => 32);
      assert t[..|t| - 1] == s + seq(k - 1, _ => 32);
      TrimRightBlanks(s, k - 1);
    }
  }

  lemma {:induction false} TrimLeftBlanks(s: Symbol, k: nat)
    ensures var t := TrimLeft(s, IsSpace);
            TrimLeft(s + seq(k, _ => 32), IsSpace) == if t == [] then [] else t + seq(k, _ => 32)
  {
    var t := s + seq(k, _ => 32);
    if s == [] {
      AllBlank(k);
      assert t == seq(k, _ => 32);
    } else if IsSpace(s[0]) {
      assert t[1..] == s[1..] + seq(k, _ => 32);
      TrimLeftBlanks(s[1..], k);
    }
  }

  lemma {:induction false} AllBlank(k: nat)
    ensures TrimLeft(seq(k, _ => 32), IsSpace) == []
  {
    if k == 0 {
    } else {
      assert seq(k, (_: int) => 32)[1..] == seq(k - 1, (_: int) => 32);
      AllBlank(k - 1);
    }
  }

  lemma TrimPadding(s: Symbol, k: nat)
    ensures Trim(s + seq(k, _ => 32)) == Trim(s)
  {
    TrimLeftBlanks(s, k);
    TrimRightBlanks(TrimLeft(s, IsSpace), k);
  }

  lemma TrimShrinks(s: Symbol)
    ensures |Trim(s)| <= |s|
  {
    TrimLeftFacts(s);
    TrimRightShrinks(TrimLeft(s, IsSpace));
  }

  // A directory symbol survives the packet exactly when it is trimmed and fits eight bytes.
  lemma DirectoryRoundTrip(locate: u16, symbol: Symbol)
    ensures Parse(Print(StockDirectory(locate, symbol))) == Parsed(StockDirectory(locate, symbol))
       <==> |symbol| <= 8 && Trim(symbol) == symbol
  {
    var p := Print(StockDirectory(locate, symbol));
    assert p == Header('R', locate) + (Padded(symbol) + Zeros(20));
    HeaderFields('R', locate, p);
    assert p[11..19] == Padded(symbol);
    if |symbol| > 8 {
      TrimShrinks(Padded(symbol));
    } else if |symbol| == 8 {
      assert symbol[..8] == symbol;
    } else {
      TrimPadding(symbol, 8 - |symbol|);
    }
  }

  /** Every message that fits a packet is read back exactly as printed. */
  lemma PrintThenParse(m: ItchMessage)
    requires FitsPacket(m)
    ensures Parse(Print(m)) == Parsed(m)
       <==> (m.StockDirectory? ==> |m.symbol| <= 8 && Trim(m.symbol) == m.symbol)
  {
    match m
    case StockDirectory(locate, symbol) => DirectoryRoundTrip(locate, symbol);
    case AddOrder(locate, id, side, quantity, price) => AddRoundTrip(locate, id, side, quantity, price);
    case ModifyOrder(locate, id, quantity) => ModifyRoundTrip(locate, id, quantity);
    case DeleteOrder(locate, id) => DeleteRoundTrip(locate, id);
    case OrderExecuted(locate, id, quantity, mn) => ExecutedRoundTrip(locate, id, quantity, mn);
    case OrderExecutedWithPrice(locate, id, quantity, price, mn) =>
      ExecutedWithPriceRoundTrip(locate, id, quantity, price, mn);
    case Trade(locate, price, quantity, mn, bid) => TradeRoundTrip(locate, price, quantity, mn, bid);
  }
}
