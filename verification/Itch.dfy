/** NASDAQ TotalView-ITCH 5.0 messages: the parser and the packet printer. */
module Itch {
  import opened Common
  import opened Bytes

  type Symbol = seq<u8>

  datatype ItchMessage =
    | AddOrder(locate: u16, orderId: u64, side: Side, quantity: u32, price: u64)
    | ModifyOrder(locate: u16, orderId: u64, quantity: u32)
    | Trade(locate: u16, price: u64, quantity: u32, matchNumber: u64, bid: Side)
    | DeleteOrder(locate: u16, orderId: u64)
    | OrderExecuted(locate: u16, orderId: u64, quantity: u32, matchNumber: u64)
    | OrderExecutedWithPrice(locate: u16, orderId: u64, quantity: u32, price: u64, matchNumber: u64)
    | StockDirectory(locate: u16, symbol: Symbol)

  /** A slice past the end of the packet stops the process. */
  datatype ParseResult = Panicked | Ignored | Parsed(msg: ItchMessage)

  function SideOf(b: u8): Option<Side> {
    if b == 'B' as nat then Some(Buy) else if b == 'S' as nat then Some(Sell) else None
  }

  predicate IsSpace(b: u8) {
    9 <= b <= 13 || b == 32
  }

  function TrimLeft(s: Symbol, drop: u8 -> bool): Symbol {
    if s != [] && drop(s[0]) then TrimLeft(s[1..], drop) else s
  }

  function TrimRight(s: Symbol, drop: u8 -> bool): Symbol {
    if s != [] && drop(s[|s| - 1]) then TrimRight(s[..|s| - 1], drop) else s
  }

  function Trim(s: Symbol): Symbol {
    TrimRight(TrimLeft(s, IsSpace), IsSpace)
  }

  function Parse(data: seq<u8>): ParseResult {
    var n := |data|;
    if n < 3 then Panicked else
    var locate := U16BE(data, 1);
    var kind := data[0];
    if kind == 'R' as nat then
      if n < 19 then Panicked else Parsed(StockDirectory(locate, Trim(data[11..19])))
    else if kind == 'A' as nat then
      if n < 20 then Panicked else
      match SideOf(data[19])
      case None => Ignored
      case Some(side) =>
        if n < 36 then Panicked
        else Parsed(AddOrder(locate, U64BE(data, 11), side, U32BE(data, 20), U32BE(data, 32)))
    else if kind == 'X' as nat then
      if n < 23 then Panicked else Parsed(ModifyOrder(locate, U64BE(data, 11), U32BE(data, 19)))
    else if kind == 'D' as nat then
      if n < 19 then Panicked else Parsed(DeleteOrder(locate, U64BE(data, 11)))
    else if kind == 'P' as nat then
      if n < 44 then Panicked else
      match SideOf(data[19])
      case None => Ignored
      case Some(bid) =>
        Parsed(Trade(locate, U32BE(data, 32), U32BE(data, 20), U64BE(data, 36), bid))
    else if kind == 'E' as nat then
      if n < 31 then Panicked
      else Parsed(OrderExecuted(locate, U64BE(data, 11), U32BE(data, 19), U64BE(data, 23)))
    else if kind == 'C' as nat then
      if n < 36 then Panicked
      else Parsed(OrderExecutedWithPrice(locate, U64BE(data, 11), U32BE(data, 19), U32BE(data, 32), U64BE(data, 23)))
    else Ignored
  }

  function Zeros(k: nat): (s: seq<u8>)
    ensures |s| == k
  {
    seq(k, _ => 0)
  }

  /** The packet with a timestamp, in nanoseconds since midnight, in bytes 5 to 10. */
  function Stamped(packet: seq<u8>, t: nat): (s: seq<u8>)
    requires |packet| >= 11
    ensures |s| == |packet|
  {
    packet[..5] + ToBE(t, 6) + packet[11..]
  }

  function SideByte(side: Side): u8 {
    if side == Buy then 'B' as nat else 'S' as nat
  }

  function Header(kind: char, locate: u16): (s: seq<u8>)
    requires kind < 128 as char
    ensures |s| == 11
  {
    [kind as nat] + ToBE(locate, 2) + Zeros(8)
  }

  /** Eight bytes: the symbol cut or padded with blanks on the right. */
  function Padded(symbol: Symbol): (s: seq<u8>)
    ensures |s| == 8
  {
    if |symbol| >= 8 then symbol[..8] else symbol + seq(8 - |symbol|, _ => 32)
  }

  function Print(m: ItchMessage): seq<u8> {
    match m
    case StockDirectory(locate, symbol) =>
      Header('R', locate) + Padded(symbol) + Zeros(20)
    case AddOrder(locate, id, side, quantity, price) =>
      Header('A', locate) + ToBE(id, 8) + [SideByte(side)] + ToBE(quantity, 4) + Zeros(8) + ToBE(price, 4)
    case OrderExecuted(locate, id, quantity, matchNumber) =>
      Header('E', locate) + ToBE(id, 8) + ToBE(quantity, 4) + ToBE(matchNumber, 8)
    case OrderExecutedWithPrice(locate, id, quantity, price, matchNumber) =>
      Header('C', locate) + ToBE(id, 8) + ToBE(quantity, 4) + ToBE(matchNumber, 8) + Zeros(1) + ToBE(price, 4)
    case ModifyOrder(locate, id, quantity) =>
      Header('X', locate) + ToBE(id, 8) + ToBE(quantity, 4)
    case DeleteOrder(locate, id) =>
      Header('D', locate) + ToBE(id, 8)
    case Trade(locate, price, quantity, matchNumber, bid) =>
      Header('P', locate) + Zeros(8) + [SideByte(bid)] + ToBE(quantity, 4) + Zeros(8) + ToBE(price, 4) + ToBE(matchNumber, 8)
  }
}
