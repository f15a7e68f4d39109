/** Machine widths and the message records shared by every component. */
module Common {
  const TWO32: nat := 0x1_0000_0000

  type u8 = n: nat | n < 0x100
  type u16 = n: nat | n < 0x1_0000
  type u32 = n: nat | n < 0x1_0000_0000
  type u64 = n: nat | n < 0x1_0000_0000_0000_0000

  datatype Option<+T> = None | Some(value: T)

  datatype Side = Buy | Sell

  datatype AggressorSide = Buyer | Seller

  datatype OrderCommand =
    OrderCommand(locate: u16, orderId: nat, price: u32, quantity: u32, side: Side)

  datatype ExecutionReport =
    ExecutionReport(orderId: nat, lastQty: u32, lastPrice: u32, execType: u8, locate: u16)

  datatype TelemetryPayload =
    TelemetryPayload(timestamp: nat, equity: int, midpoint: u32, position: int, locate: u16)

  /** Wrapping u32 arithmetic, as an optimised Rust build performs it. */
  function Add32(a: u32, b: u32): u32 {
    if a + b < TWO32 then a + b else a + b - TWO32
  }

  function Sub32(a: u32, b: u32): u32 {
    if b <= a then a - b else a - b + TWO32
  }

  /** The fill an exchange that executes every order in full reports back. */
  function Echo(cmd: OrderCommand): ExecutionReport {
    ExecutionReport(cmd.orderId, cmd.quantity, cmd.price, 0, cmd.locate)
  }

  /** Shares a command moves: positive for a buy, negative for a sell. */
  function Signed(cmd: OrderCommand): int {
    if cmd.side == Buy then cmd.quantity else -(cmd.quantity as int)
  }
}
