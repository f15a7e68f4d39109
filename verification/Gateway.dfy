/** The replay gateway: fills every order at once and keeps cash and positions per locate. */
module Gateway {
  import opened Common

  datatype Account =
    Account(pending: seq<ExecutionReport>, cash: map<u16, int>, positions: map<u16, int>, lastPrices: map<u16, u32>)
  {
    function Position(locate: u16): int {
      if locate in positions then positions[locate] else 0
    }

    function Cash(locate: u16): int {
      if locate in cash then cash[locate] else 0
    }

    function Send(cmd: OrderCommand): Account {
      Account(
        pending + [Echo(cmd)],
        cash[cmd.locate := Cash(cmd.locate) - Signed(cmd) * cmd.price],
        positions[cmd.locate := Position(cmd.locate) + Signed(cmd)],
        lastPrices[cmd.locate := cmd.price])
    }
  }

  const EMPTY_ACCOUNT := Account([], map[], map[], map[])

  class ReplayGateway {
    var pendingFills: seq<ExecutionReport>
    var cashBalances: map<u16, int>
    var positions: map<u16, int>
    var lastPrices: map<u16, u32>

    constructor ()
      ensures View() == EMPTY_ACCOUNT
    {
      pendingFills, cashBalances, positions, lastPrices := [], map[], map[], map[];
    }

    ghost function View(): Account
      reads this
    {
      Account(pendingFills, cashBalances, positions, lastPrices)
    }

    method SendOrder(cmd: OrderCommand)
      modifies this
      ensures View() == old(View()).Send(cmd)
    {
      pendingFills := pendingFills + [ExecutionReport(cmd.orderId, cmd.quantity, cmd.price, 0, cmd.locate)];
      var value: int := cmd.quantity * cmd.price;
      var position := if cmd.locate in positions then positions[cmd.locate] else 0;
      var cash := if cmd.locate in cashBalances then cashBalances[cmd.locate] else 0;
      match cmd.side {
        case Buy =>
          cash := cash - value;
          position := position + cmd.quantity;
        case Sell =>
          cash := cash + value;
          position := position - cmd.quantity;
      }
      assert value == cmd.quantity * cmd.price;
      positions := positions[cmd.locate := position];
      cashBalances := cashBalances[cmd.locate := cash];
      lastPrices := lastPrices[cmd.locate := cmd.price];
    }

    method PollConfirmedOrders() returns (r: Option<ExecutionReport>)
      modifies this`pendingFills
      ensures old(pendingFills) == [] ==> r == None && pendingFills == []
      ensures old(pendingFills) != [] ==> r == Some(old(pendingFills)[0]) && pendingFills == old(pendingFills)[1..]
    {
      if pendingFills == [] {
        return None;
      }
      r := Some(pendingFills[0]);
      pendingFills := pendingFills[1..];
    }

    method GetPosition(locate: u16) returns (p: int)
      ensures p == View().Position(locate)
    {
      p := if locate in positions then positions[locate] else 0;
    }

    method GetCashBalance(locate: u16) returns (c: int)
      ensures c == View().Cash(locate)
    {
      c := if locate in cashBalances then cashBalances[locate] else 0;
    }
  }
}
