/** Shared vocabulary of the order engine: the enums and small records that every
    component exchanges. Amounts that the program holds as exact decimals are reals. */
module Contracts {

  datatype Option<+T> = None | Some(value: T)

  datatype Side = Buy | Sell

  datatype OrderType = Market | Limit

  datatype OrderStatus = Pending | PartiallyFilled | Filled | Cancelled | Rejected

  datatype PositionSide = Long | Short

  datatype Quote = Quote(bid: real, ask: real)

  const I32_MAX: int := 0x7fff_ffff

  /** The program's 32-bit signed integers; none of the modelled code lets one overflow. */
  type int32 = i: int | -0x8000_0000 <= i <= 0x7fff_ffff

  /** A buy takes the ask, a sell takes the bid. */
  function SidePrice(side: Side, q: Quote): real {
    match side
    case Buy => q.ask
    case Sell => q.bid
  }

  function Abs(x: real): real {
    if x < 0.0 then -x else x
  }
}
