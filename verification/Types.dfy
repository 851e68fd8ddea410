/** Fixed-width domain values shared by every component: identifiers, orders,
    commands, reports, and the reasons a command can be refused. Machine widths
    are subset types, so every stored value fits the width its field has. */
module Types {
  const U8_BOUND: int := 0x100
  const U16_BOUND: int := 0x1_0000
  const U32_BOUND: int := 0x1_0000_0000
  const U64_BOUND: int := 0x1_0000_0000_0000_0000
  const U128_BOUND: int := 0x1_0000_0000_0000_0000_0000_0000_0000_0000
  const I64_BOUND: int := 0x8000_0000_0000_0000
  const I128_BOUND: int := 0x8000_0000_0000_0000_0000_0000_0000_0000

  type U8 = x: int | 0 <= x < U8_BOUND
  type U16 = x: int | 0 <= x < U16_BOUND
  type U32 = x: int | 0 <= x < U32_BOUND
  type U64 = x: int | 0 <= x < U64_BOUND
  type U128 = x: int | 0 <= x < U128_BOUND
  type I64 = x: int | -I64_BOUND <= x < I64_BOUND
  type I128 = x: int | -I128_BOUND <= x < I128_BOUND

  type OrderId = U64
  type AccountId = U32
  type InstrumentId = U32
  type Price = I64
  type Quantity = U64
  type Sequence = U64

  datatype Option<+T> = None | Some(value: T)
  datatype Result<+T, +E> = Ok(value: T) | Err(error: E) {
    predicate IsFailure() {
      Err?
    }

    function PropagateFailure<U>(): Result<U, E>
      requires Err?
    {
      Err(error)
    }

    function Extract(): T
      requires Ok?
    {
      value
    }
  }

  datatype Side = Buy | Sell {
    function Opposite(): Side {
      if this == Buy then Sell else Buy
    }
  }

  datatype TimeInForce = Gtc | Ioc | Fok | PostOnly

  datatype NewOrder = NewOrder(
    orderId: OrderId,
    accountId: AccountId,
    instrument: InstrumentId,
    price: Price,
    quantity: Quantity,
    sequence: Sequence,
    side: Side,
    tif: TimeInForce)

  datatype ReplaceOrder = ReplaceOrder(
    orderId: OrderId,
    accountId: AccountId,
    instrument: InstrumentId,
    sequence: Sequence,
    price: Price,
    quantity: Quantity)

  datatype CancelOrder = CancelOrder(
    orderId: OrderId,
    accountId: AccountId,
    instrument: InstrumentId,
    sequence: Sequence)

  datatype Command =
    | New(order: NewOrder)
    | Cancel(cancel: CancelOrder)
    | Replace(replace: ReplaceOrder)
  {
    function SequenceOf(): Sequence {
      match this
      case New(o) => o.sequence
      case Cancel(c) => c.sequence
      case Replace(r) => r.sequence
    }

    function InstrumentOf(): InstrumentId {
      match this
      case New(o) => o.instrument
      case Cancel(c) => c.instrument
      case Replace(r) => r.instrument
    }
  }

  datatype OrderState = Accepted | PartiallyFilled | Filled

  datatype RejectReason =
    | InvalidInstrument
    | InvalidPrice
    | InvalidQuantity
    | QuantityLimit
    | NotionalLimit
    | PositionLimit
    | OpenOrderLimit
    | PriceCollar
    | DuplicateOrderId
    | UnknownOrder
    | NotOrderOwner
    | KillSwitch
    | UnknownAccount
    | ArithmeticOverflow
    | OrderCapacity
    | PriceLevelCapacity
    | PriceLevelOrderCapacity
    | ReportCapacity
    | InsufficientLiquidity
    | PostOnlyWouldTrade
    | ReplaceWouldCross

  datatype ExecutionReport = ExecutionReport(
    makerOrderId: OrderId,
    takerOrderId: OrderId,
    instrument: InstrumentId,
    price: Price,
    quantity: Quantity,
    sequence: Sequence)

  datatype MatchSummary = MatchSummary(
    state: OrderState,
    filled: Quantity,
    resting: Quantity,
    discarded: Quantity,
    reportCount: nat)

  datatype CancelledOrder = CancelledOrder(orderId: OrderId, accountId: AccountId, quantity: Quantity)

  datatype ReplacedOrder = ReplacedOrder(
    orderId: OrderId,
    accountId: AccountId,
    oldQuantity: Quantity,
    newQuantity: Quantity,
    price: Price,
    priorityLost: bool)
}
