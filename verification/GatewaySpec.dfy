/** The gateway as a function of its logical state: sequence admission, risk check,
    book, settlement, and the roll-back of whatever a later part refuses. */
module GatewaySpec {
  import opened Types
  import opened BookSpec
  import opened Reports
  import R = RiskSpec

  /** Compile-time parameters of one gateway. */
  datatype Config = Config(instrument: InstrumentId, book: Shape, risk: R.RiskShape)

  datatype GatewayState = GatewayState(
    book: Book,
    risk: R.RiskState,
    expected: Sequence,
    maximum: Option<OrderId>)

  datatype GatewayError =
    | SequenceGap(expected: Sequence, received: Sequence)
    | RiskRefused(reason: RejectReason)
    | BookRefused(reason: RejectReason)
    | RiskStateBroken(reason: RejectReason)

  datatype GatewayOutcome =
    | Accepted(summary: MatchSummary)
    | Cancelled(cancelled: CancelledOrder)
    | Replaced(replaced: ReplacedOrder)

  /** State, result and reports after one command. */
  datatype Step = Step(state: GatewayState, result: Result<GatewayOutcome, GatewayError>, reports: seq<ExecutionReport>)

  /** Each report fills its maker and then its taker; the first failure stops the walk. */
  function SettleReports(risk: R.RiskState, reports: seq<ExecutionReport>): (R.RiskState, Option<RejectReason>)
    decreases |reports|
  {
    if reports == [] then (risk, None)
    else match R.RecordFill(risk, reports[0].makerOrderId, reports[0].quantity)
      case Err(e) => (risk, Some(e))
      case Ok(made) =>
        match R.RecordFill(made, reports[0].takerOrderId, reports[0].quantity)
        case Err(e) => (made, Some(e))
        case Ok(taken) => SettleReports(taken, reports[1..])
  }

  function Refuse(g: GatewayState, e: GatewayError): Step {
    Step(g, Err(e), [])
  }

  /** What follows an accepted submission: settle its fills, release what was discarded. */
  function AfterSubmit(g: GatewayState, order: NewOrder, summary: MatchSummary, reports: seq<ExecutionReport>): Step {
    var (risk, failed) := SettleReports(g.risk, reports);
    if failed.Some? then Step(g.(risk := risk), Err(RiskStateBroken(failed.value)), reports)
    else if summary.resting == 0 && summary.filled < order.quantity then
      match R.Settle(risk, order.orderId, 0)
      case Err(e) => Step(g.(risk := risk), Err(RiskStateBroken(e)), reports)
      case Ok(released) => Step(g.(risk := released), Ok(GatewayOutcome.Accepted(summary)), reports)
    else Step(g.(risk := risk), Ok(GatewayOutcome.Accepted(summary)), reports)
  }

  function ProcessNew(cfg: Config, g: GatewayState, order: NewOrder, room: nat): Step
    requires StockedBook(g.book)
  {
    if g.maximum.Some? && order.orderId <= g.maximum.value then Refuse(g, RiskRefused(DuplicateOrderId))
    else
      var h := g.(maximum := Some(order.orderId));
      match R.Reserve(g.risk, order, cfg.risk)
      case Err(e) => Refuse(h, RiskRefused(e))
      case Ok(reserved) =>
        match SubmitOrder(g.book, cfg.book, cfg.instrument, order, room)
        case Err(e) =>
          (match R.Settle(reserved, order.orderId, 0)
           case Err(broken) => Refuse(h.(risk := reserved), RiskStateBroken(broken))
           case Ok(released) => Refuse(h.(risk := released), BookRefused(e)))
        case Ok(done) =>
          AfterSubmit(h.(risk := reserved, book := done.book), order, done.summary, ReportsOf(order, done.fills))
  }

  function ProcessReplace(cfg: Config, g: GatewayState, replace: ReplaceOrder): Step {
    match R.Adjust(g.risk, replace.orderId, replace.accountId, replace.price, replace.quantity)
    case Err(e) => Refuse(g, RiskRefused(e))
    case Ok(adjusted) =>
      match ReplaceResting(g.book, cfg.book, cfg.instrument, replace)
      case Ok(done) => Step(g.(risk := adjusted.state, book := done.0), Ok(Replaced(done.1)), [])
      case Err(e) =>
        match R.Restore(adjusted.state, replace.orderId, replace.accountId, adjusted.prior)
        case Err(broken) => Refuse(g.(risk := adjusted.state), RiskStateBroken(broken))
        case Ok(restored) => Refuse(g.(risk := restored), BookRefused(e))
  }

  function ProcessCancel(cfg: Config, g: GatewayState, cancel: CancelOrder): Step {
    var defect := R.OwnerDefect(g.risk, cancel.orderId, cancel.accountId);
    if defect.Some? then Refuse(g, RiskRefused(defect.value))
    else match CancelResting(g.book, cfg.instrument, cancel)
      case Err(e) => Refuse(g, BookRefused(e))
      case Ok(done) =>
        var h := g.(book := done.0);
        match R.CancelReservation(g.risk, cancel.orderId, cancel.accountId)
        case Err(e) => Refuse(h, RiskStateBroken(e))
        case Ok(released) =>
          if released.1 != done.1.quantity then Refuse(h.(risk := released.0), RiskStateBroken(ArithmeticOverflow))
          else Step(h.(risk := released.0), Ok(Cancelled(done.1)), [])
  }

  /** Sequence admission, without changing anything. */
  function SequenceDefect(g: GatewayState, received: Sequence): Option<GatewayError> {
    if received != g.expected then Some(SequenceGap(g.expected, received))
    else if g.expected + 1 >= U64_BOUND then Some(RiskStateBroken(ArithmeticOverflow))
    else None
  }

  /** One command. `room` is the capacity of the caller's report buffer. */
  function Process(cfg: Config, g: GatewayState, command: Command, room: nat): Step
    requires StockedBook(g.book)
  {
    var defect := SequenceDefect(g, command.SequenceOf());
    if defect.Some? then Refuse(g, defect.value)
    else
      var h := g.(expected := g.expected + 1);
      match command
      case New(order) => ProcessNew(cfg, h, order, room)
      case Cancel(cancel) => ProcessCancel(cfg, h, cancel)
      case Replace(replace) => ProcessReplace(cfg, h, replace)
  }
}
