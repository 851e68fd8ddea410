/** The gateway as an object: risk engine and book behind one sequence counter. */
module Gateways {
  import opened Types
  import opened BookSpec
  import opened Reports
  import opened GatewaySpec
  import B = OrderBooks
  import E = RiskEngines
  import O = OrderIndexing
  import P = PriceLevels
  import R = RiskSpec

  class Gateway {
    const risk: E.RiskEngine
    const book: B.OrderBook
    var expected: Sequence
    var maximum: Option<OrderId>

    function Cfg(): Config {
      Config(book.instrument, book.shape, risk.shape)
    }

    /** What the gateway stands for. */
    ghost function View(): GatewayState
      reads this, risk, book, book.bidLevels, book.askLevels
    {
      GatewayState(book.View(), risk.state, expected, maximum)
    }

    /** Book and risk share no storage. */
    ghost predicate Separate() {
      book.index.slots != risk.accountIndex.slots && book.index.slots != risk.seatIndex.slots
    }

    ghost predicate Valid()
      reads this, risk, risk.cells, risk.seats, risk.accountIndex.slots, risk.seatIndex.slots
      reads book, book.index.slots, book.bidLevels, book.askLevels
    {
      Separate() && risk.Valid() && book.Valid() && StockedBook(book.View())
    }

    constructor (risk: E.RiskEngine, instrument: InstrumentId, shape: Shape)
      requires risk.Valid()
      requires 0 < shape.orders < P.NIL && O.PLANES * (shape.levels * shape.orders) <= U32_BOUND
      ensures Valid() && this.risk == risk && fresh(book) && book.shape == shape && book.instrument == instrument
      ensures View() == GatewayState(Book([], []), risk.state, 1, None)
    {
      hide E.RiskEngine.Valid, B.OrderBook.Valid, B.OrderBook.View, StockedBook;
      this.risk := risk;
      book := new B.OrderBook(instrument, shape);
      expected := 1;
      maximum := None;
      new;
      book.ViewStocked();
    }

    /** A gateway around restored parts. */
    constructor Assemble(risk: E.RiskEngine, book: B.OrderBook, expected: Sequence, maximum: Option<OrderId>)
      requires risk.Valid() && book.Valid() && StockedBook(book.View())
      requires book.index.slots != risk.accountIndex.slots && book.index.slots != risk.seatIndex.slots
      ensures Valid() && this.risk == risk && this.book == book
      ensures View() == GatewayState(book.View(), risk.state, expected, maximum)
    {
      hide E.RiskEngine.Valid, B.OrderBook.Valid, B.OrderBook.View, StockedBook;
      this.risk := risk;
      this.book := book;
      this.expected := expected;
      this.maximum := maximum;
    }

    /** Sequence admission without changing anything. */
    method CheckSequence(received: Sequence) returns (r: Option<GatewayError>)
      requires Valid()
      ensures r == SequenceDefect(View(), received)
    {
      if received != expected {
        return Some(SequenceGap(expected, received));
      }
      if expected + 1 >= U64_BOUND {
        return Some(RiskStateBroken(ArithmeticOverflow));
      }
      return None;
    }

    /** Settles the fills of an accepted order, maker then taker, report by report. */
    method SettleFills(reports: ReportBuffer) returns (failed: Option<RejectReason>)
      requires Valid()
      modifies risk`freeHead, risk`free, risk`state, risk.cells, risk.seats, risk.seatIndex.slots
      ensures Valid()
      ensures (risk.state, failed) == SettleReports(old(risk.state), old(reports.entries))
      ensures book.View() == old(book.View())
    {
      hide E.RiskEngine.Valid, B.OrderBook.Valid, R.RecordFill;
      var all := reports.entries;
      assert all[0..] == all;
      for k := 0 to |all|
        invariant Valid() && reports.entries == all && book.View() == old(book.View())
        invariant SettleReports(risk.state, all[k..]) == SettleReports(old(risk.state), all)
      {
        assert all[k..][0] == all[k] && all[k..][1..] == all[k + 1..];
        var made := risk.Fill(all[k].makerOrderId, all[k].quantity);
        if made.Err? {
          return Some(made.error);
        }
        var taken := risk.Fill(all[k].takerOrderId, all[k].quantity);
        if taken.Err? {
          return Some(taken.error);
        }
      }
      failed := None;
    }

    method ProcessNewOrder(order: NewOrder, reports: ReportBuffer) returns (r: Result<GatewayOutcome, GatewayError>)
      requires Valid() && reports.Valid() && reports.entries == []
      modifies this`maximum, risk, risk.cells, risk.seats, risk.seatIndex.slots
      modifies book`bids, book`asks, book.bidLevels, book.askLevels, book.index.slots, reports
      ensures Valid() && reports.Valid()
      ensures ProcessNew(Cfg(), old(View()), order, reports.capacity) == Step(View(), r, reports.entries)
    {
      hide E.RiskEngine.Valid, B.OrderBook.Valid, R.Reserve, R.Settle, SubmitOrder, AfterSubmit, ReportsOf, B.OrderBook.View;
      if maximum.Some? && order.orderId <= maximum.value {
        return Err(RiskRefused(DuplicateOrderId));
      }
      maximum := Some(order.orderId);
      var reserved := risk.CheckAndReserve(order);
      if reserved.Err? {
        return Err(RiskRefused(reserved.error));
      }
      var submitted := book.Submit(order, reports);
      book.ViewStocked();
      if submitted.Err? {
        var undone := risk.SettleOrder(order.orderId, 0);
        return Err(if undone.Err? then RiskStateBroken(undone.error) else BookRefused(submitted.error));
      }
      ghost var done := SubmitOrder(old(book.View()), book.shape, book.instrument, order, reports.capacity).value;
      assert reports.entries == ReportsOf(order, done.fills);
      assert View() == old(View()).(maximum := maximum, risk := R.Reserve(old(risk.state), order, risk.shape).value, book := done.book);
      r := FinishSubmission(order, submitted.value, reports);
    }

    /** Settles an accepted submission and releases what it discarded. */
    method FinishSubmission(order: NewOrder, summary: MatchSummary, reports: ReportBuffer) returns (r: Result<GatewayOutcome, GatewayError>)
      requires Valid()
      modifies risk`freeHead, risk`free, risk`state, risk.cells, risk.seats, risk.seatIndex.slots
      ensures Valid()
      ensures AfterSubmit(old(View()), order, summary, reports.entries) == Step(View(), r, reports.entries)
    {
      hide E.RiskEngine.Valid, B.OrderBook.Valid, R.Settle, SettleReports, B.OrderBook.View;
      var failed := SettleFills(reports);
      if failed.Some? {
        return Err(RiskStateBroken(failed.value));
      }
      if summary.resting == 0 && summary.filled < order.quantity {
        var released := risk.SettleOrder(order.orderId, 0);
        if released.Err? {
          return Err(RiskStateBroken(released.error));
        }
      }
      r := Ok(GatewayOutcome.Accepted(summary));
    }

    /** Owned amend: the reservation adjusts first, the book follows or the
        reservation is put back. */
    method ProcessReplaceOrder(replace: ReplaceOrder, reports: ReportBuffer) returns (r: Result<GatewayOutcome, GatewayError>)
      requires Valid() && reports.entries == []
      modifies risk`state, risk.cells, risk.seats
      modifies book`bids, book`asks, book.bidLevels, book.askLevels, book.index.slots
      ensures Valid() && reports.entries == []
      ensures ProcessReplace(Cfg(), old(View()), replace) == Step(View(), r, reports.entries)
    {
      hide E.RiskEngine.Stored, B.OrderBook.Valid, R.Adjust, R.Restore, ReplaceResting, B.OrderBook.View, R.SoundRisk;
      AdjustedSound(risk.state, replace);
      var adjusted := risk.AdjustReservation(replace.orderId, replace.accountId, replace.price, replace.quantity);
      if adjusted.Err? {
        return Err(RiskRefused(adjusted.error));
      }
      var replaced := book.Replace(replace);
      book.ViewStocked();
      if replaced.Ok? {
        return Ok(Replaced(replaced.value));
      }
      var restored := risk.RestoreReservation(replace.orderId, replace.accountId, adjusted.value.1);
      match restored {
        case Err(e) => r := Err(RiskStateBroken(e));
        case Ok(_) => r := Err(BookRefused(replaced.error));
      }
    }

    /** Adjusting and then either accepting or restoring leaves sound risk state. */
    lemma {:induction false} AdjustedSound(s: R.RiskState, replace: ReplaceOrder)
      requires R.SoundRisk(s, risk.shape)
      ensures var adjusted := R.Adjust(s, replace.orderId, replace.accountId, replace.price, replace.quantity);
              adjusted.Ok? ==>
                && adjusted.value.state.maximum == s.maximum && adjusted.value.state.killed == s.killed
                && (replace.quantity > 0 ==> R.SoundRisk(adjusted.value.state, risk.shape))
                && R.Restore(adjusted.value.state, replace.orderId, replace.accountId, adjusted.value.prior) == Ok(s)
      ensures forall b: Book :: ReplaceResting(b, book.shape, book.instrument, replace).Ok? ==> replace.quantity > 0
    {
      hide R.SoundRisk, R.Reserved, R.Released, R.Notional, R.PositionDefect, Locate, MoveRejection;
      R.AdjustSound(s, replace.orderId, replace.accountId, replace.price, replace.quantity, risk.shape);
      if R.Adjust(s, replace.orderId, replace.accountId, replace.price, replace.quantity).Ok? {
        R.RestoreUndoesAdjust(s, replace.orderId, replace.accountId, replace.price, replace.quantity, risk.shape);
      }
    }

    method ProcessCancelOrder(cancel: CancelOrder, reports: ReportBuffer) returns (r: Result<GatewayOutcome, GatewayError>)
      requires Valid() && reports.entries == []
      modifies risk`freeHead, risk`free, risk`state, risk.cells, risk.seats, risk.seatIndex.slots
      modifies book`bids, book`asks, book.bidLevels, book.askLevels, book.index.slots
      ensures Valid() && reports.entries == []
      ensures ProcessCancel(Cfg(), old(View()), cancel) == Step(View(), r, reports.entries)
    {
      hide E.RiskEngine.Valid, B.OrderBook.Valid, R.CancelReservation, R.OwnerDefect, CancelResting, B.OrderBook.View;
      var defect := risk.CanCancel(cancel.orderId, cancel.accountId);
      if defect.Some? {
        return Err(RiskRefused(defect.value));
      }
      var cancelled := book.Cancel(cancel);
      book.ViewStocked();
      if cancelled.Err? {
        return Err(BookRefused(cancelled.error));
      }
      var released := risk.Cancel(cancel.orderId, cancel.accountId);
      if released.Err? {
        return Err(RiskStateBroken(released.error));
      }
      if released.value != cancelled.value.quantity {
        return Err(RiskStateBroken(ArithmeticOverflow));
      }
      r := Ok(Cancelled(cancelled.value));
    }

    /** Processes one command; storage does exactly what the specification says of
        the logical state, so equal logical states react identically. */
    method ProcessCommand(command: Command, reports: ReportBuffer) returns (r: Result<GatewayOutcome, GatewayError>)
      requires Valid()
      modifies this`expected, this`maximum, risk, risk.cells, risk.seats, risk.seatIndex.slots
      modifies book`bids, book`asks, book.bidLevels, book.askLevels, book.index.slots, reports
      ensures Valid() && reports.Valid()
      ensures Process(Cfg(), old(View()), command, reports.capacity) == Step(View(), r, reports.entries)
    {
      hide E.RiskEngine.Valid, B.OrderBook.Valid, B.OrderBook.View, ProcessNew, ProcessCancel, ProcessReplace;
      reports.Clear();
      var defect := CheckSequence(command.SequenceOf());
      if defect.Some? {
        return Err(defect.value);
      }
      expected := expected + 1;
      match command {
        case New(order) => r := ProcessNewOrder(order, reports);
        case Cancel(cancel) => r := ProcessCancelOrder(cancel, reports);
        case Replace(replace) => r := ProcessReplaceOrder(replace, reports);
      }
    }
  }
}
