/** The gateway's decisions as a rulebook: what makes it accept a command, which refusal
    comes first, and what every account, reservation and list is afterwards. */
module GatewayRules {
  import opened Types
  import opened Decisions
  import opened BookSpec
  import opened BookLaws
  import opened BookRules
  import opened RiskRules
  import opened Priority
  import opened Reports
  import opened GatewaySpec
  import opened GatewayLaws
  import opened GatewayRuns
  import PriceTime
  import R = RiskSpec

  function AsRisk(e: RejectReason): GatewayError {
    RiskRefused(e)
  }

  function AsBook(e: RejectReason): GatewayError {
    BookRefused(e)
  }

  function SequenceClauses(g: GatewayState, sequence: Sequence): seq<Clause<GatewayError>> {
    [Clause(sequence == g.expected, SequenceGap(g.expected, sequence)),
     Clause(g.expected + 1 < U64_BOUND, RiskStateBroken(ArithmeticOverflow))]
  }

  lemma {:induction false} SequenceIs(g: GatewayState, sequence: Sequence)
    ensures Verdict(SequenceClauses(g, sequence)) == SequenceDefect(g, sequence)
  {
    hide Verdict;
    TwoClauses(SequenceClauses(g, sequence)[0], SequenceClauses(g, sequence)[1]);
  }

  /** A sound gateway's book is shaped and finds every order. */
  lemma {:induction false} SoundShape(b: Book, shape: Shape, next: int)
    requires SoundBook(b, shape, next)
    ensures Shaped(b, shape) && UniqueIds(b) && StockedBook(b)
  {
    SoundHasKeys(b, shape, next);
    SoundUnique(b);
    SoundStocked(b, shape, next);
    hide UniqueIds, Flatten, DistinctKeys, Apart, Stocked, Fits;
    SoundFits(Buy, b.bids, shape, next);
    SoundFits(Sell, b.asks, shape, next);
  }

  // New orders.

  ghost function OrderClauses(cfg: Config, g: GatewayState, order: NewOrder, room: nat): seq<Clause<GatewayError>> {
    [Clause(g.maximum == None || order.orderId > g.maximum.value, RiskRefused(DuplicateOrderId))]
    + Wrapped(ReserveClauses(g.risk, order, cfg.risk), AsRisk)
    + Wrapped(SubmitClauses(g.book, cfg.book, cfg.instrument, order, room), AsBook)
  }

  ghost function NewClauses(cfg: Config, g: GatewayState, order: NewOrder, room: nat): seq<Clause<GatewayError>> {
    SequenceClauses(g, order.sequence) + OrderClauses(cfg, g, order, room)
  }

  /** The first refusal of a new order whose sequence number is admitted. */
  lemma {:induction false} NewRefusal(cfg: Config, g: GatewayState, order: NewOrder, room: nat)
    requires Admitted(cfg, g, order.sequence)
    ensures StockedBook(g.book)
    ensures match ProcessNew(cfg, g, order, room).result
            case Err(e) =>
              if g.maximum.Some? && order.orderId <= g.maximum.value then e == RiskRefused(DuplicateOrderId)
              else if R.Reserve(g.risk, order, cfg.risk).Err? then e == RiskRefused(R.Reserve(g.risk, order, cfg.risk).error)
              else
                && SubmitOrder(g.book, cfg.book, cfg.instrument, order, room).Err?
                && e == BookRefused(SubmitOrder(g.book, cfg.book, cfg.instrument, order, room).error)
            case Ok(_) =>
              && (g.maximum.Some? ==> order.orderId > g.maximum.value)
              && R.Reserve(g.risk, order, cfg.risk).Ok?
              && SubmitOrder(g.book, cfg.book, cfg.instrument, order, room).Ok?
  {
    hide SoundBook, R.SoundRisk, R.NetPosition, Paired, R.Reserve, R.Settle, SubmitOrder, AfterSubmit, SettleReports, Stocked;
    SoundStocked(g.book, cfg.book, order.sequence);
    NewKeeps(cfg, g, order, room);
    if R.Reserve(g.risk, order, cfg.risk).Ok? {
      ReserveUndone(cfg, g.risk, order);
      if SubmitOrder(g.book, cfg.book, cfg.instrument, order, room).Ok? {
        var done := SubmitOrder(g.book, cfg.book, cfg.instrument, order, room).value;
        SettlingBreaks(g.(risk := R.Reserve(g.risk, order, cfg.risk).value, maximum := Some(order.orderId), book := done.book),
                       order, done.summary, ReportsOf(order, done.fills));
      }
    }
  }

  lemma {:induction false} SettlingBreaks(g: GatewayState, order: NewOrder, summary: MatchSummary, reports: seq<ExecutionReport>)
    ensures var r := AfterSubmit(g, order, summary, reports).result; r.Ok? || r.error.RiskStateBroken?
  {
    hide SettleReports, R.Settle;
  }

  lemma {:induction false} OrderIs(cfg: Config, g: GatewayState, order: NewOrder, room: nat)
    requires Admitted(cfg, g, order.sequence)
    ensures StockedBook(g.book)
    ensures Verdict(OrderClauses(cfg, g, order, room)) ==
            match ProcessNew(cfg, g, order, room).result
            case Err(e) => Some(e)
            case Ok(_) => None
  {
    hide SoundBook, R.SoundRisk, Paired, R.Reserve, SubmitOrder, ProcessNew, Stocked, ReserveClauses, SubmitClauses, Verdict, AllHold, Wrapped, Shaped, UniqueIds;
    NewRefusal(cfg, g, order, room);
    SoundShape(g.book, cfg.book, order.sequence);
    var risk, book := ReserveClauses(g.risk, order, cfg.risk), SubmitClauses(g.book, cfg.book, cfg.instrument, order, room);
    var mark: Clause<GatewayError> := Clause(g.maximum == None || order.orderId > g.maximum.value, RiskRefused(DuplicateOrderId));
    ReserveDecided(g.risk, order, cfg.risk);
    SubmitDecided(g.book, cfg.book, cfg.instrument, order, room);
    VerdictIff(risk);
    VerdictIff(book);
    VerdictWrapped(risk, AsRisk);
    VerdictWrapped(book, AsBook);
    OneClause(mark);
    VerdictThen([mark], Wrapped(risk, AsRisk));
    VerdictThen([mark] + Wrapped(risk, AsRisk), Wrapped(book, AsBook));
  }

  /** A new order is accepted if and only if every clause holds, and otherwise gets the
      refusal of the first that fails. */
  lemma {:induction false} NewDecided(cfg: Config, g: GatewayState, order: NewOrder, room: nat)
    requires SoundGateway(cfg, g)
    ensures StockedBook(g.book)
    ensures var r := Process(cfg, g, New(order), room).result;
            && (r.Ok? <==> AllHold(NewClauses(cfg, g, order, room)))
            && (r.Err? ==> Verdict(NewClauses(cfg, g, order, room)) == Some(r.error))
  {
    hide SoundBook, R.SoundRisk, Paired, ProcessNew, Stocked, OrderClauses, SequenceClauses, Verdict, AllHold;
    SoundStocked(g.book, cfg.book, g.expected);
    SequenceIs(g, order.sequence);
    VerdictIff(NewClauses(cfg, g, order, room));
    VerdictThen(SequenceClauses(g, order.sequence), OrderClauses(cfg, g, order, room));
    if SequenceDefect(g, order.sequence).None? {
      var h := g.(expected := g.expected + 1);
      OrderIs(cfg, h, order, room);
      assert OrderClauses(cfg, h, order, room) == OrderClauses(cfg, g, order, room) by {
        SameOrderClauses(cfg, g, h, order, room);
      }
    }
  }

  lemma {:induction false} SameOrderClauses(cfg: Config, g: GatewayState, h: GatewayState, order: NewOrder, room: nat)
    requires h == g.(expected := h.expected)
    ensures OrderClauses(cfg, h, order, room) == OrderClauses(cfg, g, order, room)
  {
    hide ReserveClauses, SubmitClauses;
  }

  /** What a refused order leaves behind: the sequence number is spent, an id above the
      watermark moves it, an id that passed the risk check moves the engine's own; no list,
      account or reservation changes, and nothing is reported. */
  lemma {:induction false} NewRefusedLeaves(cfg: Config, g: GatewayState, order: NewOrder, room: nat)
    requires SoundGateway(cfg, g)
    ensures StockedBook(g.book)
    ensures var s := Process(cfg, g, New(order), room);
            var counts := Verdict(SequenceClauses(g, order.sequence)).None?;
            var newer := counts && (g.maximum == None || order.orderId > g.maximum.value);
            s.result.Err? ==>
              && s.reports == [] && s.state.book == g.book && s.state.risk == g.risk.(maximum := s.state.risk.maximum)
              && s.state.expected == g.expected + (if counts then 1 else 0)
              && s.state.maximum == (if newer then Some(order.orderId) else g.maximum)
              && s.state.risk.maximum == (if newer && AllHold(ReserveClauses(g.risk, order, cfg.risk)) then Some(order.orderId) else g.risk.maximum)
  {
    hide SoundBook, R.SoundRisk, Paired, ProcessNew, Stocked, R.Reserve, SubmitOrder, R.NetPosition, Verdict, AllHold, ReserveClauses;
    ProcessKeeps(cfg, g, New(order), room);
    SequenceIs(g, order.sequence);
    ReserveDecided(g.risk, order, cfg.risk);
    if SequenceDefect(g, order.sequence).None? {
      RefusedMarks(cfg, g.(expected := g.expected + 1), order, room);
    }
  }

  lemma {:induction false} RefusedMarks(cfg: Config, g: GatewayState, order: NewOrder, room: nat)
    requires Admitted(cfg, g, order.sequence)
    ensures StockedBook(g.book)
    ensures var s := ProcessNew(cfg, g, order, room);
            var newer := g.maximum == None || order.orderId > g.maximum.value;
            s.result.Err? ==>
              && s.state.maximum == (if newer then Some(order.orderId) else g.maximum)
              && s.state.risk.maximum == (if newer && R.Reserve(g.risk, order, cfg.risk).Ok? then Some(order.orderId) else g.risk.maximum)
  {
    hide SoundBook, R.SoundRisk, Paired, R.Reserve, R.Settle, SubmitOrder, AfterSubmit, Stocked;
    NewRefusal(cfg, g, order, room);
    if R.Reserve(g.risk, order, cfg.risk).Ok? {
      ReserveUndone(cfg, g.risk, order);
    }
  }

  /** No new order is accepted while the engine or its account is killed. */
  lemma {:induction false} KilledTradesNothing(cfg: Config, g: GatewayState, order: NewOrder, room: nat)
    requires SoundGateway(cfg, g)
    requires g.risk.killed || (order.accountId in g.risk.accounts && g.risk.accounts[order.accountId].killed)
    ensures StockedBook(g.book)
    ensures Process(cfg, g, New(order), room).result.Err? && Process(cfg, g, New(order), room).state.book == g.book
  {
    hide SoundBook, R.SoundRisk, Paired, ProcessNew, Stocked, R.Reserve, SubmitOrder, R.NetPosition;
    ProcessKeeps(cfg, g, New(order), room);
    if SequenceDefect(g, order.sequence).None? {
      NewRefusal(cfg, g.(expected := g.expected + 1), order, room);
      KilledRefuses(g.risk, order, cfg.risk);
    }
  }

  // What an accepted new order does.

  /** How a list of reports moves account `x`: each fill moves maker and taker, by the side
      of the reservation each of them held. */
  function Shift(held: map<OrderId, R.Reservation>, reports: seq<ExecutionReport>, x: AccountId): int {
    if reports == [] then 0
    else
      var r := reports[0];
      (if r.makerOrderId in held && held[r.makerOrderId].account == x then Signed(held[r.makerOrderId].side, r.quantity) else 0)
      + (if r.takerOrderId in held && held[r.takerOrderId].account == x then Signed(held[r.takerOrderId].side, r.quantity) else 0)
      + Shift(held, reports[1..], x)
  }

  function Shifts(held: map<OrderId, R.Reservation>, reports: seq<ExecutionReport>): AccountId -> int {
    (x: AccountId) => Shift(held, reports, x)
  }

  function Still(): AccountId -> int {
    (x: AccountId) => 0
  }

  function OneFill(held: map<OrderId, R.Reservation>, id: OrderId, filled: Quantity): AccountId -> int {
    (x: AccountId) => if id in held && held[id].account == x then Signed(held[id].side, filled) else 0
  }

  /** Owner and side of every reservation of `s` are those of `held`. */
  ghost predicate SameOwners(s: R.RiskState, held: map<OrderId, R.Reservation>) {
    forall id :: id in s.reservations ==>
      id in held && held[id].account == s.reservations[id].account && held[id].side == s.reservations[id].side
  }

  /** Account by account, `t` is `s` with settled positions moved by `moves`; limits and
      switches stay. */
  ghost predicate Shifted(s: R.RiskState, t: R.RiskState, moves: AccountId -> int) {
    && t.accounts.Keys == s.accounts.Keys && t.killed == s.killed && t.maximum == s.maximum
    && forall x :: x in s.accounts ==>
         && t.accounts[x].limits == s.accounts[x].limits && t.accounts[x].killed == s.accounts[x].killed
         && t.accounts[x].settled == s.accounts[x].settled + moves(x)
  }

  lemma {:induction false} FillShifts(s: R.RiskState, id: OrderId, filled: Quantity, held: map<OrderId, R.Reservation>)
    requires R.RecordFill(s, id, filled).Ok? && SameOwners(s, held)
    ensures var t := R.RecordFill(s, id, filled).value;
            && SameOwners(t, held) && id in held
            && Shifted(s, t, OneFill(held, id, filled))
  {
    hide R.RecordFill;
    FillEffect(s, id, filled);
    DischargeShifts(s, R.RecordFill(s, id, filled).value, id, filled, filled, held);
  }

  lemma {:induction false} DischargeShifts(s: R.RiskState, t: R.RiskState, id: OrderId, filled: Quantity, released: Quantity, held: map<OrderId, R.Reservation>)
    requires Discharged(s, t, id, filled, released) && SameOwners(s, held)
    ensures SameOwners(t, held) && id in held && Shifted(s, t, OneFill(held, id, filled))
  {
    assert t.accounts.Keys == s.accounts.Keys;
  }

  lemma {:induction false} SettleShifts(s: R.RiskState, reports: seq<ExecutionReport>, held: map<OrderId, R.Reservation>)
    requires SettleReports(s, reports).1.None? && SameOwners(s, held)
    ensures Shifted(s, SettleReports(s, reports).0, Shifts(held, reports))
    decreases |reports|
  {
    hide R.RecordFill, SameOwners;
    if reports != [] {
      var r := reports[0];
      var made := R.RecordFill(s, r.makerOrderId, r.quantity).value;
      FillShifts(s, r.makerOrderId, r.quantity, held);
      FillShifts(made, r.takerOrderId, r.quantity, held);
      SettleShifts(R.RecordFill(made, r.takerOrderId, r.quantity).value, reports[1..], held);
    }
  }

  lemma {:induction false} ReleaseShiftsNothing(s: R.RiskState, id: OrderId)
    requires R.Settle(s, id, 0).Ok?
    ensures Shifted(s, R.Settle(s, id, 0).value, Still())
  {
    hide R.Settle;
    SettleEffect(s, id, 0);
    var t := R.Settle(s, id, 0).value;
    assert t.accounts.Keys == s.accounts.Keys;
  }

  /** Every report tells one reached order of the facing list: who made, who took, at what
      price and how much. */
  ghost predicate ReportsReached(order: NewOrder, facing: seq<Resting>, reports: seq<ExecutionReport>) {
    && |reports| <= |facing|
    && (forall k: nat :: k < |reports| <==> Reached(order.side, order.price, order.quantity, facing, k))
    && forall k :: 0 <= k < |reports| ==>
         && reports[k].makerOrderId == facing[k].order.id && reports[k].takerOrderId == order.orderId
         && reports[k].instrument == order.instrument && reports[k].sequence == order.sequence
         && reports[k].price == facing[k].price && PriceTime.Volume(facing[..k]) <= order.quantity
         && reports[k].quantity == Lesser(facing[k].order.quantity, order.quantity - PriceTime.Volume(facing[..k]))
  }

  /** What an accepted order leaves behind: reports, lists, summary, watermarks and every
      account's position. */
  ghost predicate TradedInFull(g: GatewayState, order: NewOrder, s: Step) {
    var facing, own := Facing(g.book, order.side), Own(g.book, order.side);
    var held := g.risk.reservations[order.orderId := R.Reservation(order.accountId, order.side, order.quantity)];
    && s.result.Ok? && s.result.value.Accepted?
    && ReportsReached(order, facing, s.reports)
    && Facing(s.state.book, order.side) == Leftover(facing, |s.reports|, order.quantity)
    && AddsUp(order, MeetingVolume(order.side, order.price, facing), |s.reports|, s.result.value.summary)
    && RestsLast(order, own, s.result.value.summary.resting, Own(s.state.book, order.side))
    && s.state.expected == g.expected + 1 && s.state.maximum == Some(order.orderId)
    && s.state.risk.maximum == Some(order.orderId)
    && Shifted(g.risk.(maximum := Some(order.orderId)), s.state.risk, Shifts(held, s.reports))
  }

  lemma {:induction false} NewEffect(cfg: Config, g: GatewayState, order: NewOrder, room: nat)
    requires SoundGateway(cfg, g)
    ensures StockedBook(g.book)
    ensures Process(cfg, g, New(order), room).result.Ok? ==> TradedInFull(g, order, Process(cfg, g, New(order), room))
  {
    hide SoundBook, R.SoundRisk, Paired, ProcessNew, Stocked, R.Reserve, SubmitOrder, AfterSubmit, Executed, ReportsReached, Shifted, AddsUp, RestsLast, Leftover, Shaped, UniqueIds;
    SoundStocked(g.book, cfg.book, g.expected);
    SoundShape(g.book, cfg.book, g.expected);
    if Process(cfg, g, New(order), room).result.Ok? {
      var h := g.(expected := g.expected + 1);
      NewOutcome(cfg, h, order, room);
      var reserved := R.Reserve(g.risk, order, cfg.risk).value;
      var done := SubmitOrder(g.book, cfg.book, cfg.instrument, order, room).value;
      SubmitExecutes(g.book, cfg.book, cfg.instrument, order, room);
      ExecutionTold(g.book, order, done);
      ReservedShifts(g.risk, order, cfg.risk);
      AfterShifts(h.(risk := reserved, maximum := Some(order.orderId), book := done.book), order, done.summary, ReportsOf(order, done.fills), reserved.reservations);
      ShiftsCompose(g.risk.(maximum := Some(order.orderId)), reserved, Process(cfg, g, New(order), room).state.risk, reserved.reservations, ReportsOf(order, done.fills));
    }
  }

  lemma {:induction false} ReservedShifts(s: R.RiskState, order: NewOrder, shape: R.RiskShape)
    requires R.Reserve(s, order, shape).Ok?
    ensures var t := R.Reserve(s, order, shape).value;
            && Shifted(s.(maximum := Some(order.orderId)), t, Still()) && t.maximum == Some(order.orderId)
            && t.reservations == s.reservations[order.orderId := R.Reservation(order.accountId, order.side, order.quantity)]
            && SameOwners(t, t.reservations)
  {
    ReserveEffect(s, order, shape);
    hide R.Reserve;
  }

  lemma {:induction false} AfterShifts(g: GatewayState, order: NewOrder, summary: MatchSummary, reports: seq<ExecutionReport>, held: map<OrderId, R.Reservation>)
    requires AfterSubmit(g, order, summary, reports).result.Ok? && SameOwners(g.risk, held)
    ensures var s := AfterSubmit(g, order, summary, reports);
            && s.reports == reports && s.result == Ok(GatewayOutcome.Accepted(summary)) && s.state == g.(risk := s.state.risk)
            && Shifted(g.risk, s.state.risk, Shifts(held, reports))
  {
    hide SettleReports, R.Settle, SameOwners;
    SettleShifts(g.risk, reports, held);
    var settled := SettleReports(g.risk, reports).0;
    if R.Settle(settled, order.orderId, 0).Ok? {
      ReleaseShiftsNothing(settled, order.orderId);
    }
  }

  lemma {:induction false} ShiftsCompose(s: R.RiskState, t: R.RiskState, u: R.RiskState, held: map<OrderId, R.Reservation>, reports: seq<ExecutionReport>)
    requires Shifted(s, t, Still()) && Shifted(t, u, Shifts(held, reports))
    ensures Shifted(s, u, Shifts(held, reports)) && u.maximum == s.maximum
  {
    hide Shift;
  }

  lemma {:induction false} ExecutionTold(b: Book, order: NewOrder, done: Submitted)
    requires Executed(b, order, done)
    ensures var facing, reports := Facing(b, order.side), ReportsOf(order, done.fills);
            && |reports| == |done.fills| <= |facing| && ReportsReached(order, facing, reports)
            && Facing(done.book, order.side) == Leftover(facing, |reports|, order.quantity)
            && AddsUp(order, MeetingVolume(order.side, order.price, facing), |reports|, done.summary)
            && RestsLast(order, Own(b, order.side), done.summary.resting, Own(done.book, order.side))
  {
    hide Reached, Leftover, AddsUp, RestsLast, MeetingVolume, PriceTime.Volume, Own, Facing, ReportsOf;
    forall k | 0 <= k < |done.fills|
      ensures var r := ReportsOf(order, done.fills)[k];
              && r.makerOrderId == done.fills[k].maker && r.takerOrderId == order.orderId && r.instrument == order.instrument
              && r.price == done.fills[k].price && r.quantity == done.fills[k].quantity && r.sequence == order.sequence
    {
      ReportsTell(order, done.fills, k);
    }
  }

  // Cancels.

  /** All that the gateway asks of a cancel: an admitted sequence number, a resting order
      that is the account's, and its own instrument. */
  ghost function CancelAsks(cfg: Config, g: GatewayState, cancel: CancelOrder): seq<Clause<GatewayError>> {
    [Clause(Known(g.book, cancel.orderId), RiskRefused(UnknownOrder)),
     Clause(Known(g.book, cancel.orderId) ==>
              Own(g.book, PlaceHeld(g.book, cancel.orderId).0)[PlaceHeld(g.book, cancel.orderId).1].order.account == cancel.accountId,
            RiskRefused(NotOrderOwner)),
     Clause(cancel.instrument == cfg.instrument, BookRefused(InvalidInstrument))]
  }

  ghost function GatewayCancelClauses(cfg: Config, g: GatewayState, cancel: CancelOrder): seq<Clause<GatewayError>> {
    SequenceClauses(g, cancel.sequence) + CancelAsks(cfg, g, cancel)
  }

  /** What an accepted cancel leaves behind: its side without the order, its reservation
      gone, its owner's totals down by what it held; nothing else. */
  ghost predicate CancelledInFull(g: GatewayState, counted: Sequence, cancel: CancelOrder, s: Step) {
    && s.result.Ok? && s.result.value.Cancelled? && s.reports == []
    && Withdrawn(g.book, cancel, s.state.book, s.result.value.cancelled)
    && cancel.orderId in g.risk.reservations && g.risk.reservations[cancel.orderId].quantity == s.result.value.cancelled.quantity
    && Discharged(g.risk, s.state.risk, cancel.orderId, 0, s.result.value.cancelled.quantity)
    && s.state.expected == counted && s.state.maximum == g.maximum
  }

  /** Reservation and resting order of an id tell the same. */
  lemma {:induction false} HeldReserved(g: GatewayState, id: OrderId)
    requires Paired(g.book, g.risk.reservations, {}) && UniqueIds(g.book)
    ensures Known(g.book, id) <==> id in g.risk.reservations
    ensures Known(g.book, id) ==>
              var (side, k) := PlaceHeld(g.book, id);
              && k < |Own(g.book, side)|
              && g.risk.reservations[id] == R.Reservation(Own(g.book, side)[k].order.account, side, Own(g.book, side)[k].order.quantity)
  {
    hide Paired, UniqueIds, Locate, Known, PlaceHeld, Own;
    PairedLocates(g.book, g.risk.reservations, {}, id);
    HeldIs(g.book, id);
    if Locate(g.book, id).Some? {
      LocateOnList(g.book, id);
    }
  }

  lemma {:induction false} CancelRefusal(cfg: Config, g: GatewayState, cancel: CancelOrder, sequence: Sequence)
    requires Admitted(cfg, g, sequence)
    ensures match ProcessCancel(cfg, g, cancel).result
            case Err(e) =>
              if cancel.orderId !in g.risk.reservations then e == RiskRefused(UnknownOrder)
              else if g.risk.reservations[cancel.orderId].account != cancel.accountId then e == RiskRefused(NotOrderOwner)
              else
                && CancelResting(g.book, cfg.instrument, cancel).Err?
                && e == BookRefused(CancelResting(g.book, cfg.instrument, cancel).error)
            case Ok(_) => R.Owned(g.risk, cancel.orderId, cancel.accountId) && CancelResting(g.book, cfg.instrument, cancel).Ok?
  {
    hide SoundBook, R.SoundRisk, R.NetPosition, Paired, R.CancelReservation, CancelResting;
    CancelKeeps(cfg, g, cancel, sequence);
  }

  lemma {:induction false} AsksIs(cfg: Config, g: GatewayState, cancel: CancelOrder, sequence: Sequence)
    requires Admitted(cfg, g, sequence)
    ensures Verdict(CancelAsks(cfg, g, cancel)) ==
            match ProcessCancel(cfg, g, cancel).result
            case Err(e) => Some(e)
            case Ok(_) => None
  {
    hide SoundBook, R.SoundRisk, Paired, ProcessCancel, CancelResting, Verdict, AllHold, IdentityClauses, Known, PlaceHeld, Own, UniqueIds, Shaped, Withdrawn;
    SoundShape(g.book, cfg.book, sequence);
    HeldReserved(g, cancel.orderId);
    CancelRefusal(cfg, g, cancel, sequence);
    CancelDecided(g.book, cfg.instrument, cancel);
    IdentityTold(g.book, cfg.instrument, cancel.instrument, cancel.orderId, cancel.accountId);
    var c := CancelAsks(cfg, g, cancel);
    ThreeClauses(c[0], c[1], c[2]);
  }

  lemma {:induction false} IdentityTold(b: Book, instrument: InstrumentId, named: InstrumentId, id: OrderId, account: AccountId)
    ensures var c := IdentityClauses(b, instrument, named, id, account);
            && Verdict(c) == (if named != instrument then Some(InvalidInstrument) else if !Known(b, id) then Some(UnknownOrder)
                              else if Own(b, PlaceHeld(b, id).0)[PlaceHeld(b, id).1].order.account != account then Some(NotOrderOwner) else None)
            && (AllHold(c) <==> Verdict(c).None?)
  {
    hide Verdict, AllHold, Known, PlaceHeld, Own;
    var c := IdentityClauses(b, instrument, named, id, account);
    ThreeClauses(c[0], c[1], c[2]);
    VerdictIff(c);
  }

  /** A cancel is accepted if and only if every clause holds, and otherwise gets the refusal
      of the first that fails. */
  lemma {:induction false} GatewayCancelDecided(cfg: Config, g: GatewayState, cancel: CancelOrder, room: nat)
    requires SoundGateway(cfg, g)
    ensures StockedBook(g.book)
    ensures var s := Process(cfg, g, Cancel(cancel), room);
            && (s.result.Ok? <==> AllHold(GatewayCancelClauses(cfg, g, cancel)))
            && (s.result.Err? ==> Verdict(GatewayCancelClauses(cfg, g, cancel)) == Some(s.result.error))
            && (s.result.Ok? ==> CancelledInFull(g, g.expected + 1, cancel, s))
  {
    hide SoundBook, R.SoundRisk, Paired, ProcessCancel, Stocked, CancelAsks, SequenceClauses, Verdict, AllHold, Withdrawn, Discharged;
    SoundStocked(g.book, cfg.book, g.expected);
    SequenceIs(g, cancel.sequence);
    VerdictIff(GatewayCancelClauses(cfg, g, cancel));
    VerdictThen(SequenceClauses(g, cancel.sequence), CancelAsks(cfg, g, cancel));
    if SequenceDefect(g, cancel.sequence).None? {
      var h := g.(expected := g.expected + 1);
      AsksIs(cfg, h, cancel, g.expected);
      SameAsks(cfg, g, h, cancel);
      if ProcessCancel(cfg, h, cancel).result.Ok? {
        CancelEffect(cfg, h, cancel, g.expected);
      }
    }
  }

  lemma {:induction false} SameAsks(cfg: Config, g: GatewayState, h: GatewayState, cancel: CancelOrder)
    requires h.book == g.book
    ensures CancelAsks(cfg, h, cancel) == CancelAsks(cfg, g, cancel)
  {
  }

  lemma {:induction false} CancelEffect(cfg: Config, g: GatewayState, cancel: CancelOrder, sequence: Sequence)
    requires Admitted(cfg, g, sequence) && ProcessCancel(cfg, g, cancel).result.Ok?
    ensures CancelledInFull(g, g.expected, cancel, ProcessCancel(cfg, g, cancel))
  {
    hide SoundBook, R.SoundRisk, Paired, CancelResting, R.CancelReservation, Verdict, AllHold, Withdrawn, Discharged, UniqueIds, Shaped;
    SoundShape(g.book, cfg.book, sequence);
    CancelDecided(g.book, cfg.instrument, cancel);
    CancelReservationDecided(g.risk, cancel.orderId, cancel.accountId, cfg.risk);
  }

  // Replaces.

  ghost function AmendClauses(cfg: Config, g: GatewayState, replace: ReplaceOrder): seq<Clause<GatewayError>> {
    Wrapped(AdjustClauses(g.risk, replace.orderId, replace.accountId, replace.price, replace.quantity), AsRisk)
    + Wrapped(ReplaceClauses(g.book, cfg.book, cfg.instrument, replace), AsBook)
  }

  ghost function GatewayReplaceClauses(cfg: Config, g: GatewayState, replace: ReplaceOrder): seq<Clause<GatewayError>> {
    SequenceClauses(g, replace.sequence) + AmendClauses(cfg, g, replace)
  }

  /** What an accepted replace leaves behind: the order repriced, its reservation at the new
      quantity and its owner's total to match; nothing else. */
  ghost predicate AmendedInFull(g: GatewayState, counted: Sequence, replace: ReplaceOrder, s: Step) {
    && s.result.Ok? && s.result.value.Replaced? && s.reports == []
    && Repriced(g.book, replace, s.state.book, s.result.value.replaced)
    && Adjusts(g.risk, s.state.risk, replace.orderId, replace.quantity)
    && s.state.expected == counted && s.state.maximum == g.maximum
  }

  lemma {:induction false} AmendIs(cfg: Config, g: GatewayState, replace: ReplaceOrder)
    requires Admitted(cfg, g, replace.sequence)
    ensures var s := ProcessReplace(cfg, g, replace);
            && Verdict(AmendClauses(cfg, g, replace)) == (match s.result case Err(e) => Some(e) case Ok(_) => None)
            && (s.result.Ok? ==> AmendedInFull(g, g.expected, replace, s))
  {
    hide SoundBook, R.SoundRisk, Paired, R.Adjust, R.Restore, ReplaceResting, AdjustClauses, ReplaceClauses, Verdict, AllHold, Wrapped, Shaped, UniqueIds, Repriced, Adjusts;
    var id, account := replace.orderId, replace.accountId;
    var risk, book := AdjustClauses(g.risk, id, account, replace.price, replace.quantity), ReplaceClauses(g.book, cfg.book, cfg.instrument, replace);
    SoundShape(g.book, cfg.book, replace.sequence);
    AdjustDecided(g.risk, id, account, replace.price, replace.quantity, cfg.risk);
    AdjustEffect(g.risk, id, account, replace.price, replace.quantity, cfg.risk);
    ReplaceDecided(g.book, cfg.book, cfg.instrument, replace);
    if R.Adjust(g.risk, id, account, replace.price, replace.quantity).Ok? {
      R.RestoreUndoesAdjust(g.risk, id, account, replace.price, replace.quantity, cfg.risk);
    }
    VerdictIff(risk);
    VerdictIff(book);
    VerdictWrapped(risk, AsRisk);
    VerdictWrapped(book, AsBook);
    VerdictThen(Wrapped(risk, AsRisk), Wrapped(book, AsBook));
  }

  /** A replace is accepted if and only if every clause holds, and otherwise gets the
      refusal of the first that fails. */
  lemma {:induction false} GatewayReplaceDecided(cfg: Config, g: GatewayState, replace: ReplaceOrder, room: nat)
    requires SoundGateway(cfg, g)
    ensures StockedBook(g.book)
    ensures var s := Process(cfg, g, Replace(replace), room);
            && (s.result.Ok? <==> AllHold(GatewayReplaceClauses(cfg, g, replace)))
            && (s.result.Err? ==> Verdict(GatewayReplaceClauses(cfg, g, replace)) == Some(s.result.error))
            && (s.result.Ok? ==> AmendedInFull(g, g.expected + 1, replace, s))
  {
    hide SoundBook, R.SoundRisk, Paired, ProcessReplace, Stocked, SequenceClauses, Verdict, AllHold, Repriced, Adjusts, AdjustClauses, ReplaceClauses;
    SoundStocked(g.book, cfg.book, g.expected);
    SequenceIs(g, replace.sequence);
    VerdictIff(GatewayReplaceClauses(cfg, g, replace));
    VerdictThen(SequenceClauses(g, replace.sequence), AmendClauses(cfg, g, replace));
    if SequenceDefect(g, replace.sequence).None? {
      AmendIs(cfg, g.(expected := g.expected + 1), replace);
    }
  }
}
