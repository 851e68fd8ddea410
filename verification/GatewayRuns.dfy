/** The gateway invariant over every command and every run: internal errors cannot
    happen, refusals change nothing that trades, positions are conserved. */
module GatewayRuns {
  import opened Types
  import opened PriceLevels
  import opened BookSpec
  import opened BookLaws
  import opened BookIds
  import opened Priority
  import opened Reports
  import opened GatewaySpec
  import opened GatewayLaws
  import R = RiskSpec

  /** The state a command is processed in, once its sequence number is admitted. */
  ghost predicate Admitted(cfg: Config, g: GatewayState, sequence: Sequence) {
    && 0 < cfg.book.orders && 0 < sequence && g.expected == sequence + 1
    && SoundBook(g.book, cfg.book, sequence) && R.SoundRisk(g.risk, cfg.risk)
    && Paired(g.book, g.risk.reservations, {})
    && AtMost(g.risk.maximum, g.maximum)
  }

  /** A refusal of the command itself, by a risk limit or by the book. */
  predicate Business(e: GatewayError) {
    e.RiskRefused? || e.BookRefused?
  }

  /** `s` is a sound outcome of a command processed in `g`. */
  ghost predicate GoodStep(cfg: Config, g: GatewayState, s: Step) {
    && SoundGateway(cfg, s.state) && s.state.expected == g.expected
    && (s.result.Err? ==> Business(s.result.error))
    && R.NetPosition(s.state.risk.accounts) == R.NetPosition(g.risk.accounts)
    && (s.result.Err? ==> Unmoved(g, s.state) && s.reports == [])
  }

  /** Only watermarks differ: the book, every account and every reservation are equal. */
  predicate Unmoved(g: GatewayState, h: GatewayState) {
    h.book == g.book && h.risk == g.risk.(maximum := h.risk.maximum) && AtMost(g.maximum, h.maximum)
  }

  lemma {:induction false} RefusedGood(cfg: Config, g: GatewayState, h: GatewayState, sequence: Sequence, e: GatewayError)
    requires Admitted(cfg, g, sequence) && h.book == g.book && h.expected == g.expected
    requires h.risk == g.risk.(maximum := h.risk.maximum) && AtMost(g.risk.maximum, h.risk.maximum)
    requires AtMost(g.maximum, h.maximum) && AtMost(h.risk.maximum, h.maximum) && Business(e)
    ensures GoodStep(cfg, g, Refuse(h, e))
  {
    hide SoundBook, R.Accounted, R.NetPosition, Paired;
    SoundLater(g.book, cfg.book, sequence, g.expected);
  }

  // New orders.

  /** A reservation released unfilled leaves only the watermark behind. */
  lemma {:induction false} ReserveUndone(cfg: Config, s: R.RiskState, order: NewOrder)
    requires R.SoundRisk(s, cfg.risk) && R.Reserve(s, order, cfg.risk).Ok?
    ensures R.Settle(R.Reserve(s, order, cfg.risk).value, order.orderId, 0) == Ok(s.(maximum := Some(order.orderId)))
  {
    R.ReserveSound(s, order, cfg.risk);
    ReserveIs(s, order, cfg.risk);
    ReservedFits(s, order.accountId, cfg.risk);
    hide R.SoundRisk, R.Reserve, R.EvaluateLimits, R.ExposureAfterFill, R.Settle;
    var a := s.accounts[order.accountId];
    EvaluateUndone(a, order);
    SettleBack(s, order.orderId, R.Reservation(order.accountId, order.side, order.quantity), a, R.EvaluateLimits(a, order).value);
  }

  /** Opening a reservation and closing it unfilled gives the accounts back. */
  lemma {:induction false} SettleBack(s: R.RiskState, id: OrderId, r: R.Reservation, a: R.Account, b: R.Account)
    requires id !in s.reservations && r.account in s.accounts && s.accounts[r.account] == a
    requires b.open == a.open + 1 && R.ExposureAfterFill(b, r.side, 0, r.quantity) == Ok(a.(open := b.open))
    ensures R.Settle(R.RiskState(s.accounts[r.account := b], s.reservations[id := r], Some(id), s.killed), id, 0)
            == Ok(s.(maximum := Some(id)))
  {
    hide R.ExposureAfterFill;
    assert s.accounts[r.account := b][r.account := a] == s.accounts;
    assert s.reservations[id := r] - {id} == s.reservations;
  }

  lemma {:induction false} ReserveIs(s: R.RiskState, order: NewOrder, shape: R.RiskShape)
    requires R.Reserve(s, order, shape).Ok?
    ensures order.quantity > 0 && order.accountId in s.accounts && R.EvaluateLimits(s.accounts[order.accountId], order).Ok?
    ensures var a := R.EvaluateLimits(s.accounts[order.accountId], order).value;
            R.Reserve(s, order, shape).value
            == R.RiskState(s.accounts[order.accountId := a],
                           s.reservations[order.orderId := R.Reservation(order.accountId, order.side, order.quantity)],
                           Some(order.orderId), s.killed)
  {
    hide R.EvaluateLimits;
  }

  lemma {:induction false} EvaluateUndone(a: R.Account, order: NewOrder)
    requires R.EvaluateLimits(a, order).Ok? && R.FitsI128(a.settled)
    ensures var b := R.EvaluateLimits(a, order).value;
            b.open == a.open + 1 && R.ExposureAfterFill(b, order.side, 0, order.quantity) == Ok(a.(open := b.open))
  {
    R.EvaluateReserves(a, order);
    hide R.EvaluateLimits;
  }

  lemma {:induction false} ReservedFits(s: R.RiskState, id: AccountId, shape: R.RiskShape)
    requires R.SoundRisk(s, shape) && id in s.accounts
    ensures R.FitsI128(s.accounts[id].settled)
  {
  }

  /** The reservation just made is the only one without a resting order. */
  lemma {:induction false} ReservedHolds(cfg: Config, b: Book, s: R.RiskState, order: NewOrder)
    requires R.SoundRisk(s, cfg.risk) && Paired(b, s.reservations, {}) && R.Reserve(s, order, cfg.risk).Ok?
    ensures order.quantity > 0 && order.orderId !in s.reservations
    ensures !HasId(b.bids, order.orderId) && !HasId(b.asks, order.orderId)
    ensures Holding(b, R.Reserve(s, order, cfg.risk).value, order, order.quantity)
  {
    R.ReserveSound(s, order, cfg.risk);
    ReserveIs(s, order, cfg.risk);
    HasIdIds(b.bids, order.orderId);
    HasIdIds(b.asks, order.orderId);
    hide R.SoundRisk, R.Reserve, R.EvaluateLimits, HasId;
    PairedReopened(b, s.reservations, R.Reserve(s, order, cfg.risk).value.reservations, order.orderId);
    hide Paired;
  }

  /** The discarded remainder of an order that does not rest gives its reservation back. */
  lemma {:induction false} DiscardReleases(cfg: Config, b: Book, risk: R.RiskState, order: NewOrder, rem: Quantity)
    requires R.SoundRisk(risk, cfg.risk) && Holding(b, risk, order, rem) && rem > 0
    requires !HasId(b.bids, order.orderId) && !HasId(b.asks, order.orderId)
    ensures R.Settle(risk, order.orderId, 0).Ok?
    ensures var t := R.Settle(risk, order.orderId, 0).value;
            && R.SoundRisk(t, cfg.risk) && Paired(b, t.reservations, {})
            && R.NetPosition(t.accounts) == R.NetPosition(risk.accounts) && t.maximum == risk.maximum
  {
    R.CloseSound(risk, order.orderId, 0, cfg.risk);
    R.CloseKeepsPosition(risk, order.orderId);
    hide R.SoundRisk, R.NetPosition, Paired;
    ExtraFilled(b, risk.reservations, order.orderId, rem);
  }

  /** Settling an accepted submission: every fill is recorded, the rest reserved or released. */
  lemma {:induction false} AcceptedSettles(cfg: Config, g: GatewayState, order: NewOrder, room: nat, reserved: R.RiskState)
    requires SoundKeys(g.book) && StockedBook(g.book) && R.SoundRisk(reserved, cfg.risk)
    requires Holding(g.book, reserved, order, order.quantity)
    requires !HasId(g.book.bids, order.orderId) && !HasId(g.book.asks, order.orderId)
    requires SubmitOrder(g.book, cfg.book, cfg.instrument, order, room).Ok?
    ensures var done := SubmitOrder(g.book, cfg.book, cfg.instrument, order, room).value;
            var s := AfterSubmit(g.(risk := reserved, book := done.book), order, done.summary, ReportsOf(order, done.fills));
            && s.result == Ok(GatewayOutcome.Accepted(done.summary)) && s.state == g.(book := done.book, risk := s.state.risk)
            && R.SoundRisk(s.state.risk, cfg.risk) && Paired(done.book, s.state.risk.reservations, {})
            && R.NetPosition(s.state.risk.accounts) == R.NetPosition(reserved.accounts)
            && s.state.risk.maximum == reserved.maximum
  {
    hide R.SoundRisk, R.NetPosition, R.Settle, Paired, SoundKeys, HasId, Match, SubmitOrder, AddOrder, Stocked, SettleReports, RestRejection, Validate, ReportsOf;
    AcceptedShape(g.book, cfg.book, cfg.instrument, order, room);
    MatchSettles(cfg, g.book, reserved, order, order.quantity);
    var m := Match(order.side, order.price, g.book.At(order.side.Opposite()), order.quantity);
    var done := SubmitOrder(g.book, cfg.book, cfg.instrument, order, room).value;
    var matched := AfterMatch(g.book, order);
    var after := SettleReports(reserved, ReportsOf(order, done.fills)).0;
    if m.remaining > 0 {
      if Rests(order.tif) {
        PairedAdd(matched, order.side, order.price, Order(order.orderId, order.accountId, m.remaining, order.sequence), after.reservations);
      } else {
        MatchIdsGone(g.book, order);
        DiscardReleases(cfg, matched, after, order, m.remaining);
      }
    }
  }

  lemma {:induction false} MatchIdsGone(b: Book, order: NewOrder)
    requires StockedBook(b) && !HasId(b.bids, order.orderId) && !HasId(b.asks, order.orderId)
    ensures !HasId(AfterMatch(b, order).bids, order.orderId) && !HasId(AfterMatch(b, order).asks, order.orderId)
  {
    hide HasId, Match, Stocked, Narrower, Flatten;
    var maker := order.side.Opposite();
    MatchNarrower(order.side, order.price, b.At(maker), order.quantity);
    NarrowerKeys(Flatten(AfterMatch(b, order).At(maker)), Flatten(b.At(maker)));
    IdsNarrower(AfterMatch(b, order).At(maker), b.At(maker), order.orderId);
  }

  lemma {:induction false} NarrowerKeys(x: seq<Resting>, y: seq<Resting>)
    requires Narrower(x, y)
    ensures KeysAmong(x, y)
  {
  }

  lemma {:induction false} NewKeeps(cfg: Config, g: GatewayState, order: NewOrder, room: nat)
    requires Admitted(cfg, g, order.sequence)
    ensures StockedBook(g.book) && GoodStep(cfg, g, ProcessNew(cfg, g, order, room))
  {
    hide SoundBook, R.SoundRisk, R.NetPosition, R.Reserve, R.Settle, SubmitOrder, AfterSubmit, Paired, Holding, SoundKeys, HasId;
    SoundStocked(g.book, cfg.book, order.sequence);
    SoundHasKeys(g.book, cfg.book, order.sequence);
    if g.maximum.Some? && order.orderId <= g.maximum.value {
      RefusedGood(cfg, g, g, order.sequence, RiskRefused(DuplicateOrderId));
    } else {
      var h := g.(maximum := Some(order.orderId));
      if R.Reserve(g.risk, order, cfg.risk).Err? {
        RefusedGood(cfg, g, h, order.sequence, RiskRefused(R.Reserve(g.risk, order, cfg.risk).error));
      } else {
        ReserveMaximum(g.risk, order, cfg.risk);
        var reserved := R.Reserve(g.risk, order, cfg.risk).value;
        R.ReserveSound(g.risk, order, cfg.risk);
        R.ReserveKeepsPosition(g.risk, order, cfg.risk);
        ReservedHolds(cfg, g.book, g.risk, order);
        SubmitSound(g.book, cfg.book, cfg.instrument, order, room, order.sequence);
        if SubmitOrder(g.book, cfg.book, cfg.instrument, order, room).Err? {
          ReserveUndone(cfg, g.risk, order);
          var refused := SubmitOrder(g.book, cfg.book, cfg.instrument, order, room).error;
          RefusedGood(cfg, g, h.(risk := g.risk.(maximum := Some(order.orderId))), order.sequence, BookRefused(refused));
        } else {
          AcceptedSettles(cfg, h, order, room, reserved);
        }
      }
    }
  }

  /** An accepted new order was reserved, then submitted, then settled. */
  lemma {:induction false} NewOutcome(cfg: Config, g: GatewayState, order: NewOrder, room: nat)
    requires StockedBook(g.book) && ProcessNew(cfg, g, order, room).result.Ok?
    ensures R.Reserve(g.risk, order, cfg.risk).Ok? && SubmitOrder(g.book, cfg.book, cfg.instrument, order, room).Ok?
    ensures var done := SubmitOrder(g.book, cfg.book, cfg.instrument, order, room).value;
            ProcessNew(cfg, g, order, room)
            == AfterSubmit(g.(risk := R.Reserve(g.risk, order, cfg.risk).value, maximum := Some(order.orderId), book := done.book),
                           order, done.summary, ReportsOf(order, done.fills))
  {
    hide R.Reserve, SubmitOrder, Stocked, R.Settle, AfterSubmit;
  }

  lemma {:induction false} ReserveMaximum(s: R.RiskState, order: NewOrder, shape: R.RiskShape)
    requires R.Reserve(s, order, shape).Ok?
    ensures R.Reserve(s, order, shape).value.maximum == Some(order.orderId)
    ensures AtMost(s.maximum, Some(order.orderId))
  {
    hide R.EvaluateLimits;
  }

  lemma {:induction false} SoundHasKeys(b: Book, shape: Shape, next: int)
    requires SoundBook(b, shape, next)
    ensures SoundKeys(b)
  {
    hide GoodSide, DistinctKeys, Apart;
  }

  // Cancels.

  lemma {:induction false} CancelKeeps(cfg: Config, g: GatewayState, cancel: CancelOrder, sequence: Sequence)
    requires Admitted(cfg, g, sequence)
    ensures GoodStep(cfg, g, ProcessCancel(cfg, g, cancel))
  {
    hide SoundBook, R.SoundRisk, R.NetPosition, R.CancelReservation, R.OwnerDefect, CancelResting, Paired;
    var defect := R.OwnerDefect(g.risk, cancel.orderId, cancel.accountId);
    if defect.Some? {
      RefusedGood(cfg, g, g, sequence, RiskRefused(defect.value));
    } else if CancelResting(g.book, cfg.instrument, cancel).Err? {
      RefusedGood(cfg, g, g, sequence, BookRefused(CancelResting(g.book, cfg.instrument, cancel).error));
    } else {
      R.CancelReservationSound(g.risk, cancel.orderId, cancel.accountId, cfg.risk);
      CancelPairs(cfg, g, cancel, sequence);
      CancelMovesNothing(g.risk, cancel.orderId, cancel.accountId);
      CancelSound(g.book, cfg.book, cfg.instrument, cancel, sequence);
      SoundLater(CancelResting(g.book, cfg.instrument, cancel).value.0, cfg.book, sequence, g.expected);
    }
  }

  lemma {:induction false} CancelMovesNothing(s: R.RiskState, id: OrderId, account: AccountId)
    requires R.CancelReservation(s, id, account).Ok?
    ensures var t := R.CancelReservation(s, id, account).value.0;
            R.NetPosition(t.accounts) == R.NetPosition(s.accounts) && t.maximum == s.maximum
  {
    R.CloseKeepsPosition(s, id);
  }

  lemma {:induction false} CancelPairs(cfg: Config, g: GatewayState, cancel: CancelOrder, sequence: Sequence)
    requires Admitted(cfg, g, sequence) && R.OwnerDefect(g.risk, cancel.orderId, cancel.accountId).None?
    requires CancelResting(g.book, cfg.instrument, cancel).Ok?
    ensures R.Owned(g.risk, cancel.orderId, cancel.accountId)
    ensures var done := CancelResting(g.book, cfg.instrument, cancel).value;
            && done.1.quantity == g.risk.reservations[cancel.orderId].quantity
            && Paired(done.0, g.risk.reservations - {cancel.orderId}, {})
  {
    hide R.SoundRisk, SoundBook, Paired, Locate, RemoveOrder, Flatten, SoundKeys;
    PairedLocates(g.book, g.risk.reservations, {}, cancel.orderId);
    var p := Locate(g.book, cancel.orderId).value;
    var levels := g.book.At(p.side);
    SoundHasKeys(g.book, cfg.book, sequence);
    FlattenRemove(levels, p.level, p.place);
    FlattenAt(levels, p.level, p.place);
    PairedRemove(g.book, p.side, RemoveOrder(levels, p.level, p.place), Offset(levels, p.level) + p.place, g.risk.reservations, {});
  }

  // Replaces.

  lemma {:induction false} ReplaceKeeps(cfg: Config, g: GatewayState, replace: ReplaceOrder)
    requires Admitted(cfg, g, replace.sequence)
    ensures GoodStep(cfg, g, ProcessReplace(cfg, g, replace))
  {
    hide SoundBook, R.SoundRisk, R.NetPosition, R.Adjust, R.Restore, ReplaceResting, Paired;
    var id, account := replace.orderId, replace.accountId;
    var adjusted := R.Adjust(g.risk, id, account, replace.price, replace.quantity);
    if adjusted.Err? {
      RefusedGood(cfg, g, g, replace.sequence, RiskRefused(adjusted.error));
    } else if ReplaceResting(g.book, cfg.book, cfg.instrument, replace).Err? {
      R.RestoreUndoesAdjust(g.risk, id, account, replace.price, replace.quantity, cfg.risk);
      RefusedGood(cfg, g, g, replace.sequence, BookRefused(ReplaceResting(g.book, cfg.book, cfg.instrument, replace).error));
    } else {
      R.AdjustSound(g.risk, id, account, replace.price, replace.quantity, cfg.risk);
      R.AdjustKeepsPosition(g.risk, id, account, replace.price, replace.quantity);
      AdjustMaximum(g.risk, id, account, replace.price, replace.quantity);
      ReplacePairs(cfg, g, replace);
      ReplaceSound(g.book, cfg.book, cfg.instrument, replace, replace.sequence);
    }
  }

  lemma {:induction false} AdjustMaximum(s: R.RiskState, id: OrderId, account: AccountId, price: Price, quantity: Quantity)
    requires R.Adjust(s, id, account, price, quantity).Ok?
    ensures R.Adjust(s, id, account, price, quantity).value.state.maximum == s.maximum
  {
    hide R.Reserved, R.Released, R.Notional, R.PositionDefect;
  }

  lemma {:induction false} ReplacePairs(cfg: Config, g: GatewayState, replace: ReplaceOrder)
    requires Admitted(cfg, g, replace.sequence) && R.Owned(g.risk, replace.orderId, replace.accountId)
    requires ReplaceResting(g.book, cfg.book, cfg.instrument, replace).Ok?
    ensures replace.quantity > 0
    ensures Paired(ReplaceResting(g.book, cfg.book, cfg.instrument, replace).value.0,
                   g.risk.reservations[replace.orderId := g.risk.reservations[replace.orderId].(quantity := replace.quantity)], {})
  {
    hide R.SoundRisk, SoundBook, Paired, Locate, RemoveOrder, SetOrder, AddOrder, MoveRejection, Flatten, SoundKeys;
    var m := g.risk.reservations;
    PairedLocates(g.book, m, {}, replace.orderId);
    SoundHasKeys(g.book, cfg.book, replace.sequence);
    var p := Locate(g.book, replace.orderId).value;
    var levels := g.book.At(p.side);
    var at := Offset(levels, p.level) + p.place;
    FlattenAt(levels, p.level, p.place);
    var o := OrderOf(g.book, p);
    if replace.price == levels[p.level].price && replace.quantity < o.quantity {
      FlattenSet(levels, p.level, p.place, o.(quantity := replace.quantity));
      PairedUpdate(g.book, p.side, SetOrder(levels, p.level, p.place, o.(quantity := replace.quantity)), at, replace.quantity, m, {});
    } else {
      var r := RemoveOrder(levels, p.level, p.place);
      FlattenRemove(levels, p.level, p.place);
      PairedRemove(g.book, p.side, r, at, m, {});
      var moved := Order(replace.orderId, replace.accountId, replace.quantity, replace.sequence);
      var n := m[replace.orderId := m[replace.orderId].(quantity := replace.quantity)];
      var c := g.book.With(p.side, r);
      PairedReopened(c, m - {replace.orderId}, n, replace.orderId);
      PairedAdd(c, p.side, replace.price, moved, n);
    }
  }

  lemma {:induction false} PairedReopened(b: Book, m: map<OrderId, R.Reservation>, n: map<OrderId, R.Reservation>, id: OrderId)
    requires Paired(b, m, {}) && id !in m && id in n && n == m[id := n[id]]
    ensures Paired(b, n, {id})
  {
    hide Flatten, Matches;
    MatchesApart(Flatten(b.bids), Buy, m, n, id);
    MatchesApart(Flatten(b.asks), Sell, m, n, id);
  }

  // Every command.

  /** One command keeps the invariant. An internal risk-state error means exactly that
      the sequence counter is exhausted; a refusal leaves book, accounts and
      reservations as they were; no command moves the net position. */
  lemma {:induction false} ProcessKeeps(cfg: Config, g: GatewayState, command: Command, room: nat)
    requires SoundGateway(cfg, g)
    ensures StockedBook(g.book)
    ensures var s := Process(cfg, g, command, room);
            && SoundGateway(cfg, s.state)
            && (s.result.Err? && s.result.error.RiskStateBroken? <==>
                command.SequenceOf() == g.expected && g.expected + 1 == U64_BOUND)
            && (s.result.Err? ==> Unmoved(g, s.state) && s.reports == [])
            && (s.result.Err? && SequenceDefect(g, command.SequenceOf()).None? ==> Business(s.result.error))
            && R.NetPosition(s.state.risk.accounts) == R.NetPosition(g.risk.accounts)
            && s.state.expected == g.expected + (if SequenceDefect(g, command.SequenceOf()).None? then 1 else 0)
            && (SequenceDefect(g, command.SequenceOf()).Some? ==> s.state == g)
  {
    hide SoundBook, R.SoundRisk, R.NetPosition, Paired, ProcessNew, ProcessCancel, ProcessReplace;
    SoundStocked(g.book, cfg.book, g.expected);
    if SequenceDefect(g, command.SequenceOf()).None? {
      var h := g.(expected := g.expected + 1);
      match command
      case New(order) => NewKeeps(cfg, h, order, room);
      case Cancel(cancel) => CancelKeeps(cfg, h, cancel, g.expected);
      case Replace(replace) => ReplaceKeeps(cfg, h, replace);
    }
  }

  /** A gateway built around an idle risk engine and an empty book. */
  lemma {:induction false} FreshSound(cfg: Config, risk: R.RiskState)
    requires 0 < cfg.book.orders && R.SoundRisk(risk, cfg.risk) && risk.reservations == map[]
    ensures risk.maximum.None? ==> SoundGateway(cfg, GatewayState(Book([], []), risk, 1, None))
  {
    assert Flatten([]) == [];
    hide Flatten;
    assert Ids([]) == {};
  }

  // Every run.

  /** One command in a sound state. */
  ghost function Advance(cfg: Config, g: GatewayState, command: Command, room: nat): (s: Step)
    requires SoundGateway(cfg, g)
    ensures StockedBook(g.book) && s == Process(cfg, g, command, room) && SoundGateway(cfg, s.state)
  {
    ProcessKeeps(cfg, g, command, room);
    Process(cfg, g, command, room)
  }

  /** Replays `commands` from a sound state. */
  ghost function Replay(cfg: Config, g: GatewayState, commands: seq<Command>, room: nat): (h: GatewayState)
    requires SoundGateway(cfg, g)
    ensures SoundGateway(cfg, h)
    decreases |commands|
  {
    if commands == [] then g
    else
      Replay(cfg, Advance(cfg, g, commands[0], room).state, commands[1..], room)
  }

  /** What each command of a run answers. */
  ghost function Outcomes(cfg: Config, g: GatewayState, commands: seq<Command>, room: nat): (s: seq<Step>)
    requires SoundGateway(cfg, g)
    ensures |s| == |commands|
    decreases |commands|
  {
    if commands == [] then []
    else
      var s := Advance(cfg, g, commands[0], room);
      [s] + Outcomes(cfg, s.state, commands[1..], room)
  }

  /** Over any run the net position stays put, the counter never goes back, and an
      internal error appears only once the counter is exhausted. */
  lemma {:induction false} RunKeeps(cfg: Config, g: GatewayState, commands: seq<Command>, room: nat)
    requires SoundGateway(cfg, g)
    ensures R.NetPosition(Replay(cfg, g, commands, room).risk.accounts) == R.NetPosition(g.risk.accounts)
    ensures g.expected <= Replay(cfg, g, commands, room).expected <= g.expected + |commands|
    ensures g.expected + |commands| < U64_BOUND ==>
              forall k :: 0 <= k < |commands| ==>
                var r := Outcomes(cfg, g, commands, room)[k].result; !(r.Err? && r.error.RiskStateBroken?)
    decreases |commands|
  {
    hide SoundGateway, Process, R.NetPosition;
    if commands != [] {
      ProcessKeeps(cfg, g, commands[0], room);
      RunKeeps(cfg, Process(cfg, g, commands[0], room).state, commands[1..], room);
    }
  }

  /** Replaying in two parts is replaying once. */
  lemma {:induction false} ReplaySplit(cfg: Config, g: GatewayState, head: seq<Command>, tail: seq<Command>, room: nat)
    requires SoundGateway(cfg, g)
    ensures Replay(cfg, g, head + tail, room) == Replay(cfg, Replay(cfg, g, head, room), tail, room)
    ensures Outcomes(cfg, g, head + tail, room) == Outcomes(cfg, g, head, room) + Outcomes(cfg, Replay(cfg, g, head, room), tail, room)
    decreases |head|
  {
    hide SoundGateway, Process;
    if head == [] {
      assert head + tail == tail;
      assert [] + Outcomes(cfg, g, tail, room) == Outcomes(cfg, g, tail, room);
    } else {
      assert (head + tail)[1..] == head[1..] + tail;
      ProcessKeeps(cfg, g, head[0], room);
      ReplaySplit(cfg, Process(cfg, g, head[0], room).state, head[1..], tail, room);
    }
  }

  // Exposure of the book itself.

  /** Quantity one account has resting in a list. */
  function Exposure(list: seq<Resting>, account: AccountId): nat {
    if list == [] then 0
    else (if list[0].order.account == account then list[0].order.quantity else 0) + Exposure(list[1..], account)
  }

  function MeasureOf(side: Side, account: AccountId): R.Measure {
    if side == Buy then R.Bought(account) else R.Sold(account)
  }

  /** The reservations of one listed side sum to what the account rests there. */
  lemma {:induction false} ListExposure(list: seq<Resting>, side: Side, m: map<OrderId, R.Reservation>, account: AccountId)
    requires DistinctKeys(list) && Matches(list, side, m)
    requires forall id :: id in m && id !in Ids(list) ==> MeasureOf(side, account).Of(m[id]) == 0
    ensures R.Total(m, MeasureOf(side, account)) == Exposure(list, account)
    decreases |list|
  {
    var kind := MeasureOf(side, account);
    if list == [] {
      NothingMeasured(m, kind);
    } else {
      var id := list[0].order.id;
      assert list[0] in list;
      R.TotalDrop(m, id, kind);
      MatchesWithout(list, 0, side, m);
      IdsWithout(list, 0);
      assert Without(list, 0) == list[1..];
      ListExposure(list[1..], side, m - {id}, account);
    }
  }

  lemma {:induction false} NothingMeasured(m: map<OrderId, R.Reservation>, kind: R.Measure)
    requires forall id :: id in m ==> kind.Of(m[id]) == 0
    ensures R.Total(m, kind) == 0
    decreases |m|
  {
    if m != map[] {
      var id :| id in m;
      R.TotalDrop(m, id, kind);
      NothingMeasured(m - {id}, kind);
    }
  }

  /** Position safety, read off the market: if every resting order of an account on one
      side filled and none on the other, its position would still respect its limit. */
  lemma {:induction false} PositionSafety(cfg: Config, g: GatewayState, account: AccountId)
    requires SoundGateway(cfg, g) && account in g.risk.accounts
    ensures var a := g.risk.accounts[account];
            && a.buys == Exposure(Flatten(g.book.bids), account) && a.sells == Exposure(Flatten(g.book.asks), account)
            && a.settled + Exposure(Flatten(g.book.bids), account) <= a.limits.maxPosition
            && a.settled - Exposure(Flatten(g.book.asks), account) + a.limits.maxPosition >= 0
  {
    hide Flatten, GoodSide, R.Total;
    var m := g.risk.reservations;
    assert R.Accounted(g.risk.accounts[account], account, m);
    SideExposure(g.book, m, Buy, account);
    SideExposure(g.book, m, Sell, account);
  }

  lemma {:induction false} SideExposure(b: Book, m: map<OrderId, R.Reservation>, side: Side, account: AccountId)
    requires SoundKeys(b) && Paired(b, m, {})
    ensures R.Total(m, MeasureOf(side, account)) == Exposure(Flatten(b.At(side)), account)
  {
    hide Flatten;
    var list, other := Flatten(b.At(side)), Flatten(b.At(side.Opposite()));
    PairedSide(b, m, {}, side);
    forall id | id in m && id !in Ids(list) ensures MeasureOf(side, account).Of(m[id]) == 0 {
      assert id in Ids(other);
      var r :| r in other && r.order.id == id;
    }
    ListExposure(list, side, m, account);
  }
}
