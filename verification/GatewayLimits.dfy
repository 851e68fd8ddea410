/** Which commands keep a gateway restorable: all of them, except an accepted amendment
    to a price or quantity that the account's per-order limits forbid. */
module GatewayLimits {
  import opened Types
  import opened PriceLevels
  import opened BookSpec
  import opened BookLaws
  import opened BookIds
  import opened Priority
  import opened Reports
  import opened GatewaySpec
  import opened GatewayLaws
  import opened GatewayRuns
  import opened GatewayRestore
  import R = RiskSpec

  /** Same accounts with the same limits. */
  ghost predicate SameLimits(a: R.RiskState, b: R.RiskState) {
    a.accounts.Keys == b.accounts.Keys && forall id :: id in a.accounts ==> a.accounts[id].limits == b.accounts[id].limits
  }

  lemma {:induction false} SameLimitsBound(a: R.RiskState, b: R.RiskState)
    requires SameLimits(a, b)
    ensures forall t :: Bounded(a, t) <==> Bounded(b, t)
  {
  }

  lemma {:induction false} FillKeepsLimits(s: R.RiskState, id: OrderId, filled: Quantity)
    requires R.RecordFill(s, id, filled).Ok?
    ensures SameLimits(s, R.RecordFill(s, id, filled).value)
  {
  }

  lemma {:induction false} CloseKeepsLimits(s: R.RiskState, id: OrderId, filled: Quantity)
    requires id in s.reservations && R.Close(s, id, filled).Ok?
    ensures SameLimits(s, R.Close(s, id, filled).value)
  {
  }

  lemma {:induction false} ReserveKeepsLimits(s: R.RiskState, order: NewOrder, shape: R.RiskShape)
    requires R.Reserve(s, order, shape).Ok?
    ensures SameLimits(s, R.Reserve(s, order, shape).value)
  {
    ReserveIs(s, order, shape);
    R.EvaluateReserves(s.accounts[order.accountId], order);
    hide R.Reserve, R.EvaluateLimits;
  }

  lemma {:induction false} AdjustKeepsLimits(s: R.RiskState, id: OrderId, account: AccountId, price: Price, quantity: Quantity)
    requires R.Adjust(s, id, account, price, quantity).Ok?
    ensures SameLimits(s, R.Adjust(s, id, account, price, quantity).value.state)
  {
    if quantity != s.reservations[id].quantity {
      var b := R.AdjustedAccount(s, id, account, price, quantity);
      hide R.Adjust;
    }
  }

  lemma {:induction false} SettleKeepsLimits(risk: R.RiskState, reports: seq<ExecutionReport>)
    ensures SameLimits(risk, SettleReports(risk, reports).0)
    decreases |reports|
  {
    hide R.RecordFill;
    if reports != [] && R.RecordFill(risk, reports[0].makerOrderId, reports[0].quantity).Ok? {
      var made := R.RecordFill(risk, reports[0].makerOrderId, reports[0].quantity).value;
      FillKeepsLimits(risk, reports[0].makerOrderId, reports[0].quantity);
      if R.RecordFill(made, reports[0].takerOrderId, reports[0].quantity).Ok? {
        FillKeepsLimits(made, reports[0].takerOrderId, reports[0].quantity);
        SettleKeepsLimits(R.RecordFill(made, reports[0].takerOrderId, reports[0].quantity).value, reports[1..]);
      }
    }
  }

  // Resting orders only ever shrink where they stand.

  /** Every order of `x` is one of `y`, at its price and with no more quantity. */
  ghost predicate Shrunk(x: seq<Resting>, y: seq<Resting>) {
    forall r :: r in x ==> exists t :: t in y && Lessens(r, t)
  }

  predicate Lessens(r: Resting, t: Resting) {
    t.price == r.price && t.order.account == r.order.account && r.order.quantity <= t.order.quantity
  }

  lemma {:induction false} ShrunkTrans(x: seq<Resting>, y: seq<Resting>, z: seq<Resting>)
    requires Shrunk(x, y) && Shrunk(y, z)
    ensures Shrunk(x, z)
  {
    forall r | r in x ensures exists t :: t in z && Lessens(r, t) {
      var u :| u in y && Lessens(r, u);
      var t :| t in z && Lessens(u, t);
      assert Lessens(r, t);
    }
  }

  lemma {:induction false} ShrunkSelf(x: seq<Resting>)
    ensures Shrunk(x, x)
  {
    forall r | r in x ensures exists t :: t in x && Lessens(r, t) {
      assert Lessens(r, r);
    }
  }

  lemma {:induction false} ShrunkWithout(y: seq<Resting>, p: nat)
    requires p < |y|
    ensures Shrunk(Without(y, p), y)
  {
    forall r | r in Without(y, p) ensures exists t :: t in y && Lessens(r, t) {
      WithoutMembers(y, p, r);
      assert Lessens(r, r);
    }
  }

  lemma {:induction false} ShrunkUpdate(y: seq<Resting>, p: nat, r: Resting)
    requires p < |y| && Lessens(r, y[p])
    ensures Shrunk(y[p := r], y)
  {
    var x := y[p := r];
    forall u | u in x ensures exists t :: t in y && Lessens(u, t) {
      var i :| 0 <= i < |x| && x[i] == u;
      assert y[i] in y && Lessens(u, y[i]);
    }
  }

  lemma {:induction false} FillHeadShrinks(levels: seq<Level>, quantity: Quantity)
    requires InLevels(levels, 0, 0) && quantity <= levels[0].orders[0].quantity
    ensures Shrunk(Flatten(FillHead(levels, quantity)), Flatten(levels))
  {
    hide Shrunk, Flatten, RemoveOrder, SetOrder;
    var head := levels[0].orders[0];
    FlattenAt(levels, 0, 0);
    if quantity == head.quantity {
      FlattenRemove(levels, 0, 0);
      ShrunkWithout(Flatten(levels), 0);
    } else {
      var left := head.(quantity := head.quantity - quantity);
      FlattenSet(levels, 0, 0, left);
      ShrunkUpdate(Flatten(levels), 0, Resting(levels[0].price, left));
    }
  }

  lemma {:induction false} MatchShrinks(taker: Side, limit: Price, makers: seq<Level>, quantity: Quantity)
    requires Stocked(makers)
    ensures Shrunk(Flatten(Match(taker, limit, makers, quantity).makers), Flatten(makers))
    decreases quantity
  {
    hide Shrunk, Flatten, FillHead;
    if quantity != 0 && makers != [] && Crosses(taker, limit, makers[0].price) {
      assert StockedLevel(makers[0]);
      var traded := Min(quantity, makers[0].orders[0].quantity);
      FillHeadStocked(makers, traded);
      var mid := FillHead(makers, traded);
      FillHeadShrinks(makers, traded);
      MatchShrinks(taker, limit, mid, quantity - traded);
      ShrunkTrans(Flatten(Match(taker, limit, makers, quantity).makers), Flatten(mid), Flatten(makers));
    } else {
      ShrunkSelf(Flatten(makers));
    }
  }

  lemma {:induction false} LessInLimits(l: R.RiskLimits, price: Price, less: Quantity, quantity: Quantity)
    requires InLimits(l, price, quantity) && less <= quantity
    ensures InLimits(l, price, less)
  {
    assert price * less <= price * quantity;
  }

  lemma {:induction false} ShrunkBounded(risk: R.RiskState, x: seq<Resting>, y: seq<Resting>)
    requires Shrunk(x, y) && forall t :: t in y ==> Bounded(risk, t)
    ensures forall r :: r in x ==> Bounded(risk, r)
  {
    forall r | r in x ensures Bounded(risk, r) {
      var t :| t in y && Lessens(r, t);
      LessInLimits(risk.accounts[t.order.account].limits, t.price, r.order.quantity, t.order.quantity);
    }
  }

  lemma {:induction false} WithinSide(b: Book, risk: R.RiskState, side: Side)
    ensures BookWithin(b, risk) <==> (forall t :: t in Flatten(b.At(side)) ==> Bounded(risk, t))
                                     && (forall t :: t in Flatten(b.At(side.Opposite())) ==> Bounded(risk, t))
  {
    hide Flatten, Bounded;
  }

  lemma {:induction false} ShrunkSide(b: Book, risk: R.RiskState, side: Side, levels: seq<Level>)
    requires BookWithin(b, risk) && Shrunk(Flatten(levels), Flatten(b.At(side)))
    ensures BookWithin(b.With(side, levels), risk)
  {
    hide Flatten, Bounded, Shrunk, BookWithin;
    WithinSide(b, risk, side);
    WithinSide(b.With(side, levels), risk, side);
    ShrunkBounded(risk, Flatten(levels), Flatten(b.At(side)));
  }

  lemma {:induction false} AddedSide(b: Book, risk: R.RiskState, side: Side, price: Price, o: Order)
    requires BookWithin(b, risk)
    ensures BookWithin(b.With(side, AddOrder(side, b.At(side), price, o)), risk) <==> Bounded(risk, Resting(price, o))
  {
    hide Flatten, Bounded, BookWithin, AddOrder;
    var levels := AddOrder(side, b.At(side), price, o);
    WithinSide(b, risk, side);
    WithinSide(b.With(side, levels), risk, side);
    FlattenAdd(side, b.At(side), price, o);
    InsertMembers(Flatten(b.At(side)), Rank(side, b.At(side), price), Resting(price, o));
  }

  lemma {:induction false} InsertMembers(list: seq<Resting>, p: nat, r: Resting)
    requires p <= |list|
    ensures forall t :: t in InsertAt(list, p, r) <==> t in list || t == r
  {
    var after := InsertAt(list, p, r);
    forall t ensures t in after <==> t in list || t == r {
      if t in list {
        var i :| 0 <= i < |list| && list[i] == t;
        assert after[if i < p then i else i + 1] == t;
      }
      assert after[p] == r;
      if t in after && t != r {
        var i :| 0 <= i < |after| && after[i] == t;
        assert t == list[if i < p then i else i - 1];
      }
    }
  }

  lemma {:induction false} WithinCarries(b: Book, risk: R.RiskState, after: R.RiskState)
    requires SameLimits(risk, after)
    ensures BookWithin(b, risk) <==> BookWithin(b, after)
  {
    SameLimitsBound(risk, after);
    hide Bounded, Flatten;
  }

  // New orders are checked before they can rest.

  lemma {:induction false} ReservedInLimits(a: R.Account, order: NewOrder, rem: Quantity)
    requires R.EvaluateLimits(a, order).Ok? && order.price > 0 && rem <= order.quantity
    ensures InLimits(a.limits, order.price, rem)
  {
    assert R.Abs(order.price) == order.price;
    LessInLimits(a.limits, order.price, rem, order.quantity);
  }

  lemma {:induction false} NewStaysWithin(cfg: Config, g: GatewayState, order: NewOrder, room: nat)
    requires Admitted(cfg, g, order.sequence) && BookWithin(g.book, g.risk)
    ensures StockedBook(g.book)
    ensures var s := ProcessNew(cfg, g, order, room); BookWithin(s.state.book, s.state.risk)
  {
    NewKeeps(cfg, g, order, room);
    hide SoundBook, R.SoundRisk, R.NetPosition, R.Settle, Paired, BookWithin, Stocked, SubmitOrder, AfterSubmit, R.Reserve;
    var s := ProcessNew(cfg, g, order, room);
    if s.result.Err? {
      WithinCarries(g.book, g.risk, s.state.risk);
    } else {
      AcceptedStaysWithin(cfg, g, order, room);
    }
  }

  lemma {:induction false} AcceptedStaysWithin(cfg: Config, g: GatewayState, order: NewOrder, room: nat)
    requires StockedBook(g.book) && BookWithin(g.book, g.risk)
    requires ProcessNew(cfg, g, order, room).result.Ok?
    ensures var s := ProcessNew(cfg, g, order, room); BookWithin(s.state.book, s.state.risk)
  {
    var reserved := R.Reserve(g.risk, order, cfg.risk).value;
    var submitted := SubmitOrder(g.book, cfg.book, cfg.instrument, order, room);
    NewOutcome(cfg, g, order, room);
    var s := ProcessNew(cfg, g, order, room);
    hide ProcessNew, BookWithin, R.Reserve, SubmitOrder, Stocked, R.EvaluateLimits, SettleReports, R.Settle, SameLimits, AfterSubmit;
    ReserveKeepsLimits(g.risk, order, cfg.risk);
    SettleStepKeepsLimits(g.(risk := reserved, maximum := Some(order.orderId), book := submitted.value.book), order, submitted.value.summary, ReportsOf(order, submitted.value.fills));
    LimitsTrans(g.risk, reserved, s.state.risk);
    AcceptedBookWithin(cfg, g, order, room);
    WithinCarries(s.state.book, g.risk, s.state.risk);
  }

  lemma {:induction false} LimitsTrans(a: R.RiskState, b: R.RiskState, c: R.RiskState)
    requires SameLimits(a, b) && SameLimits(b, c)
    ensures SameLimits(a, c)
  {
  }

  lemma {:induction false} SettleStepKeepsLimits(g: GatewayState, order: NewOrder, summary: MatchSummary, reports: seq<ExecutionReport>)
    ensures SameLimits(g.risk, AfterSubmit(g, order, summary, reports).state.risk)
    ensures AfterSubmit(g, order, summary, reports).state.book == g.book
  {
    hide SameLimits, SettleReports, R.Close;
    SettleKeepsLimits(g.risk, reports);
    var risk := SettleReports(g.risk, reports).0;
    LimitsSelf(g.risk);
    if R.Settle(risk, order.orderId, 0).Ok? {
      CloseKeepsLimits(risk, order.orderId, 0);
      LimitsTrans(g.risk, risk, R.Settle(risk, order.orderId, 0).value);
    }
  }

  lemma {:induction false} LimitsSelf(a: R.RiskState)
    ensures SameLimits(a, a)
  {
  }

  lemma {:induction false} AcceptedBookWithin(cfg: Config, g: GatewayState, order: NewOrder, room: nat)
    requires StockedBook(g.book) && BookWithin(g.book, g.risk)
    requires R.Reserve(g.risk, order, cfg.risk).Ok? && SubmitOrder(g.book, cfg.book, cfg.instrument, order, room).Ok?
    ensures BookWithin(SubmitOrder(g.book, cfg.book, cfg.instrument, order, room).value.book, g.risk)
  {
    AcceptedShape(g.book, cfg.book, cfg.instrument, order, room);
    ReserveIs(g.risk, order, cfg.risk);
    var maker := order.side.Opposite();
    var m := Match(order.side, order.price, g.book.At(maker), order.quantity);
    assert order.price > 0;
    ReservedInLimits(g.risk.accounts[order.accountId], order, m.remaining);
    hide R.Reserve, R.EvaluateLimits, SubmitOrder, Match, Shrunk, Flatten, BookWithin, AddOrder, Stocked, InLimits, RestRejection, Validate;
    MatchShrinks(order.side, order.price, g.book.At(maker), order.quantity);
    ShrunkSide(g.book, g.risk, maker, m.makers);
    if m.remaining > 0 && Rests(order.tif) {
      AddedSide(AfterMatch(g.book, order), g.risk, order.side, order.price, Order(order.orderId, order.accountId, m.remaining, order.sequence));
    }
  }

  // Cancels and amendments.

  lemma {:induction false} CancelStaysWithin(cfg: Config, g: GatewayState, cancel: CancelOrder, sequence: Sequence)
    requires Admitted(cfg, g, sequence) && BookWithin(g.book, g.risk)
    ensures var s := ProcessCancel(cfg, g, cancel); BookWithin(s.state.book, s.state.risk)
  {
    CancelKeeps(cfg, g, cancel, sequence);
    var s := ProcessCancel(cfg, g, cancel);
    if s.result.Err? {
      hide ProcessCancel, SoundBook, R.SoundRisk, Paired, BookWithin, SameLimits;
      LimitsUnmoved(g, s.state);
      WithinCarries(g.book, g.risk, s.state.risk);
    } else {
      CancelOutcome(cfg, g, cancel);
      hide ProcessCancel, SoundBook, R.SoundRisk, Paired, BookWithin, SameLimits, CancelResting;
      CancelledBookWithin(g.book, g.risk, cfg.instrument, cancel);
      CloseKeepsLimits(g.risk, cancel.orderId, 0);
      WithinCarries(s.state.book, g.risk, s.state.risk);
    }
  }

  lemma {:induction false} CancelOutcome(cfg: Config, g: GatewayState, cancel: CancelOrder)
    requires ProcessCancel(cfg, g, cancel).result.Ok?
    ensures CancelResting(g.book, cfg.instrument, cancel).Ok? && cancel.orderId in g.risk.reservations
    ensures R.Close(g.risk, cancel.orderId, 0).Ok?
    ensures var s := ProcessCancel(cfg, g, cancel).state;
            s.book == CancelResting(g.book, cfg.instrument, cancel).value.0 && s.risk == R.Close(g.risk, cancel.orderId, 0).value
  {
    hide CancelResting, R.Close;
  }

  lemma {:induction false} CancelledBookWithin(b: Book, risk: R.RiskState, instrument: InstrumentId, cancel: CancelOrder)
    requires BookWithin(b, risk) && CancelResting(b, instrument, cancel).Ok?
    ensures BookWithin(CancelResting(b, instrument, cancel).value.0, risk)
  {
    LocatedIn(b, cancel.orderId);
    hide BookWithin, RemoveOrder, Flatten, Locate, Shrunk;
    RemovedWithin(b, risk, Locate(b, cancel.orderId).value);
  }

  lemma {:induction false} RemovedWithin(b: Book, risk: R.RiskState, p: Position)
    requires BookWithin(b, risk) && InLevels(b.At(p.side), p.level, p.place)
    ensures BookWithin(b.With(p.side, RemoveOrder(b.At(p.side), p.level, p.place)), risk)
  {
    hide BookWithin, RemoveOrder, Flatten, Shrunk;
    FlattenRemove(b.At(p.side), p.level, p.place);
    ShrunkWithout(Flatten(b.At(p.side)), Offset(b.At(p.side), p.level) + p.place);
    ShrunkSide(b, risk, p.side, RemoveOrder(b.At(p.side), p.level, p.place));
  }

  /** Reducing an order that is within limits leaves it, and the book, within limits. */
  lemma {:induction false} ReducedWithin(b: Book, risk: R.RiskState, p: Position, quantity: Quantity)
    requires BookWithin(b, risk) && InLevels(b.At(p.side), p.level, p.place) && quantity < OrderOf(b, p).quantity
    ensures BookWithin(b.With(p.side, SetOrder(b.At(p.side), p.level, p.place, OrderOf(b, p).(quantity := quantity))), risk)
    ensures OrderOf(b, p).account in risk.accounts
    ensures InLimits(risk.accounts[OrderOf(b, p).account].limits, b.At(p.side)[p.level].price, quantity)
  {
    hide SetOrder, Flatten, InLimits;
    var levels := b.At(p.side);
    var at := Offset(levels, p.level) + p.place;
    var left := OrderOf(b, p).(quantity := quantity);
    FlattenAt(levels, p.level, p.place);
    FlattenSet(levels, p.level, p.place, left);
    ShrunkUpdate(Flatten(levels), at, Resting(levels[p.level].price, left));
    WithinSide(b, risk, p.side);
    assert Flatten(levels)[at] in Flatten(levels);
    hide BookWithin, Shrunk;
    ShrunkSide(b, risk, p.side, SetOrder(levels, p.level, p.place, left));
    LessInLimits(risk.accounts[left.account].limits, levels[p.level].price, quantity, OrderOf(b, p).quantity);
  }

  lemma {:induction false} ReplaceWithinIff(cfg: Config, g: GatewayState, replace: ReplaceOrder)
    requires Admitted(cfg, g, replace.sequence) && BookWithin(g.book, g.risk)
    ensures var s := ProcessReplace(cfg, g, replace);
            && (s.result.Ok? ==> replace.accountId in g.risk.accounts)
            && (BookWithin(s.state.book, s.state.risk) <==>
                (s.result.Ok? ==> InLimits(g.risk.accounts[replace.accountId].limits, replace.price, replace.quantity)))
  {
    hide SoundBook, R.SoundRisk, R.NetPosition, BookWithin, ReplaceResting, R.Adjust, R.Restore, Paired, InLimits, SameLimits, Unmoved;
    ReplaceKeeps(cfg, g, replace);
    var s := ProcessReplace(cfg, g, replace);
    if s.result.Err? {
      LimitsUnmoved(g, s.state);
      WithinCarries(g.book, g.risk, s.state.risk);
    } else {
      R.AdjustSound(g.risk, replace.orderId, replace.accountId, replace.price, replace.quantity, cfg.risk);
      R.OwnerCovers(g.risk, replace.orderId, cfg.risk);
      AdjustKeepsLimits(g.risk, replace.orderId, replace.accountId, replace.price, replace.quantity);
      WithinCarries(s.state.book, g.risk, s.state.risk);
      ReplacedBookWithin(cfg, g, replace);
    }
  }

  lemma {:induction false} LimitsUnmoved(g: GatewayState, h: GatewayState)
    requires Unmoved(g, h)
    ensures SameLimits(g.risk, h.risk)
  {
  }

  lemma {:induction false} ReplacedBookWithin(cfg: Config, g: GatewayState, replace: ReplaceOrder)
    requires Admitted(cfg, g, replace.sequence) && BookWithin(g.book, g.risk) && R.Owned(g.risk, replace.orderId, replace.accountId)
    requires replace.accountId in g.risk.accounts
    requires ReplaceResting(g.book, cfg.book, cfg.instrument, replace).Ok?
    ensures BookWithin(ReplaceResting(g.book, cfg.book, cfg.instrument, replace).value.0, g.risk) <==>
            InLimits(g.risk.accounts[replace.accountId].limits, replace.price, replace.quantity)
  {
    PairedLocates(g.book, g.risk.reservations, {}, replace.orderId);
    hide SoundBook, R.SoundRisk, Paired, BookWithin, InLimits, Locate;
    ReplaceOutcome(g.book, cfg.book, cfg.instrument, replace);
    hide ReplaceResting;
    AmendedWithin(g.book, g.risk, Locate(g.book, replace.orderId).value, replace);
  }

  /** The book after amending the order at `p`. */
  function AmendedBook(b: Book, p: Position, replace: ReplaceOrder): Book
    requires InLevels(b.At(p.side), p.level, p.place)
  {
    var levels := b.At(p.side);
    if replace.price == levels[p.level].price && replace.quantity < OrderOf(b, p).quantity then
      b.With(p.side, SetOrder(levels, p.level, p.place, OrderOf(b, p).(quantity := replace.quantity)))
    else
      b.With(p.side, AddOrder(p.side, RemoveOrder(levels, p.level, p.place), replace.price,
                              Order(replace.orderId, replace.accountId, replace.quantity, replace.sequence)))
  }

  lemma {:induction false} ReplaceOutcome(b: Book, shape: Shape, instrument: InstrumentId, replace: ReplaceOrder)
    requires ReplaceResting(b, shape, instrument, replace).Ok?
    ensures Locate(b, replace.orderId).Some?
    ensures var p := Locate(b, replace.orderId).value;
            && InLevels(b.At(p.side), p.level, p.place) && OrderOf(b, p).account == replace.accountId
            && ReplaceResting(b, shape, instrument, replace).value.0 == AmendedBook(b, p, replace)
  {
    if Locate(b, replace.orderId).Some? {
      LocatedIn(b, replace.orderId);
    }
    hide Locate, RemoveOrder, SetOrder, AddOrder, MoveRejection;
  }

  lemma {:induction false} AmendedWithin(b: Book, risk: R.RiskState, p: Position, replace: ReplaceOrder)
    requires BookWithin(b, risk) && InLevels(b.At(p.side), p.level, p.place)
    requires OrderOf(b, p).account == replace.accountId && replace.accountId in risk.accounts
    ensures BookWithin(AmendedBook(b, p, replace), risk) <==>
            InLimits(risk.accounts[replace.accountId].limits, replace.price, replace.quantity)
  {
    hide BookWithin, RemoveOrder, SetOrder, AddOrder, InLimits;
    var levels := b.At(p.side);
    if replace.price == levels[p.level].price && replace.quantity < OrderOf(b, p).quantity {
      ReducedWithin(b, risk, p, replace.quantity);
    } else {
      RemovedWithin(b, risk, p);
      AddedSide(b.With(p.side, RemoveOrder(levels, p.level, p.place)), risk, p.side, replace.price,
                Order(replace.orderId, replace.accountId, replace.quantity, replace.sequence));
    }
  }

  /** Will this amendment be accepted? Decided on the state before the call: in sequence,
      the reservation adjusts and the book can replace. */
  predicate AmendmentAccepted(cfg: Config, g: GatewayState, replace: ReplaceOrder) {
    && SequenceDefect(g, replace.sequence).None?
    && R.Adjust(g.risk, replace.orderId, replace.accountId, replace.price, replace.quantity).Ok?
    && ReplaceResting(g.book, cfg.book, cfg.instrument, replace).Ok?
  }

  /** An amendment that will be accepted although the owner's per-order limits forbid its
      price or quantity. */
  predicate Escapes(cfg: Config, g: GatewayState, replace: ReplaceOrder) {
    && AmendmentAccepted(cfg, g, replace) && replace.accountId in g.risk.accounts
    && !InLimits(g.risk.accounts[replace.accountId].limits, replace.price, replace.quantity)
  }

  lemma {:induction false} AcceptedIff(cfg: Config, g: GatewayState, replace: ReplaceOrder, room: nat)
    requires StockedBook(g.book)
    ensures Process(cfg, g, Replace(replace), room).result.Ok? <==> AmendmentAccepted(cfg, g, replace)
  {
    hide Stocked, R.Adjust, R.Restore, ReplaceResting;
  }

  /** From a restorable state, the next state is restorable unless the command is an
      amendment that escapes its owner's per-order limits, and only then. The condition
      is on the state before the call. */
  lemma {:induction false} StaysRestorableIff(cfg: Config, g: GatewayState, command: Command, room: nat)
    requires SoundGateway(cfg, g) && WithinLimits(g)
    ensures StockedBook(g.book)
    ensures GatewayDefect(ExportGateway(cfg.instrument, Process(cfg, g, command, room).state), cfg.book, cfg.risk).None? <==>
            !(command.Replace? && Escapes(cfg, g, command.replace))
  {
    hide SoundBook, R.SoundRisk, R.NetPosition, Paired, ProcessNew, ProcessCancel, ProcessReplace, AmendmentAccepted, InLimits, GatewayDefect, BookWithin, ExportGateway, Stocked, Unmoved;
    ProcessKeeps(cfg, g, command, room);
    var s := Process(cfg, g, command, room);
    RestorableIff(cfg.instrument, s.state, cfg);
    if command.Replace? {
      AcceptedIff(cfg, g, command.replace, room);
    }
    if SequenceDefect(g, command.SequenceOf()).None? {
      var h := g.(expected := g.expected + 1);
      match command
      case New(order) => NewStaysWithin(cfg, h, order, room);
      case Cancel(cancel) => CancelStaysWithin(cfg, h, cancel, g.expected);
      case Replace(replace) => ReplaceWithinIff(cfg, h, replace);
    }
  }

  // The exception is real.

  const SAMPLE_LIMITS: R.RiskLimits := R.RiskLimits(5, 1000, 100, 10, 1, 100)
  const SAMPLE_BOOK: Book := Book([Level(10, [Order(1, 7, 5, 1)])], [])
  const SAMPLE_RISK: R.RiskState :=
    R.RiskState(map[7 := R.Account(SAMPLE_LIMITS, 0, 5, 0, 1, false)], map[1 := R.Reservation(7, Buy, 5)], Some(1), false)
  const SAMPLE: GatewayState := GatewayState(SAMPLE_BOOK, SAMPLE_RISK, 2, Some(1))
  const SAMPLE_CONFIG: Config := Config(0, Shape(1, 2), R.RiskShape(1, 2))

  lemma {:induction false} SampleFlat()
    ensures Flatten(SAMPLE_BOOK.bids) == [Resting(10, Order(1, 7, 5, 1))] && Flatten(SAMPLE_BOOK.asks) == []
  {
    assert SAMPLE_BOOK.bids[1..] == [];
  }

  lemma {:induction false} SampleBookSound()
    ensures SoundBook(SAMPLE_BOOK, SAMPLE_CONFIG.book, 2) && BookWithin(SAMPLE_BOOK, SAMPLE_RISK)
  {
    SampleFlat();
    hide Flatten;
    assert GoodLevel(SAMPLE_BOOK.bids[0], SAMPLE_CONFIG.book, 2);
  }

  lemma {:induction false} SampleRiskSound()
    ensures R.SoundRisk(SAMPLE_RISK, SAMPLE_CONFIG.risk)
  {
    var r := R.Reservation(7, Buy, 5);
    R.TotalSet(map[], 1, r, R.Bought(7));
    R.TotalSet(map[], 1, r, R.Sold(7));
    R.TotalSet(map[], 1, r, R.Opened(7));
    assert map[][1 := r] == SAMPLE_RISK.reservations;
    hide R.Total;
    assert R.Accounted(SAMPLE_RISK.accounts[7], 7, SAMPLE_RISK.reservations);
  }

  lemma {:induction false} SamplePaired()
    ensures Paired(SAMPLE_BOOK, SAMPLE_RISK.reservations, {})
  {
    SampleFlat();
    hide Flatten;
    var only := Resting(10, Order(1, 7, 5, 1));
    assert only in [only];
    assert Ids([only]) == {1} && Ids([]) == {};
    hide Ids;
  }

  lemma {:induction false} SampleSound()
    ensures SoundGateway(SAMPLE_CONFIG, SAMPLE) && WithinLimits(SAMPLE)
  {
    SampleBookSound();
    SampleRiskSound();
    SamplePaired();
    hide SoundBook, R.SoundRisk, Paired, BookWithin;
  }

  // One account and one order lead there from an empty gateway.

  const SAMPLE_IDLE: R.RiskState := R.RiskState(map[7 := R.Account(SAMPLE_LIMITS, 0, 0, 0, 0, false)], map[], None, false)
  const SAMPLE_START: GatewayState := GatewayState(Book([], []), SAMPLE_IDLE, 1, None)
  const SAMPLE_ORDER: NewOrder := NewOrder(1, 7, 0, 10, 5, 1, Buy, Gtc)
  const SAMPLE_AMENDMENT: ReplaceOrder := ReplaceOrder(1, 7, 0, 2, 10, 6)

  lemma {:induction false} SampleStarts()
    ensures R.Register(R.RiskState(map[], map[], None, false), 7, SAMPLE_LIMITS, SAMPLE_CONFIG.risk) == Ok(SAMPLE_IDLE)
    ensures SoundGateway(SAMPLE_CONFIG, SAMPLE_START)
  {
    assert map[][7 := SAMPLE_IDLE.accounts[7]] == SAMPLE_IDLE.accounts;
    assert R.Accounted(SAMPLE_IDLE.accounts[7], 7, SAMPLE_IDLE.reservations);
    FreshSound(SAMPLE_CONFIG, SAMPLE_IDLE);
  }

  lemma {:induction false} SampleReserved()
    ensures R.Reserve(SAMPLE_IDLE, SAMPLE_ORDER, SAMPLE_CONFIG.risk) == Ok(SAMPLE_RISK)
  {
    assert R.Notional(10, 5) == Ok(50);
    assert SAMPLE_IDLE.accounts[7 := SAMPLE_RISK.accounts[7]] == SAMPLE_RISK.accounts;
    assert SAMPLE_IDLE.reservations[1 := SAMPLE_RISK.reservations[1]] == SAMPLE_RISK.reservations;
  }

  lemma {:induction false} SampleRests()
    ensures StockedBook(SAMPLE_START.book)
    ensures SubmitOrder(SAMPLE_START.book, SAMPLE_CONFIG.book, 0, SAMPLE_ORDER, 0) ==
            Ok(Submitted(SAMPLE_BOOK, MatchSummary(OrderState.Accepted, 0, 5, 0, 0), []))
  {
    assert Validate(SAMPLE_START.book, 0, SAMPLE_ORDER).None?;
    assert Match(Buy, 10, [], 5) == Matched([], [], 5);
    assert Place(Buy, [], 10) == 0;
    assert AddOrder(Buy, [], 10, Order(1, 7, 5, 1)) == SAMPLE_BOOK.bids;
  }

  lemma {:induction false} SampleReached()
    ensures StockedBook(SAMPLE_START.book)
    ensures var s := Process(SAMPLE_CONFIG, SAMPLE_START, New(SAMPLE_ORDER), 0); s.result.Ok? && s.state == SAMPLE
  {
    hide R.Reserve, SubmitOrder, Stocked;
    SampleReserved();
    SampleRests();
    assert ReportsOf(SAMPLE_ORDER, []) == [];
  }

  /** From an empty gateway with one registered account, an order and an amendment above
      the account's quantity limit are both accepted, and the state they leave behind
      cannot be restored, although the one before the amendment can. */
  lemma {:induction false} AmendmentEscapes()
    ensures R.Register(R.RiskState(map[], map[], None, false), 7, SAMPLE_LIMITS, SAMPLE_CONFIG.risk) == Ok(SAMPLE_IDLE)
    ensures SoundGateway(SAMPLE_CONFIG, SAMPLE_START)
    ensures var s := Advance(SAMPLE_CONFIG, SAMPLE_START, New(SAMPLE_ORDER), 0);
            && s.result.Ok? && WithinLimits(s.state)
            && var t := Advance(SAMPLE_CONFIG, s.state, Replace(SAMPLE_AMENDMENT), 0);
            t.result.Ok? && GatewayDefect(ExportGateway(0, t.state), SAMPLE_CONFIG.book, SAMPLE_CONFIG.risk).Some?
  {
    hide SoundGateway, WithinLimits, GatewayDefect, ExportGateway, R.Adjust, R.Register, ReplaceResting, Process, Stocked;
    SampleStarts();
    SampleReached();
    SampleSound();
    StaysRestorableIff(SAMPLE_CONFIG, SAMPLE, Replace(SAMPLE_AMENDMENT), 0);
    AcceptedIff(SAMPLE_CONFIG, SAMPLE, SAMPLE_AMENDMENT, 0);
    SampleAdjusted();
    SampleReplaced();
    assert Escapes(SAMPLE_CONFIG, SAMPLE, SAMPLE_AMENDMENT);
  }

  lemma {:induction false} SampleAdjusted()
    ensures R.Adjust(SAMPLE_RISK, 1, 7, 10, 6).Ok?
  {
    assert R.Notional(10, 6) == Ok(60);
  }

  lemma {:induction false} SampleReplaced()
    ensures ReplaceResting(SAMPLE_BOOK, SAMPLE_CONFIG.book, 0, ReplaceOrder(1, 7, 0, 2, 10, 6)).Ok?
  {
    assert FindOrder(SAMPLE_BOOK.bids[0].orders, 1) == Some(0);
    assert FindLevel(SAMPLE_BOOK.bids, 1) == Some((0, 0));
    assert Locate(SAMPLE_BOOK, 1) == Some(Position(Buy, 0, 0));
    assert Place(Buy, SAMPLE_BOOK.bids, 10) == 0;
  }
}
