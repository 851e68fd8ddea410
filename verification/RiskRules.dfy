/** Pre-trade risk as a rulebook: every limit as a comparison of the order with the
    account's own figures, in the order of checking, and every change of state in full. */
module RiskRules {
  import opened Types
  import opened Decisions
  import opened RiskSpec

  // New orders.

  function Worth(price: Price, quantity: Quantity): nat {
    (if price < 0 then -(price as int) else price as int) * quantity
  }

  /** What an account would be exposed to with `more` on one side. */
  function LongSide(a: Account, side: Side, more: nat): nat {
    if side == Buy then a.buys + more else a.buys
  }

  function ShortSide(a: Account, side: Side, more: nat): nat {
    if side == Sell then a.sells + more else a.sells
  }

  function NotionalClauses(a: Account, price: Price, quantity: Quantity): seq<Clause<RejectReason>> {
    [Clause(price > -I64_BOUND && Worth(price, quantity) < U128_BOUND, ArithmeticOverflow),
     Clause(Worth(price, quantity) <= a.limits.maxNotional, NotionalLimit)]
  }

  function ExposureClauses(a: Account, side: Side, more: nat): seq<Clause<RejectReason>> {
    [Clause(LongSide(a, side, more) < U128_BOUND && ShortSide(a, side, more) < U128_BOUND, ArithmeticOverflow)]
  }

  /** Were one side to fill completely and the other not at all, the position would fit its
      word and respect the limit. */
  function PositionClauses(a: Account, side: Side, more: nat): seq<Clause<RejectReason>> {
    var long, short := LongSide(a, side, more), ShortSide(a, side, more);
    [Clause(long < I128_BOUND && a.settled + long < I128_BOUND, ArithmeticOverflow),
     Clause(short < I128_BOUND && a.settled - short >= -I128_BOUND, ArithmeticOverflow),
     Clause(a.settled + long <= a.limits.maxPosition && a.settled - short >= -(a.limits.maxPosition as int), PositionLimit)]
  }

  function OpenClauses(a: Account): seq<Clause<RejectReason>> {
    [Clause(a.open + 1 < U32_BOUND, ArithmeticOverflow), Clause(a.open + 1 <= a.limits.maxOpen, OpenOrderLimit)]
  }

  /** All that an account asks of a new order. */
  function LimitClauses(a: Account, order: NewOrder): seq<Clause<RejectReason>> {
    [Clause(!a.killed, KillSwitch),
     Clause(order.quantity <= a.limits.maxQuantity, QuantityLimit),
     Clause(a.limits.minPrice <= order.price <= a.limits.maxPrice, PriceCollar)]
    + NotionalClauses(a, order.price, order.quantity)
    + ExposureClauses(a, order.side, order.quantity)
    + PositionClauses(a, order.side, order.quantity)
    + OpenClauses(a)
  }

  function EngineClauses(s: RiskState, order: NewOrder, shape: RiskShape): seq<Clause<RejectReason>> {
    [Clause(!s.killed, KillSwitch),
     Clause(order.quantity > 0, InvalidQuantity),
     Clause(s.maximum == None || order.orderId > s.maximum.value, DuplicateOrderId),
     Clause(|s.reservations| < shape.orders, OrderCapacity),
     Clause(order.accountId in s.accounts, UnknownAccount)]
  }

  /** All that the risk engine asks of a new order. */
  function ReserveClauses(s: RiskState, order: NewOrder, shape: RiskShape): seq<Clause<RejectReason>> {
    EngineClauses(s, order, shape)
    + if order.accountId in s.accounts then LimitClauses(s.accounts[order.accountId], order) else []
  }

  lemma {:induction false} NotionalIs(a: Account, price: Price, quantity: Quantity)
    ensures Verdict(NotionalClauses(a, price, quantity)) ==
            match Notional(price, quantity)
            case Err(e) => Some(e)
            case Ok(n) => if n > a.limits.maxNotional then Some(NotionalLimit) else None
  {
    hide Verdict;
    TwoClauses(NotionalClauses(a, price, quantity)[0], NotionalClauses(a, price, quantity)[1]);
  }

  lemma {:induction false} ExposureIs(a: Account, side: Side, more: Quantity)
    ensures Verdict(ExposureClauses(a, side, more)) == if Reserved(a, side, more).Err? then Some(Reserved(a, side, more).error) else None
    ensures Reserved(a, side, more).Ok? ==>
              LongSide(a, side, more) < U128_BOUND && ShortSide(a, side, more) < U128_BOUND
              && Reserved(a, side, more).value == a.(buys := LongSide(a, side, more), sells := ShortSide(a, side, more))
  {
    hide Verdict;
    OneClause(ExposureClauses(a, side, more)[0]);
  }

  lemma {:induction false} PositionIs(a: Account, side: Side, more: Quantity)
    requires Reserved(a, side, more).Ok?
    ensures Verdict(PositionClauses(a, side, more)) == PositionDefect(Reserved(a, side, more).value)
  {
    hide Verdict;
    ExposureIs(a, side, more);
    var c := PositionClauses(a, side, more);
    ThreeClauses(c[0], c[1], c[2]);
  }

  lemma {:induction false} LimitsIs(a: Account, order: NewOrder)
    ensures Verdict(LimitClauses(a, order)) == if EvaluateLimits(a, order).Err? then Some(EvaluateLimits(a, order).error) else None
  {
    var first := [Clause(!a.killed, KillSwitch), Clause(order.quantity <= a.limits.maxQuantity, QuantityLimit),
                  Clause(a.limits.minPrice <= order.price <= a.limits.maxPrice, PriceCollar)];
    var n, e := NotionalClauses(a, order.price, order.quantity), ExposureClauses(a, order.side, order.quantity);
    var p, o := PositionClauses(a, order.side, order.quantity), OpenClauses(a);
    ThreeClauses(first[0], first[1], first[2]);
    TwoClauses(o[0], o[1]);
    hide Verdict, NotionalClauses, ExposureClauses, PositionClauses, OpenClauses, Reserved, Notional, PositionDefect;
    NotionalIs(a, order.price, order.quantity);
    ExposureIs(a, order.side, order.quantity);
    if Reserved(a, order.side, order.quantity).Ok? {
      PositionIs(a, order.side, order.quantity);
    }
    VerdictThen(first, n);
    VerdictThen(first + n, e);
    VerdictThen(first + n + e, p);
    VerdictThen(first + n + e + p, o);
  }

  lemma {:induction false} EngineIs(s: RiskState, order: NewOrder, shape: RiskShape)
    ensures Verdict(EngineClauses(s, order, shape)) ==
            if s.killed then Some(KillSwitch)
            else if order.quantity == 0 then Some(InvalidQuantity)
            else if s.maximum.Some? && order.orderId <= s.maximum.value then Some(DuplicateOrderId)
            else if |s.reservations| >= shape.orders then Some(OrderCapacity)
            else if order.accountId !in s.accounts then Some(UnknownAccount) else None
  {
    hide Verdict;
    var c := EngineClauses(s, order, shape);
    ThreeClauses(c[0], c[1], c[2]);
    TwoClauses(c[3], c[4]);
    VerdictThen([c[0], c[1], c[2]], [c[3], c[4]]);
    assert c == [c[0], c[1], c[2]] + [c[3], c[4]];
  }

  /** A new order is accepted if and only if every clause holds; otherwise the refusal is
      that of the first to fail. */
  lemma {:induction false} ReserveDecided(s: RiskState, order: NewOrder, shape: RiskShape)
    ensures Reserve(s, order, shape).Ok? <==> AllHold(ReserveClauses(s, order, shape))
    ensures Reserve(s, order, shape).Err? ==> Verdict(ReserveClauses(s, order, shape)) == Some(Reserve(s, order, shape).error)
  {
    hide Verdict, AllHold, EngineClauses, LimitClauses, EvaluateLimits;
    EngineIs(s, order, shape);
    if order.accountId in s.accounts {
      LimitsIs(s.accounts[order.accountId], order);
    }
    VerdictThen(EngineClauses(s, order, shape), if order.accountId in s.accounts then LimitClauses(s.accounts[order.accountId], order) else []);
    VerdictIff(ReserveClauses(s, order, shape));
    NoClauses<RejectReason>();
  }

  /** An accepted order adds its quantity to one total of its account, one to the account's
      open orders, and one reservation; nothing else changes but the watermark. */
  lemma {:induction false} ReserveEffect(s: RiskState, order: NewOrder, shape: RiskShape)
    requires Reserve(s, order, shape).Ok?
    ensures order.accountId in s.accounts
    ensures var a := s.accounts[order.accountId];
            && LongSide(a, order.side, order.quantity) < U128_BOUND && ShortSide(a, order.side, order.quantity) < U128_BOUND && a.open + 1 < U32_BOUND
            && Reserve(s, order, shape).value ==
               RiskState(s.accounts[order.accountId := Account(a.limits, a.settled, LongSide(a, order.side, order.quantity),
                                                               ShortSide(a, order.side, order.quantity), a.open + 1, a.killed)],
                         s.reservations[order.orderId := Reservation(order.accountId, order.side, order.quantity)],
                         Some(order.orderId), s.killed)
  {
    hide Notional, PositionDefect;
  }

  /** While the engine or the account is killed no new order is accepted. */
  lemma {:induction false} KilledRefuses(s: RiskState, order: NewOrder, shape: RiskShape)
    requires s.killed || (order.accountId in s.accounts && s.accounts[order.accountId].killed)
    ensures Reserve(s, order, shape).Err?
    ensures s.killed ==> Reserve(s, order, shape) == Err(KillSwitch)
  {
    hide Verdict, NotionalClauses, ExposureClauses, PositionClauses, OpenClauses, Reserve;
    ReserveDecided(s, order, shape);
    var c := ReserveClauses(s, order, shape);
    if s.killed {
      assert !c[0].holds;
      FailsAt(c, 0);
    } else {
      assert !c[5].holds;
    }
  }

  // Fills, releases and cancels of a sound state.

  function Signed(side: Side, quantity: nat): int {
    if side == Buy then quantity else -(quantity as int)
  }

  /** The owner's account when `filled` of a reservation trades and `released` of it ends,
      closing it or not. */
  predicate AccountMoved(a: Account, b: Account, side: Side, filled: nat, released: nat, closes: bool) {
    && b.limits == a.limits && b.killed == a.killed
    && b.settled == a.settled + Signed(side, filled)
    && b.buys == a.buys - (if side == Buy then released else 0)
    && b.sells == a.sells - (if side == Sell then released else 0)
    && b.open == a.open - (if closes then 1 else 0)
  }

  /** `t` is `s` with one account moved and one reservation shrunk or gone. */
  ghost predicate Discharged(s: RiskState, t: RiskState, id: OrderId, filled: nat, released: nat) {
    && id in s.reservations
    && var r := s.reservations[id];
    && released <= r.quantity && r.account in s.accounts && r.account in t.accounts
    && t == RiskState(s.accounts[r.account := t.accounts[r.account]],
                      if released == r.quantity then s.reservations - {id}
                      else s.reservations[id := Reservation(r.account, r.side, r.quantity - released)],
                      s.maximum, s.killed)
    && AccountMoved(s.accounts[r.account], t.accounts[r.account], r.side, filled, released, released == r.quantity)
  }

  lemma {:induction false} ExposureMoves(a: Account, side: Side, filled: Quantity, released: Quantity)
    ensures ExposureAfterFill(a, side, filled, released).Ok? ==>
              AccountMoved(a, ExposureAfterFill(a, side, filled, released).value, side, filled, released, false)
  {
  }

  /** A recorded fill moves its owner's account and shrinks the reservation by as much. */
  lemma {:induction false} FillEffect(s: RiskState, id: OrderId, filled: Quantity)
    requires RecordFill(s, id, filled).Ok?
    ensures Discharged(s, RecordFill(s, id, filled).value, id, filled, filled)
  {
    hide ExposureAfterFill;
    var r := s.reservations[id];
    ExposureMoves(s.accounts[r.account], r.side, filled, filled);
  }

  /** A fill is accepted if and only if it is positive and a live reservation covers it.
      The owner's position moves by it, and so do the total and the reservation. */
  lemma {:induction false} FillDecided(s: RiskState, id: OrderId, filled: Quantity, shape: RiskShape)
    requires SoundRisk(s, shape)
    ensures match RecordFill(s, id, filled)
            case Ok(t) => filled > 0 && Discharged(s, t, id, filled, filled)
            case Err(e) => e == if filled == 0 then InvalidQuantity else if id !in s.reservations then UnknownOrder else InvalidQuantity
    ensures RecordFill(s, id, filled).Ok? <==> filled > 0 && id in s.reservations && filled <= s.reservations[id].quantity
  {
    hide SoundRisk, ExposureAfterFill, Discharged;
    RecordFillSound(s, id, filled, shape);
    if id in s.reservations {
      OwnerCovers(s, id, shape);
    }
    if RecordFill(s, id, filled).Ok? {
      FillEffect(s, id, filled);
    }
  }

  lemma {:induction false} SettleEffect(s: RiskState, id: OrderId, filled: Quantity)
    requires Settle(s, id, filled).Ok?
    ensures id in s.reservations && Discharged(s, Settle(s, id, filled).value, id, filled, s.reservations[id].quantity)
  {
    hide ExposureAfterFill;
    var r := s.reservations[id];
    ExposureMoves(s.accounts[r.account], r.side, filled, r.quantity);
  }

  /** Closing a reservation in full releases all of it; `filled` of it becomes position. */
  lemma {:induction false} SettleDecided(s: RiskState, id: OrderId, filled: Quantity, shape: RiskShape)
    requires SoundRisk(s, shape)
    ensures match Settle(s, id, filled)
            case Ok(t) => id in s.reservations && Discharged(s, t, id, filled, s.reservations[id].quantity)
            case Err(e) => e == if id !in s.reservations then UnknownOrder else InvalidQuantity
    ensures Settle(s, id, filled).Ok? <==> id in s.reservations && filled <= s.reservations[id].quantity
  {
    hide SoundRisk, Close, Discharged;
    if id in s.reservations && filled <= s.reservations[id].quantity {
      CloseSound(s, id, filled, shape);
      SettleEffect(s, id, filled);
    }
  }

  function OwnerClauses(s: RiskState, id: OrderId, account: AccountId): seq<Clause<RejectReason>> {
    [Clause(id in s.reservations, UnknownOrder),
     Clause(id in s.reservations ==> s.reservations[id].account == account, NotOrderOwner)]
  }

  /** A reservation is cancelled if and only if it is live and the account's own. */
  lemma {:induction false} CancelReservationDecided(s: RiskState, id: OrderId, account: AccountId, shape: RiskShape)
    requires SoundRisk(s, shape)
    ensures match CancelReservation(s, id, account)
            case Ok(done) => id in s.reservations && done.1 == s.reservations[id].quantity && Discharged(s, done.0, id, 0, s.reservations[id].quantity)
            case Err(e) => Verdict(OwnerClauses(s, id, account)) == Some(e)
    ensures CancelReservation(s, id, account).Ok? <==> AllHold(OwnerClauses(s, id, account))
  {
    hide SoundRisk, Verdict, AllHold, Close, Discharged;
    CancelReservationSound(s, id, account, shape);
    var c := OwnerClauses(s, id, account);
    TwoClauses(c[0], c[1]);
    VerdictIff(c);
    SettleDecided(s, id, 0, shape);
  }

  // Amendments.

  function IncreaseClauses(a: Account, side: Side, more: nat, price: Price, quantity: Quantity): seq<Clause<RejectReason>> {
    ExposureClauses(a, side, more) + NotionalClauses(a, price, quantity) + PositionClauses(a, side, more)
  }

  /** All that is asked of an amendment: ownership, and of an increase the limits on
      notional and worst-case position. */
  function AdjustClauses(s: RiskState, id: OrderId, account: AccountId, price: Price, quantity: Quantity): seq<Clause<RejectReason>> {
    OwnerClauses(s, id, account)
    + if Owned(s, id, account) && account in s.accounts && quantity > s.reservations[id].quantity
      then IncreaseClauses(s.accounts[account], s.reservations[id].side, quantity - s.reservations[id].quantity, price, quantity)
      else []
  }

  /** `t` is `s` with one reservation at `quantity` and its owner's total to match. */
  ghost predicate Adjusts(s: RiskState, t: RiskState, id: OrderId, quantity: Quantity) {
    && id in s.reservations
    && var r := s.reservations[id];
    && r.account in s.accounts && r.account in t.accounts
    && t == RiskState(s.accounts[r.account := t.accounts[r.account]],
                      s.reservations[id := Reservation(r.account, r.side, quantity)], s.maximum, s.killed)
    && var a, b := s.accounts[r.account], t.accounts[r.account];
    && b.limits == a.limits && b.killed == a.killed && b.settled == a.settled && b.open == a.open
    && b.buys == a.buys + (if r.side == Buy then quantity - r.quantity else 0)
    && b.sells == a.sells + (if r.side == Sell then quantity - r.quantity else 0)
  }

  lemma {:induction false} MoreOrLess(a: Account, side: Side, quantity: Quantity)
    ensures Reserved(a, side, quantity).Ok? ==>
              Reserved(a, side, quantity).value == a.(buys := LongSide(a, side, quantity), sells := ShortSide(a, side, quantity))
    ensures Released(a, side, quantity).Ok? ==> AccountMoved(a, Released(a, side, quantity).value, side, 0, quantity, false)
  {
  }

  lemma {:induction false} AdjustEffect(s: RiskState, id: OrderId, account: AccountId, price: Price, quantity: Quantity, shape: RiskShape)
    requires SoundRisk(s, shape)
    ensures Adjust(s, id, account, price, quantity).Ok? ==>
              var done := Adjust(s, id, account, price, quantity).value;
              && Adjusts(s, done.state, id, quantity) && done.prior == s.reservations[id].quantity
              && done.released == if quantity < done.prior then done.prior - quantity else 0
  {
    hide SoundRisk, Notional, PositionDefect, Reserved, Released;
    if Adjust(s, id, account, price, quantity).Ok? {
      OwnerCovers(s, id, shape);
      var r := s.reservations[id];
      if quantity == r.quantity {
        assert s.accounts[r.account := s.accounts[r.account]] == s.accounts;
        assert s.reservations[id := r] == s.reservations;
      } else {
        var b := AdjustedAccount(s, id, account, price, quantity);
        MoreOrLess(s.accounts[account], r.side, if quantity > r.quantity then quantity - r.quantity else r.quantity - quantity);
      }
    }
  }

  /** An amendment is accepted if and only if every clause holds; otherwise the refusal is
      that of the first to fail. */
  lemma {:induction false} AdjustDecided(s: RiskState, id: OrderId, account: AccountId, price: Price, quantity: Quantity, shape: RiskShape)
    requires SoundRisk(s, shape)
    ensures Adjust(s, id, account, price, quantity).Ok? <==> AllHold(AdjustClauses(s, id, account, price, quantity))
    ensures Adjust(s, id, account, price, quantity).Err? ==>
              Verdict(AdjustClauses(s, id, account, price, quantity)) == Some(Adjust(s, id, account, price, quantity).error)
  {
    hide SoundRisk, Verdict, AllHold, OwnerClauses, IncreaseClauses, Reserved, Notional, PositionDefect, Amended;
    OwnerIs(s, id, account);
    NoClauses<RejectReason>();
    VerdictIff(AdjustClauses(s, id, account, price, quantity));
    ReducesFreely(s, id, account, price, quantity, shape);
    if Owned(s, id, account) && quantity > s.reservations[id].quantity {
      OwnerCovers(s, id, shape);
      var r := s.reservations[id];
      IncreaseIs(s.accounts[account], r.side, quantity - r.quantity, price, quantity);
      VerdictThen(OwnerClauses(s, id, account), IncreaseClauses(s.accounts[account], r.side, quantity - r.quantity, price, quantity));
    } else {
      VerdictThen(OwnerClauses(s, id, account), []);
    }
  }

  lemma {:induction false} OwnerIs(s: RiskState, id: OrderId, account: AccountId)
    ensures Verdict(OwnerClauses(s, id, account)) == OwnerDefect(s, id, account)
  {
    hide Verdict;
    var c := OwnerClauses(s, id, account);
    TwoClauses(c[0], c[1]);
  }

  lemma {:induction false} IncreaseIs(a: Account, side: Side, more: Quantity, price: Price, quantity: Quantity)
    ensures Verdict(IncreaseClauses(a, side, more, price, quantity)) ==
            match Reserved(a, side, more)
            case Err(e) => Some(e)
            case Ok(b) =>
              match Notional(price, quantity)
              case Err(e) => Some(e)
              case Ok(n) => if n > b.limits.maxNotional then Some(NotionalLimit) else PositionDefect(b)
  {
    hide Verdict, ExposureClauses, NotionalClauses, PositionClauses, Reserved, Notional, PositionDefect;
    var e, n, p := ExposureClauses(a, side, more), NotionalClauses(a, price, quantity), PositionClauses(a, side, more);
    ExposureIs(a, side, more);
    NotionalIs(a, price, quantity);
    if Reserved(a, side, more).Ok? {
      PositionIs(a, side, more);
    }
    VerdictThen(e, n);
    VerdictThen(e + n, p);
  }

  lemma {:induction false} ReducesFreely(s: RiskState, id: OrderId, account: AccountId, price: Price, quantity: Quantity, shape: RiskShape)
    requires SoundRisk(s, shape)
    ensures Owned(s, id, account) && quantity <= s.reservations[id].quantity ==> Adjust(s, id, account, price, quantity).Ok?
    ensures OwnerDefect(s, id, account).None? <==> Owned(s, id, account)
  {
    hide SoundRisk, Adjust;
    AdjustSound(s, id, account, price, quantity, shape);
  }

  // Accounts.

  function RegisterClauses(s: RiskState, id: AccountId, limits: RiskLimits, shape: RiskShape): seq<Clause<RegistrationError>> {
    [Clause(limits.maxQuantity > 0 && limits.maxOpen > 0 && limits.minPrice <= limits.maxPrice, InvalidLimits),
     Clause(id !in s.accounts, DuplicateAccount),
     Clause(|s.accounts| < shape.accounts, AccountCapacity)]
  }

  /** A new account starts flat and live; nothing else changes. */
  lemma {:induction false} RegisterDecided(s: RiskState, id: AccountId, limits: RiskLimits, shape: RiskShape)
    ensures match Register(s, id, limits, shape)
            case Ok(t) => AllHold(RegisterClauses(s, id, limits, shape))
                          && t == RiskState(s.accounts[id := Account(limits, 0, 0, 0, 0, false)], s.reservations, s.maximum, s.killed)
            case Err(e) => Verdict(RegisterClauses(s, id, limits, shape)) == Some(e)
  {
    hide Verdict, AllHold;
    var c := RegisterClauses(s, id, limits, shape);
    ThreeClauses(c[0], c[1], c[2]);
    VerdictIff(c);
  }
}
