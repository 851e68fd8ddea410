/** Pre-trade risk on logical state: accounts and live reservations as finite maps.
    Every operation of the slot-based engine is proved to act as these functions do. */
module RiskSpec {
  import opened Types
  import opened Tables

  datatype RiskLimits = RiskLimits(
    maxQuantity: Quantity,
    maxNotional: U128,
    maxPosition: Quantity,
    maxOpen: U32,
    minPrice: Price,
    maxPrice: Price)

  datatype Account = Account(limits: RiskLimits, settled: I128, buys: U128, sells: U128, open: U32, killed: bool)

  datatype Reservation = Reservation(account: AccountId, side: Side, quantity: Quantity)

  datatype RiskState = RiskState(
    accounts: map<AccountId, Account>,
    reservations: map<OrderId, Reservation>,
    maximum: Option<OrderId>,
    killed: bool)

  /** Fixed capacities: accounts and simultaneously live reservations. */
  datatype RiskShape = RiskShape(accounts: nat, orders: nat)

  datatype RegistrationError = DuplicateAccount | AccountCapacity | InvalidLimits

  datatype Adjusted = Adjusted(state: RiskState, released: Quantity, prior: Quantity)

  predicate ValidLimits(l: RiskLimits) {
    l.maxQuantity > 0 && l.maxOpen > 0 && l.minPrice <= l.maxPrice
  }

  /** Adds exposure to one side, checked at 128 bits. */
  function Reserved(a: Account, side: Side, added: Quantity): Result<Account, RejectReason> {
    if side == Buy then
      if a.buys + added < U128_BOUND then Ok(a.(buys := a.buys + added)) else Err(ArithmeticOverflow)
    else
      if a.sells + added < U128_BOUND then Ok(a.(sells := a.sells + added)) else Err(ArithmeticOverflow)
  }

  /** Takes exposure off one side, checked against going negative. */
  function Released(a: Account, side: Side, quantity: Quantity): Result<Account, RejectReason> {
    if side == Buy then
      if quantity <= a.buys then Ok(a.(buys := a.buys - quantity)) else Err(ArithmeticOverflow)
    else
      if quantity <= a.sells then Ok(a.(sells := a.sells - quantity)) else Err(ArithmeticOverflow)
  }

  function Abs(x: int): nat {
    if x < 0 then -x else x
  }

  function Notional(price: Price, quantity: Quantity): Result<U128, RejectReason> {
    if price == -I64_BOUND || Abs(price) * quantity >= U128_BOUND then Err(ArithmeticOverflow)
    else Ok(Abs(price) * quantity)
  }

  predicate FitsI128(x: int) {
    -I128_BOUND <= x < I128_BOUND
  }

  /** Worst-case long and short positions stay within the limit. */
  predicate WithinPosition(a: Account) {
    a.settled + a.buys <= a.limits.maxPosition && a.settled - a.sells + a.limits.maxPosition >= 0
  }

  /** The conservative position check: if every buy fills and no sell does, or the
      other way round, the position stays within the limit. */
  function PositionDefect(a: Account): Option<RejectReason> {
    if !FitsI128(a.buys) || !FitsI128(a.settled + a.buys) then Some(ArithmeticOverflow)
    else if !FitsI128(a.sells) || !FitsI128(a.settled - a.sells) then Some(ArithmeticOverflow)
    else if !WithinPosition(a) then Some(PositionLimit)
    else None
  }

  /** First limit that `order` breaks, or the account with the order reserved. */
  function EvaluateLimits(a: Account, order: NewOrder): Result<Account, RejectReason> {
    if a.killed then Err(KillSwitch)
    else if order.quantity > a.limits.maxQuantity then Err(QuantityLimit)
    else if order.price < a.limits.minPrice || order.price > a.limits.maxPrice then Err(PriceCollar)
    else match Notional(order.price, order.quantity)
      case Err(e) => Err(e)
      case Ok(notional) =>
        if notional > a.limits.maxNotional then Err(NotionalLimit)
        else match Reserved(a, order.side, order.quantity)
          case Err(e) => Err(e)
          case Ok(b) =>
            if PositionDefect(b).Some? then Err(PositionDefect(b).value)
            else if b.open + 1 >= U32_BOUND then Err(ArithmeticOverflow)
            else if b.open + 1 > b.limits.maxOpen then Err(OpenOrderLimit)
            else Ok(b.(open := b.open + 1))
  }

  /** `filled` becomes settled position and `released` leaves the reserved total. */
  function ExposureAfterFill(a: Account, side: Side, filled: Quantity, released: Quantity): Result<Account, RejectReason> {
    var settled := if side == Buy then a.settled + filled else a.settled - filled;
    if !FitsI128(settled) then Err(ArithmeticOverflow) else Released(a.(settled := settled), side, released)
  }

  function Register(s: RiskState, id: AccountId, limits: RiskLimits, shape: RiskShape): Result<RiskState, RegistrationError> {
    if !ValidLimits(limits) then Err(InvalidLimits)
    else if id in s.accounts then Err(DuplicateAccount)
    else if |s.accounts| >= shape.accounts then Err(AccountCapacity)
    else Ok(s.(accounts := s.accounts[id := Account(limits, 0, 0, 0, 0, false)]))
  }

  function SetAccountKill(s: RiskState, id: AccountId, killed: bool): Result<RiskState, RejectReason> {
    if id !in s.accounts then Err(UnknownAccount)
    else Ok(s.(accounts := s.accounts[id := s.accounts[id].(killed := killed)]))
  }

  function Reserve(s: RiskState, order: NewOrder, shape: RiskShape): Result<RiskState, RejectReason> {
    if s.killed then Err(KillSwitch)
    else if order.quantity == 0 then Err(InvalidQuantity)
    else if s.maximum.Some? && order.orderId <= s.maximum.value then Err(DuplicateOrderId)
    else if |s.reservations| >= shape.orders then Err(OrderCapacity)
    else if order.accountId !in s.accounts then Err(UnknownAccount)
    else match EvaluateLimits(s.accounts[order.accountId], order)
      case Err(e) => Err(e)
      case Ok(a) =>
        Ok(RiskState(s.accounts[order.accountId := a],
                     s.reservations[order.orderId := Reservation(order.accountId, order.side, order.quantity)],
                     Some(order.orderId), s.killed))
  }

  /** Closes a live reservation: `filled` of it becomes position, all of it is released. */
  function Close(s: RiskState, id: OrderId, filled: Quantity): Result<RiskState, RejectReason>
    requires id in s.reservations
  {
    var r := s.reservations[id];
    if r.account !in s.accounts then Err(UnknownAccount)
    else match ExposureAfterFill(s.accounts[r.account], r.side, filled, r.quantity)
      case Err(e) => Err(e)
      case Ok(a) =>
        if a.open == 0 then Err(ArithmeticOverflow)
        else Ok(s.(accounts := s.accounts[r.account := a.(open := a.open - 1)], reservations := s.reservations - {id}))
  }

  function Settle(s: RiskState, id: OrderId, filled: Quantity): Result<RiskState, RejectReason> {
    if id !in s.reservations then Err(UnknownOrder)
    else if filled > s.reservations[id].quantity then Err(InvalidQuantity)
    else Close(s, id, filled)
  }

  function RecordFill(s: RiskState, id: OrderId, filled: Quantity): Result<RiskState, RejectReason> {
    if filled == 0 then Err(InvalidQuantity)
    else if id !in s.reservations then Err(UnknownOrder)
    else
      var r := s.reservations[id];
      if filled > r.quantity then Err(InvalidQuantity)
      else if r.account !in s.accounts then Err(UnknownAccount)
      else match ExposureAfterFill(s.accounts[r.account], r.side, filled, filled)
        case Err(e) => Err(e)
        case Ok(a) =>
          if filled < r.quantity then
            Ok(s.(accounts := s.accounts[r.account := a],
                  reservations := s.reservations[id := r.(quantity := r.quantity - filled)]))
          else if a.open == 0 then Err(ArithmeticOverflow)
          else Ok(s.(accounts := s.accounts[r.account := a.(open := a.open - 1)], reservations := s.reservations - {id}))
  }

  predicate Owned(s: RiskState, id: OrderId, account: AccountId) {
    id in s.reservations && s.reservations[id].account == account
  }

  /** Why `account` may not touch reservation `id`. */
  function OwnerDefect(s: RiskState, id: OrderId, account: AccountId): Option<RejectReason> {
    if id !in s.reservations then Some(UnknownOrder)
    else if s.reservations[id].account != account then Some(NotOrderOwner)
    else None
  }

  /** `s` with `account` and the quantity of `id` replaced. */
  function Amended(s: RiskState, id: OrderId, a: Account, quantity: Quantity): RiskState
    requires id in s.reservations
  {
    s.(accounts := s.accounts[s.reservations[id].account := a],
       reservations := s.reservations[id := s.reservations[id].(quantity := quantity)])
  }

  /** Amends a reservation's total; only increases are checked against limits. */
  function Adjust(s: RiskState, id: OrderId, account: AccountId, price: Price, quantity: Quantity): Result<Adjusted, RejectReason> {
    if OwnerDefect(s, id, account).Some? then Err(OwnerDefect(s, id, account).value)
    else
      var r := s.reservations[id];
      if quantity == r.quantity then Ok(Adjusted(s, 0, r.quantity))
      else if account !in s.accounts then Err(UnknownAccount)
      else if quantity > r.quantity then
        match Reserved(s.accounts[account], r.side, quantity - r.quantity)
        case Err(e) => Err(e)
        case Ok(a) =>
          match Notional(price, quantity)
          case Err(e) => Err(e)
          case Ok(notional) =>
            if notional > a.limits.maxNotional then Err(NotionalLimit)
            else if PositionDefect(a).Some? then Err(PositionDefect(a).value)
            else Ok(Adjusted(Amended(s, id, a, quantity), 0, r.quantity))
      else match Released(s.accounts[account], r.side, r.quantity - quantity)
        case Err(e) => Err(e)
        case Ok(a) => Ok(Adjusted(Amended(s, id, a, quantity), r.quantity - quantity, r.quantity))
  }

  /** Puts a reservation back to `prior` without any limit check. */
  function Restore(s: RiskState, id: OrderId, account: AccountId, prior: Quantity): Result<RiskState, RejectReason> {
    if OwnerDefect(s, id, account).Some? then Err(OwnerDefect(s, id, account).value)
    else
      var r := s.reservations[id];
      if prior == r.quantity then Ok(s)
      else if account !in s.accounts then Err(UnknownAccount)
      else match (if prior > r.quantity then Reserved(s.accounts[account], r.side, prior - r.quantity)
                  else Released(s.accounts[account], r.side, r.quantity - prior))
        case Err(e) => Err(e)
        case Ok(a) => Ok(Amended(s, id, a, prior))
  }

  function CancelReservation(s: RiskState, id: OrderId, account: AccountId): Result<(RiskState, Quantity), RejectReason> {
    if OwnerDefect(s, id, account).Some? then Err(OwnerDefect(s, id, account).value)
    else match Close(s, id, 0)
      case Err(e) => Err(e)
      case Ok(t) => Ok((t, s.reservations[id].quantity))
  }

  // Exposure as sums over live reservations.

  /** What one reservation contributes to an account's total. */
  datatype Measure = Bought(account: AccountId) | Sold(account: AccountId) | Opened(account: AccountId) {
    function Of(r: Reservation): nat {
      if r.account != account then 0
      else match this
        case Bought(_) => if r.side == Buy then r.quantity else 0
        case Sold(_) => if r.side == Sell then r.quantity else 0
        case Opened(_) => 1
    }
  }

  ghost function Total(m: map<OrderId, Reservation>, kind: Measure): nat
    decreases |m|
  {
    if m == map[] then 0
    else
      var id :| id in m;
      kind.Of(m[id]) + Total(m - {id}, kind)
  }

  lemma {:induction false} TotalDrop(m: map<OrderId, Reservation>, id: OrderId, kind: Measure)
    requires id in m
    ensures Total(m, kind) == kind.Of(m[id]) + Total(m - {id}, kind)
    decreases |m|
  {
    var other :| other in m && Total(m, kind) == kind.Of(m[other]) + Total(m - {other}, kind);
    if other != id {
      TotalDrop(m - {other}, id, kind);
      TotalDrop(m - {id}, other, kind);
      assert m - {other} - {id} == m - {id} - {other};
    }
  }

  lemma {:induction false} TotalSet(m: map<OrderId, Reservation>, id: OrderId, r: Reservation, kind: Measure)
    ensures Total(m[id := r], kind) == Total(m, kind) + kind.Of(r) - if id in m then kind.Of(m[id]) else 0
  {
    TotalDrop(m[id := r], id, kind);
    assert m[id := r] - {id} == m - {id};
    if id in m {
      TotalDrop(m, id, kind);
    } else {
      assert m - {id} == m;
    }
  }

  /** An account's totals are the sums over its live reservations, within its limits. */
  ghost predicate Accounted(a: Account, id: AccountId, reservations: map<OrderId, Reservation>) {
    && ValidLimits(a.limits)
    && a.buys == Total(reservations, Bought(id)) && a.sells == Total(reservations, Sold(id))
    && a.open == Total(reservations, Opened(id)) && a.open <= a.limits.maxOpen
    && WithinPosition(a)
  }

  /** Every live reservation is positive, owned by an account and within the watermark. */
  ghost predicate Anchored(s: RiskState) {
    forall id :: id in s.reservations ==>
      && s.reservations[id].quantity > 0 && s.reservations[id].account in s.accounts
      && s.maximum.Some? && id <= s.maximum.value
  }

  /** Everything a reachable risk state satisfies. */
  ghost predicate SoundRisk(s: RiskState, shape: RiskShape) {
    && |s.accounts| <= shape.accounts && |s.reservations| <= shape.orders
    && Anchored(s)
    && forall id :: id in s.accounts ==> Accounted(s.accounts[id], id, s.reservations)
  }

  lemma {:induction false} EmptySound(shape: RiskShape)
    ensures SoundRisk(RiskState(map[], map[], None, false), shape)
  {
  }

  // Every operation keeps the state sound, and says when it can fail.

  /** Only `id` changed, within one account: the other accounts are untouched. */
  lemma {:induction false} OthersAccounted(s: RiskState, t: RiskState, id: OrderId, owner: AccountId)
    requires forall a :: a in s.accounts ==> Accounted(s.accounts[a], a, s.reservations)
    requires forall a :: a in t.accounts && a != owner ==> a in s.accounts && t.accounts[a] == s.accounts[a]
    requires id in s.reservations ==> s.reservations[id].account == owner
    requires t.reservations == s.reservations - {id} || exists r :: t.reservations == s.reservations[id := r] && r.account == owner
    ensures forall a :: a in t.accounts && a != owner ==> Accounted(t.accounts[a], a, t.reservations)
  {
    forall a | a in t.accounts && a != owner ensures Accounted(t.accounts[a], a, t.reservations) {
      forall kind: Measure | kind.account == a ensures Total(t.reservations, kind) == Total(s.reservations, kind) {
        if t.reservations == s.reservations - {id} {
          if id in s.reservations {
            TotalDrop(s.reservations, id, kind);
          } else {
            assert t.reservations == s.reservations;
          }
        } else {
          var r :| t.reservations == s.reservations[id := r] && r.account == owner;
          TotalSet(s.reservations, id, r, kind);
        }
      }
      assert Bought(a).account == a && Sold(a).account == a && Opened(a).account == a;
    }
  }

  /** An account's totals follow one reservation being written. */
  lemma {:induction false} SetAccounted(m: map<OrderId, Reservation>, id: OrderId, r: Reservation, a: Account, b: Account)
    requires Accounted(a, r.account, m) && (id in m ==> m[id].account == r.account)
    requires var was := if id in m then m[id].quantity else 0;
             && (id in m ==> m[id].side == r.side)
             && b.limits == a.limits && WithinPosition(b) && b.open <= b.limits.maxOpen
             && b.open == a.open + (if id in m then 0 else 1)
             && b.buys == a.buys + (if r.side == Buy then r.quantity - was else 0)
             && b.sells == a.sells + (if r.side == Sell then r.quantity - was else 0)
    ensures Accounted(b, r.account, m[id := r])
  {
    TotalSet(m, id, r, Bought(r.account));
    TotalSet(m, id, r, Sold(r.account));
    TotalSet(m, id, r, Opened(r.account));
    hide Total;
  }

  /** An account's totals follow one of its reservations closing. */
  lemma {:induction false} DropAccounted(m: map<OrderId, Reservation>, id: OrderId, a: Account, b: Account)
    requires id in m && Accounted(a, m[id].account, m)
    requires b.limits == a.limits && WithinPosition(b) && b.open + 1 == a.open
    requires b.buys == a.buys - (if m[id].side == Buy then m[id].quantity else 0)
    requires b.sells == a.sells - (if m[id].side == Sell then m[id].quantity else 0)
    ensures Accounted(b, m[id].account, m - {id})
  {
    TotalDrop(m, id, Bought(m[id].account));
    TotalDrop(m, id, Sold(m[id].account));
    TotalDrop(m, id, Opened(m[id].account));
    hide Total;
  }

  lemma {:induction false} AnchoredSet(s: RiskState, t: RiskState, id: OrderId, r: Reservation)
    requires Anchored(s) && r.account in s.accounts && r.quantity > 0
    requires t.accounts.Keys == s.accounts.Keys && t.reservations == s.reservations[id := r]
    requires t.maximum.Some? && id <= t.maximum.value && (s.maximum.Some? ==> s.maximum.value <= t.maximum.value)
    ensures Anchored(t)
  {
  }

  /** A state with one reservation written and its owner's totals to match is sound. */
  lemma {:induction false} SoundAfterSet(s: RiskState, t: RiskState, id: OrderId, r: Reservation, b: Account, shape: RiskShape)
    requires SoundRisk(s, shape) && r.account in s.accounts && r.quantity > 0
    requires t.accounts == s.accounts[r.account := b] && t.reservations == s.reservations[id := r]
    requires id in s.reservations ==> s.reservations[id].account == r.account
    requires id !in s.reservations ==> |s.reservations| < shape.orders
    requires t.maximum.Some? && id <= t.maximum.value && (s.maximum.Some? ==> s.maximum.value <= t.maximum.value)
    requires Accounted(b, r.account, t.reservations)
    ensures SoundRisk(t, shape)
  {
    hide Accounted, Anchored;
    AddSize(s.accounts, r.account, b);
    AddSize(s.reservations, id, r);
    assert t.accounts.Keys == s.accounts.Keys;
    AnchoredSet(s, t, id, r);
    OthersAccounted(s, t, id, r.account);
  }

  /** A state with one reservation closed and its owner's totals to match is sound. */
  lemma {:induction false} SoundAfterDrop(s: RiskState, t: RiskState, id: OrderId, b: Account, shape: RiskShape)
    requires SoundRisk(s, shape) && id in s.reservations
    requires s.reservations[id].account in s.accounts && t.accounts == s.accounts[s.reservations[id].account := b]
    requires t.reservations == s.reservations - {id} && t.maximum == s.maximum
    requires Accounted(b, s.reservations[id].account, t.reservations)
    ensures SoundRisk(t, shape)
  {
    hide Accounted;
    AddSize(s.accounts, s.reservations[id].account, b);
    DropSize(s.reservations, id);
    OthersAccounted(s, t, id, s.reservations[id].account);
  }

  lemma {:induction false} RegisterSound(s: RiskState, id: AccountId, limits: RiskLimits, shape: RiskShape)
    requires SoundRisk(s, shape)
    ensures Register(s, id, limits, shape).Ok? ==> SoundRisk(Register(s, id, limits, shape).value, shape)
  {
    if Register(s, id, limits, shape).Ok? {
      NoneHeld(s, Bought(id));
      NoneHeld(s, Sold(id));
      NoneHeld(s, Opened(id));
    }
  }

  lemma {:induction false} NoneHeld(s: RiskState, kind: Measure)
    requires Anchored(s) && kind.account !in s.accounts
    ensures Total(s.reservations, kind) == 0
    decreases |s.reservations|
  {
    if s.reservations != map[] {
      var id :| id in s.reservations;
      TotalDrop(s.reservations, id, kind);
      NoneHeld(s.(reservations := s.reservations - {id}), kind);
    }
  }

  lemma {:induction false} SetAccountKillSound(s: RiskState, id: AccountId, killed: bool, shape: RiskShape)
    requires SoundRisk(s, shape)
    ensures SetAccountKill(s, id, killed).Ok? ==> SoundRisk(SetAccountKill(s, id, killed).value, shape)
  {
    hide Total;
    if id in s.accounts {
      assert s.accounts[id := s.accounts[id].(killed := killed)].Keys == s.accounts.Keys;
      KeysSize(s.accounts, s.accounts[id := s.accounts[id].(killed := killed)]);
    }
  }

  /** What a passed limit check returns. */
  lemma {:induction false} EvaluateReserves(a: Account, order: NewOrder)
    ensures EvaluateLimits(a, order).Ok? ==>
              var b := EvaluateLimits(a, order).value;
              && b == a.(buys := b.buys, sells := b.sells, open := b.open) && WithinPosition(b)
              && b.open == a.open + 1 <= b.limits.maxOpen
              && b.buys == a.buys + (if order.side == Buy then order.quantity else 0)
              && b.sells == a.sells + (if order.side == Sell then order.quantity else 0)
              && order.quantity <= a.limits.maxQuantity
  {
  }

  /** A passed check reserves exactly the order, and position safety survives. */
  lemma {:induction false} ReserveSound(s: RiskState, order: NewOrder, shape: RiskShape)
    requires SoundRisk(s, shape)
    ensures Reserve(s, order, shape).Ok? ==>
              && SoundRisk(Reserve(s, order, shape).value, shape) && order.orderId !in s.reservations
              && Reserve(s, order, shape).value.reservations
                 == s.reservations[order.orderId := Reservation(order.accountId, order.side, order.quantity)]
  {
    hide Total, Accounted, EvaluateLimits;
    if Reserve(s, order, shape).Ok? {
      var r := Reservation(order.accountId, order.side, order.quantity);
      var a := s.accounts[order.accountId];
      var b := EvaluateLimits(a, order).value;
      EvaluateReserves(a, order);
      SetAccounted(s.reservations, order.orderId, r, a, b);
      SoundAfterSet(s, Reserve(s, order, shape).value, order.orderId, r, b, shape);
    }
  }

  /** The totals of an account cover each of its live reservations. */
  lemma {:induction false} OwnerCovers(s: RiskState, id: OrderId, shape: RiskShape)
    requires SoundRisk(s, shape) && id in s.reservations
    ensures var r := s.reservations[id];
            && r.account in s.accounts && s.accounts[r.account].open >= 1
            && r.quantity <= if r.side == Buy then s.accounts[r.account].buys else s.accounts[r.account].sells
  {
    var a := s.reservations[id].account;
    assert Accounted(s.accounts[a], a, s.reservations);
    TotalDrop(s.reservations, id, Bought(a));
    TotalDrop(s.reservations, id, Sold(a));
    TotalDrop(s.reservations, id, Opened(a));
  }

  /** Filling within an account's exposure cannot overflow and worsens neither worst case. */
  lemma {:induction false} FillExposure(a: Account, id: AccountId, m: map<OrderId, Reservation>, side: Side, filled: Quantity, released: Quantity)
    requires Accounted(a, id, m) && filled <= released <= if side == Buy then a.buys else a.sells
    ensures ExposureAfterFill(a, side, filled, released).Ok?
    ensures var b := ExposureAfterFill(a, side, filled, released).value;
            && WithinPosition(b) && b == a.(settled := b.settled, buys := b.buys, sells := b.sells)
            && b.settled == (if side == Buy then a.settled + filled else a.settled - filled)
            && b.buys == a.buys - (if side == Buy then released else 0)
            && b.sells == a.sells - (if side == Sell then released else 0)
  {
    hide Total;
  }

  /** The owner's totals when a reservation it holds closes. */
  lemma {:induction false} CloseExposure(a: Account, owner: AccountId, m: map<OrderId, Reservation>, id: OrderId, filled: Quantity) returns (b: Account)
    requires id in m && m[id].account == owner && Accounted(a, owner, m) && filled <= m[id].quantity && a.open >= 1
    requires m[id].quantity <= if m[id].side == Buy then a.buys else a.sells
    ensures ExposureAfterFill(a, m[id].side, filled, m[id].quantity) == Ok(b.(open := a.open))
    ensures b.open == a.open - 1 && Accounted(b, owner, m - {id})
  {
    hide ExposureAfterFill;
    FillExposure(a, owner, m, m[id].side, filled, m[id].quantity);
    b := ExposureAfterFill(a, m[id].side, filled, m[id].quantity).value.(open := a.open - 1);
    DropAccounted(m, id, a, b);
  }

  /** Closing a live reservation cannot fail. */
  lemma {:induction false} CloseSound(s: RiskState, id: OrderId, filled: Quantity, shape: RiskShape)
    requires SoundRisk(s, shape) && id in s.reservations && filled <= s.reservations[id].quantity
    ensures Close(s, id, filled).Ok?
    ensures var t := Close(s, id, filled).value; SoundRisk(t, shape) && t.reservations == s.reservations - {id}
  {
    OwnerCovers(s, id, shape);
    var r := s.reservations[id];
    var a := s.accounts[r.account];
    var b := CloseExposure(a, r.account, s.reservations, id, filled);
    hide SoundRisk, Accounted, ExposureAfterFill;
    SoundAfterDrop(s, Close(s, id, filled).value, id, b, shape);
  }

  /** A fill is accepted exactly when the reservation covers it; it never overflows. */
  lemma {:induction false} RecordFillSound(s: RiskState, id: OrderId, filled: Quantity, shape: RiskShape)
    requires SoundRisk(s, shape)
    ensures RecordFill(s, id, filled).Ok? <==> filled > 0 && id in s.reservations && filled <= s.reservations[id].quantity
    ensures RecordFill(s, id, filled).Ok? ==>
              var t := RecordFill(s, id, filled).value;
              && SoundRisk(t, shape)
              && t.reservations == if filled == s.reservations[id].quantity then s.reservations - {id}
                                   else s.reservations[id := s.reservations[id].(quantity := s.reservations[id].quantity - filled)]
  {
    hide SoundRisk, Accounted;
    if filled > 0 && id in s.reservations && filled <= s.reservations[id].quantity {
      var r := s.reservations[id];
      if filled == r.quantity {
        CloseSound(s, id, filled, shape);
        assert RecordFill(s, id, filled) == Close(s, id, filled);
      } else {
        OwnerCovers(s, id, shape);
        FillOwner(s, id, filled, shape);
        hide ExposureAfterFill;
        AmendedSound(s, RecordFill(s, id, filled).value, id, r.quantity - filled, shape);
      }
    }
  }

  lemma {:induction false} FillOwner(s: RiskState, id: OrderId, filled: Quantity, shape: RiskShape)
    requires SoundRisk(s, shape) && id in s.reservations && filled <= s.reservations[id].quantity
    ensures var r := s.reservations[id];
            && r.account in s.accounts
            && var a := s.accounts[r.account];
            && ExposureAfterFill(a, r.side, filled, filled).Ok?
            && var b := ExposureAfterFill(a, r.side, filled, filled).value;
            && WithinPosition(b) && b == a.(settled := b.settled, buys := b.buys, sells := b.sells)
            && b.buys == a.buys - (if r.side == Buy then filled else 0)
            && b.sells == a.sells - (if r.side == Sell then filled else 0)
  {
    OwnerCovers(s, id, shape);
    var r := s.reservations[id];
    hide Accounted;
    FillExposure(s.accounts[r.account], r.account, s.reservations, r.side, filled, filled);
  }

  /** Changing one quantity and its owner's totals to match keeps the state sound. */
  lemma {:induction false} AmendedSound(s: RiskState, t: RiskState, id: OrderId, quantity: Quantity, shape: RiskShape)
    requires SoundRisk(s, shape) && id in s.reservations && quantity > 0
    requires var r := s.reservations[id];
             && r.account in s.accounts && r.account in t.accounts
             && t == Amended(s, id, t.accounts[r.account], quantity)
             && var a, b := s.accounts[r.account], t.accounts[r.account];
             && b.limits == a.limits && b.open == a.open
             && b.buys == a.buys + (if r.side == Buy then quantity - r.quantity else 0)
             && b.sells == a.sells + (if r.side == Sell then quantity - r.quantity else 0)
             && WithinPosition(b)
    ensures SoundRisk(t, shape)
  {
    var r := s.reservations[id];
    var a, b := s.accounts[r.account], t.accounts[r.account];
    assert a.open <= a.limits.maxOpen && Accounted(a, r.account, s.reservations);
    assert s.maximum.Some? && id <= s.maximum.value;
    hide SoundRisk, Accounted;
    SetAccounted(s.reservations, id, r.(quantity := quantity), a, b);
    SoundAfterSet(s, t, id, r.(quantity := quantity), b, shape);
  }

  lemma {:induction false} NotionalOverflows(price: Price, quantity: Quantity)
    ensures Notional(price, quantity).Err? ==> Notional(price, quantity) == Err(ArithmeticOverflow)
  {
  }

  lemma {:induction false} OwnerAccounted(s: RiskState, id: OrderId, shape: RiskShape)
    requires SoundRisk(s, shape) && id in s.reservations
    ensures s.reservations[id].quantity > 0 && s.reservations[id].account in s.accounts
    ensures Accounted(s.accounts[s.reservations[id].account], s.reservations[id].account, s.reservations)
  {
    hide Accounted;
  }

  /** An accepted amendment to a positive quantity keeps the state sound; a rejected
      one is a limit, an ownership or an arithmetic rejection, never a missing account. */
  lemma {:induction false} AdjustSound(s: RiskState, id: OrderId, account: AccountId, price: Price, quantity: Quantity, shape: RiskShape)
    requires SoundRisk(s, shape)
    ensures Adjust(s, id, account, price, quantity) != Err(UnknownAccount)
    ensures Adjust(s, id, account, price, quantity).Ok? ==>
              var done := Adjust(s, id, account, price, quantity).value;
              && Owned(s, id, account) && done.prior == s.reservations[id].quantity
              && done.state.reservations == s.reservations[id := s.reservations[id].(quantity := quantity)]
              && (quantity > 0 ==> SoundRisk(done.state, shape))
    ensures Owned(s, id, account) && quantity <= s.reservations[id].quantity ==> Adjust(s, id, account, price, quantity).Ok?
  {
    hide Total, Notional, SoundRisk;
    NotionalOverflows(price, quantity);
    if id in s.reservations {
      OwnerCovers(s, id, shape);
      var r := s.reservations[id];
      OwnerAccounted(s, id, shape);
      if quantity == r.quantity {
        assert s.reservations == s.reservations[id := r.(quantity := quantity)];
      } else if Adjust(s, id, account, price, quantity).Ok? && quantity > 0 {
        AmendedSound(s, Adjust(s, id, account, price, quantity).value.state, id, quantity, shape);
      }
    }
  }

  /** Rolling an accepted amendment back restores the state exactly, whatever the
      new quantity was, and cannot fail. */
  lemma {:induction false} RestoreUndoesAdjust(s: RiskState, id: OrderId, account: AccountId, price: Price, quantity: Quantity, shape: RiskShape)
    requires SoundRisk(s, shape) && Adjust(s, id, account, price, quantity).Ok?
    ensures var done := Adjust(s, id, account, price, quantity).value;
            Restore(done.state, id, account, done.prior) == Ok(s)
  {
    if quantity != s.reservations[id].quantity {
      OwnerCovers(s, id, shape);
      hide SoundRisk;
      var b := AdjustedAccount(s, id, account, price, quantity);
      hide Adjust;
      AmendedBack(s, id, b, quantity);
      RestoredAccount(s, id, account, b, quantity);
    }
  }

  lemma {:induction false} AdjustedAccount(s: RiskState, id: OrderId, account: AccountId, price: Price, quantity: Quantity) returns (b: Account)
    requires Adjust(s, id, account, price, quantity).Ok? && id in s.reservations && quantity != s.reservations[id].quantity
    ensures Owned(s, id, account) && account in s.accounts
    ensures var r := s.reservations[id];
            && Adjust(s, id, account, price, quantity).value.state == Amended(s, id, b, quantity)
            && Adjust(s, id, account, price, quantity).value.prior == r.quantity
            && Ok(b) == if quantity > r.quantity then Reserved(s.accounts[account], r.side, quantity - r.quantity)
                        else Released(s.accounts[account], r.side, r.quantity - quantity)
  {
    hide Reserved, Released, Notional, PositionDefect, Amended;
    var r := s.reservations[id];
    b := if quantity > r.quantity then Reserved(s.accounts[account], r.side, quantity - r.quantity).value
         else Released(s.accounts[account], r.side, r.quantity - quantity).value;
  }

  lemma {:induction false} RestoredAccount(s: RiskState, id: OrderId, account: AccountId, b: Account, quantity: Quantity)
    requires Owned(s, id, account) && account in s.accounts && quantity != s.reservations[id].quantity
    requires var r := s.reservations[id];
             Ok(b) == if quantity > r.quantity then Reserved(s.accounts[account], r.side, quantity - r.quantity)
                      else Released(s.accounts[account], r.side, r.quantity - quantity)
    ensures var t := Amended(s, id, b, quantity);
            Restore(t, id, account, s.reservations[id].quantity) == Ok(Amended(t, id, s.accounts[account], s.reservations[id].quantity))
  {
    var r := s.reservations[id];
    if quantity > r.quantity {
      ReservedBack(s.accounts[account], r.side, quantity - r.quantity);
    } else {
      ReservedBack(s.accounts[account], r.side, r.quantity - quantity);
    }
    hide Reserved, Released;
  }

  lemma {:induction false} ReservedBack(a: Account, side: Side, quantity: Quantity)
    ensures Reserved(a, side, quantity).Ok? ==> Released(Reserved(a, side, quantity).value, side, quantity) == Ok(a)
    ensures Released(a, side, quantity).Ok? ==> Reserved(Released(a, side, quantity).value, side, quantity) == Ok(a)
  {
  }

  lemma {:induction false} AmendedBack(s: RiskState, id: OrderId, b: Account, quantity: Quantity)
    requires id in s.reservations && s.reservations[id].account in s.accounts
    ensures var t := Amended(s, id, b, quantity);
            && id in t.reservations && t.reservations[id] == s.reservations[id].(quantity := quantity)
            && t.accounts == s.accounts[s.reservations[id].account := b]
            && Amended(t, id, s.accounts[s.reservations[id].account], s.reservations[id].quantity) == s
  {
    var t := Amended(s, id, b, quantity);
    var r := s.reservations[id];
    assert t.reservations[id := r] == s.reservations;
    assert t.accounts[r.account := s.accounts[r.account]] == s.accounts;
  }

  /** A live, owned reservation can always be cancelled, releasing what it holds. */
  lemma {:induction false} CancelReservationSound(s: RiskState, id: OrderId, account: AccountId, shape: RiskShape)
    requires SoundRisk(s, shape)
    ensures CancelReservation(s, id, account).Ok? <==> Owned(s, id, account)
    ensures Owned(s, id, account) ==>
              var done := CancelReservation(s, id, account).value;
              && SoundRisk(done.0, shape) && done.1 == s.reservations[id].quantity
              && done.0.reservations == s.reservations - {id}
  {
    hide SoundRisk, Close;
    if Owned(s, id, account) {
      CloseSound(s, id, 0, shape);
    }
  }

  // Settled positions.

  ghost function NetPosition(accounts: map<AccountId, Account>): int
    decreases |accounts|
  {
    if accounts == map[] then 0
    else
      var id :| id in accounts;
      accounts[id].settled + NetPosition(accounts - {id})
  }

  lemma {:induction false} NetDrop(m: map<AccountId, Account>, id: AccountId)
    requires id in m
    ensures NetPosition(m) == m[id].settled + NetPosition(m - {id})
    decreases |m|
  {
    var other :| other in m && NetPosition(m) == m[other].settled + NetPosition(m - {other});
    if other != id {
      NetDrop(m - {other}, id);
      NetDrop(m - {id}, other);
      assert m - {other} - {id} == m - {id} - {other};
    }
  }

  lemma {:induction false} NetSet(m: map<AccountId, Account>, id: AccountId, a: Account)
    requires id in m
    ensures NetPosition(m[id := a]) == NetPosition(m) + a.settled - m[id].settled
  {
    NetDrop(m, id);
    NetDrop(m[id := a], id);
    assert m[id := a] - {id} == m - {id};
  }

  /** A fill moves the owner's position by the filled quantity, with the side's sign. */
  lemma {:induction false} FillMovesPosition(s: RiskState, id: OrderId, filled: Quantity)
    requires RecordFill(s, id, filled).Ok?
    ensures NetPosition(RecordFill(s, id, filled).value.accounts)
            == NetPosition(s.accounts) + if s.reservations[id].side == Buy then filled as int else -(filled as int)
  {
    var a := s.reservations[id].account;
    NetSet(s.accounts, a, RecordFill(s, id, filled).value.accounts[a]);
  }

  /** Reserving, closing unfilled, amending and restoring move no position. */
  lemma {:induction false} ReserveKeepsPosition(s: RiskState, order: NewOrder, shape: RiskShape)
    requires Reserve(s, order, shape).Ok?
    ensures NetPosition(Reserve(s, order, shape).value.accounts) == NetPosition(s.accounts)
  {
    NetSet(s.accounts, order.accountId, Reserve(s, order, shape).value.accounts[order.accountId]);
  }

  lemma {:induction false} CloseKeepsPosition(s: RiskState, id: OrderId)
    requires id in s.reservations && Close(s, id, 0).Ok?
    ensures NetPosition(Close(s, id, 0).value.accounts) == NetPosition(s.accounts)
  {
    var a := s.reservations[id].account;
    NetSet(s.accounts, a, Close(s, id, 0).value.accounts[a]);
  }

  lemma {:induction false} AdjustKeepsPosition(s: RiskState, id: OrderId, account: AccountId, price: Price, quantity: Quantity)
    requires Adjust(s, id, account, price, quantity).Ok?
    ensures NetPosition(Adjust(s, id, account, price, quantity).value.state.accounts) == NetPosition(s.accounts)
  {
    if quantity != s.reservations[id].quantity {
      NetSet(s.accounts, account, Adjust(s, id, account, price, quantity).value.state.accounts[account]);
    }
  }
}
