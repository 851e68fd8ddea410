/** The risk engine over fixed storage: account cells and reservation seats behind
    probe indices, with a free list threaded through the unused seats. */
module RiskEngines {
  import opened Types
  import opened ProbeIndexing
  import opened RiskSpec
  import opened Tables
  import opened RiskStore

  class RiskEngine {
    const shape: RiskShape
    const cells: array<Option<AccountCell>>
    const accountIndex: ProbeIndex
    const seats: array<Seat>
    const seatIndex: ProbeIndex
    var freeHead: nat
    var maximum: Option<OrderId>
    var killed: bool

    /** The logical state, kept in step with storage. */
    ghost var state: RiskState
    ghost var free: seq<nat>

    ghost predicate Stored()
      reads this, cells, accountIndex.slots, seats, seatIndex.slots
    {
      && accountIndex.slots != seatIndex.slots
      && cells.Length == shape.accounts && seats.Length == shape.orders
      && AccountsOk(cells[..], accountIndex.slots[..], state.accounts)
      && SeatsOk(seats[..], seatIndex.slots[..], state.reservations)
      && FreeList(seats[..], freeHead, free)
      && |state.reservations| + |free| == shape.orders
    }

    ghost predicate Valid()
      reads this, cells, accountIndex.slots, seats, seatIndex.slots
    {
      && Stored()
      && maximum == state.maximum && killed == state.killed
      && SoundRisk(state, shape)
    }

    constructor (shape: RiskShape)
      requires RISK_PLANES * shape.accounts <= U32_BOUND && RISK_PLANES * shape.orders <= U32_BOUND
      ensures Valid() && state == RiskState(map[], map[], None, false) && this.shape == shape
      ensures fresh(cells) && fresh(seats) && fresh(accountIndex) && fresh(accountIndex.slots) && fresh(seatIndex) && fresh(seatIndex.slots)
    {
      this.shape := shape;
      cells := new Option<AccountCell>[shape.accounts](_ => None);
      accountIndex := new ProbeIndex(RISK_PLANES * shape.accounts);
      seats := new Seat[shape.orders]((i: nat) => Free(if i + 1 < shape.orders then i + 1 else NO_SEAT));
      seatIndex := new ProbeIndex(RISK_PLANES * shape.orders);
      freeHead := if shape.orders == 0 then NO_SEAT else 0;
      maximum := None;
      killed := false;
      state := RiskState(map[], map[], None, false);
      free := seq(shape.orders, (i: nat) => i);
      new;
      hide WellProbed;
      EmptyStorage(cells[..], accountIndex.slots[..], seats[..], seatIndex.slots[..], freeHead, free);
      EmptySound(shape);
    }

    /** The cell of an account. */
    method AccountSlot(id: AccountId) returns (r: Option<nat>)
      requires Stored()
      ensures r.Some? <==> id in state.accounts
      ensures r.Some? ==> r.value < cells.Length && cells[r.value] == Some(AccountCell(id, state.accounts[id]))
    {
      hide SeatsOk, FreeList, WellProbed, Holds, CellOk;
      AccountsProbed(cells[..], accountIndex.slots[..], state.accounts);
      var flat := accountIndex.FindSlot(id);
      if flat.None? {
        return None;
      }
      AccountFound(cells[..], accountIndex.slots[..], state.accounts, flat.value);
      r := Some(accountIndex.slots[flat.value].value - 1);
    }

    /** The seat of a live reservation. */
    method LiveReservation(id: OrderId) returns (r: Option<nat>)
      requires Stored()
      ensures r.Some? <==> id in state.reservations
      ensures r.Some? ==> r.value < seats.Length && seats[r.value].Live? && seats[r.value].order == id
                          && state.reservations[id] == ReservationAt(seats[r.value])
    {
      hide AccountsOk, FreeList, WellProbed, Holds, SeatOk, SeatEntry;
      SeatsProbed(seats[..], seatIndex.slots[..], state.reservations);
      var flat := seatIndex.FindSlot(id);
      if flat.None? {
        return None;
      }
      SeatFound(seats[..], seatIndex.slots[..], state.reservations, flat.value);
      r := Some(seatIndex.slots[flat.value].value - 1);
    }

    method StoreAccount(slot: nat, body: Account)
      requires Stored() && slot < cells.Length && cells[slot].Some?
      modifies cells, this`state
      ensures Stored() && old(cells[slot]).Some? && old(cells[slot]).value.id in old(state).accounts
      ensures state == old(state).(accounts := old(state).accounts[old(cells[slot]).value.id := body])
    {
      hide AccountsOk, SeatsOk, FreeList;
      CellWritten(cells[..], accountIndex.slots[..], state.accounts, slot, body);
      var id := cells[slot].value.id;
      ghost var after := cells[..][slot := Some(AccountCell(id, body))];
      cells[slot] := Some(AccountCell(id, body));
      state := state.(accounts := state.accounts[id := body]);
      assert cells[..] == after;
    }

    method PutQuantity(slot: nat, quantity: Quantity)
      requires Stored() && slot < seats.Length && seats[slot].Live?
      modifies seats, this`state
      ensures Stored() && old(seats[slot]).Live? && old(seats[slot]).order in old(state).reservations
      ensures var id := old(seats[slot]).order;
              state == old(state).(reservations := old(state).reservations[id := old(state).reservations[id].(quantity := quantity)])
    {
      hide AccountsOk, SeatsOk, FreeList;
      SeatWritten(seats[..], seatIndex.slots[..], state.reservations, slot, quantity);
      var s := seats[slot].(quantity := quantity);
      ghost var before, after := seats[..], seats[..][slot := s];
      AddSize(state.reservations, s.order, ReservationAt(s));
      seats[slot] := s;
      assert seats[..] == after;
      SameFree(before, after, freeHead, free);
      state := state.(reservations := state.reservations[s.order := ReservationAt(s)]);
    }

    /** Seats a new reservation at the head of the free list. */
    method SeatReservation(id: OrderId, r: Reservation) returns (ok: bool)
      requires Stored() && id !in state.reservations && freeHead != NO_SEAT
      modifies this`freeHead, this`free, this`state, seats, seatIndex.slots
      ensures ok && Stored()
      ensures state == old(state).(reservations := old(state).reservations[id := r])
    {
      hide AccountsOk, SeatsOk, FreeList, WellProbed, Holds;
      var slot := freeHead;
      ghost var was, idx, m := seats[..], seatIndex.slots[..], state.reservations;
      TakeSeat(was, freeHead, free, Live(id, r.account, 0, r.side, r.quantity));
      SeatsProbed(was, idx, m);
      SeatRoom(was, idx, m);
      NotHeld(was, idx, m, id);
      ghost var e :| 0 <= e < |idx| && idx[e].Empty?;
      assert seatIndex.slots[e].Empty?;
      var inserted := seatIndex.Insert(id, slot + 1);
      if inserted.Err? {
        return false;
      }
      var s := Live(id, r.account, inserted.value, r.side, r.quantity);
      TakeSeat(was, freeHead, free, s);
      SeatTaken(was, idx, m, slot, inserted.value, s);
      AddSize(m, id, r);
      freeHead := seats[slot].next;
      seats[slot] := s;
      free := free[1..];
      state := state.(reservations := m[id := r]);
      assert seats[..] == was[slot := s];
      ok := true;
    }

    /** Takes a reservation out of the index and returns its seat to the free list. */
    method Release(slot: nat)
      requires Stored() && slot < seats.Length && seats[slot].Live? && seats[slot].order in state.reservations
      modifies this`freeHead, this`free, this`state, seats, seatIndex.slots
      ensures Stored()
      ensures state == old(state).(reservations := old(state).reservations - {old(seats[slot]).order})
    {
      hide AccountsOk, SeatsOk, FreeList, WellProbed, Relocated, EntriesWithout, MoveSeat, MoveSeats;
      ghost var was, idx, m := seats[..], seatIndex.slots[..], state.reservations;
      SeatsProbed(was, idx, m);
      SeatRoom(was, idx, m);
      ghost var e :| 0 <= e < |idx| && idx[e].Empty?;
      assert seatIndex.slots[e].Empty?;
      SeatIndexed(was, idx, m, slot);
      var id := seats[slot].order;
      var removed, moves := seatIndex.RemoveAt(seats[slot].indexSlot, id);
      ghost var after := seatIndex.slots[..];
      Announce(moves);
      SeatReleased(was, idx, m, after, moves, slot, freeHead);
      DropSize(m, id);
      ghost var moved := MoveSeats(was, moves);
      MovesKeepFree(was, moves, freeHead, free, slot);
      GiveSeat(moved, freeHead, free, slot);
      seats[slot] := Free(freeHead);
      freeHead := slot;
      free := [slot] + free;
      state := state.(reservations := m - {id});
      assert seats[..] == moved[slot := seats[slot]];
    }

    /** Every relocated entry tells its seat the new handle. */
    method Announce(moves: seq<Move>)
      modifies seats
      ensures seats[..] == MoveSeats(old(seats[..]), moves)
    {
      ghost var was := seats[..];
      var t := 0;
      while t < |moves|
        invariant 0 <= t <= |moves|
        invariant seats[..] == MoveSeats(was, moves[..t])
      {
        assert moves[..t + 1][..t] == moves[..t];
        var v := moves[t];
        ghost var before := seats[..];
        if 1 <= v.value <= seats.Length {
          var s := seats[v.value - 1];
          if s.Live? && s.order == v.key {
            seats[v.value - 1] := s.(indexSlot := v.position);
          }
        }
        assert seats[..] == MoveSeat(before, v);
        t := t + 1;
      }
      assert moves[..t] == moves;
    }

    /** Sets the watermark and kill switch of an engine whose tables are loaded. */
    method Start(maximum: Option<OrderId>, killed: bool)
      requires Stored() && SoundRisk(state.(maximum := maximum, killed := killed), shape)
      modifies this`maximum, this`killed, this`state
      ensures Valid() && state == old(state).(maximum := maximum, killed := killed)
    {
      hide SeatsOk, FreeList, AccountsOk, SoundRisk;
      this.maximum := maximum;
      this.killed := killed;
      state := state.(maximum := maximum, killed := killed);
    }

    lemma {:induction false} CellRoom()
      requires Stored()
      ensures cells.Length == shape.accounts && seats.Length == shape.orders
    {
    }

    lemma {:induction false} SeatLeft()
      requires Stored()
      ensures freeHead == NO_SEAT <==> |state.reservations| == shape.orders
    {
      HeadIffRoom(seats[..], freeHead, free);
    }

    // Administration.

    method RegisterAccount(id: AccountId, limits: RiskLimits) returns (r: Result<(), RegistrationError>)
      requires Valid()
      modifies cells, accountIndex.slots, this`state
      ensures Valid()
      ensures match Register(old(state), id, limits, shape)
              case Err(e) => r == Err(e) && state == old(state)
              case Ok(s) => r == Ok(()) && state == s
    {
      hide SeatsOk, FreeList, AccountsOk, WellProbed, SoundRisk, Holds;
      if !ValidLimits(limits) {
        return Err(InvalidLimits);
      }
      var known := AccountSlot(id);
      if known.Some? {
        return Err(DuplicateAccount);
      }
      var slot := 0;
      CellsUsed(cells[..], accountIndex.slots[..], state.accounts);
      while slot < cells.Length && cells[slot].Some?
        invariant slot <= cells.Length && forall i :: 0 <= i < slot ==> cells[i].Some?
      {
        slot := slot + 1;
      }
      assert slot > 0 ==> cells[slot - 1].Some?;
      if slot == cells.Length {
        return Err(AccountCapacity);
      }
      assert slot == |state.accounts|;
      RegisterSound(state, id, limits, shape);
      OpenCell(slot, id, Account(limits, 0, 0, 0, 0, false));
      r := Ok(());
    }

    /** Opens the next unused cell for a new account. */
    method OpenCell(slot: nat, id: AccountId, body: Account)
      requires Stored() && id !in state.accounts && slot == |state.accounts| < cells.Length
      modifies cells, accountIndex.slots, this`state
      ensures Stored() && state == old(state).(accounts := old(state).accounts[id := body])
    {
      hide SeatsOk, FreeList, AccountsOk, WellProbed, Holds;
      ghost var was, idx, m := cells[..], accountIndex.slots[..], state.accounts;
      AccountsProbed(was, idx, m);
      AccountRoom(was, idx, m);
      AccountNotHeld(was, idx, m, id);
      ghost var e :| 0 <= e < |idx| && idx[e].Empty?;
      assert accountIndex.slots[e].Empty?;
      var inserted := accountIndex.Insert(id, slot + 1);
      CellOpened(was, idx, m, id, body, inserted.value);
      cells[slot] := Some(AccountCell(id, body));
      state := state.(accounts := m[id := body]);
      assert cells[..] == was[slot := cells[slot]];
    }

    method SetKillSwitch(on: bool)
      requires Valid()
      modifies this`killed, this`state
      ensures Valid() && state == old(state).(killed := on)
    {
      hide SeatsOk, FreeList, AccountsOk, Accounted;
      killed := on;
      state := state.(killed := on);
    }

    method SetAccountKillSwitch(id: AccountId, on: bool) returns (r: Result<(), RejectReason>)
      requires Valid()
      modifies cells, this`state
      ensures Valid()
      ensures match SetAccountKill(old(state), id, on)
              case Err(e) => r == Err(e) && state == old(state)
              case Ok(s) => r == Ok(()) && state == s
    {
      hide SeatsOk, FreeList, AccountsOk, SoundRisk;
      var slot := AccountSlot(id);
      if slot.None? {
        return Err(UnknownAccount);
      }
      SetAccountKillSound(state, id, on, shape);
      StoreAccount(slot.value, cells[slot.value].value.body.(killed := on));
      r := Ok(());
    }

    // Order flow.

    /** Checks one order against every limit and reserves it. A rejection changes nothing. */
    method CheckAndReserve(order: NewOrder) returns (r: Result<(), RejectReason>)
      requires Valid()
      modifies this`freeHead, this`free, this`state, this`maximum, cells, seats, seatIndex.slots
      ensures Valid()
      ensures match Reserve(old(state), order, shape)
              case Err(e) => r == Err(e) && state == old(state)
              case Ok(s) => r == Ok(()) && state == s
    {
      hide SeatsOk, FreeList, AccountsOk, SoundRisk, EvaluateLimits;
      ghost var before := state;
      HeadIffRoom(seats[..], freeHead, free);
      if killed {
        return Err(KillSwitch);
      }
      if order.quantity == 0 {
        return Err(InvalidQuantity);
      }
      if maximum.Some? && order.orderId <= maximum.value {
        return Err(DuplicateOrderId);
      }
      if freeHead == NO_SEAT {
        return Err(OrderCapacity);
      }
      var slot := AccountSlot(order.accountId);
      if slot.None? {
        return Err(UnknownAccount);
      }
      var checked := EvaluateLimits(cells[slot.value].value.body, order);
      if checked.Err? {
        return Err(checked.error);
      }
      ReserveSound(state, order, shape);
      var ok := SeatReservation(order.orderId, Reservation(order.accountId, order.side, order.quantity));
      if !ok {
        return Err(ArithmeticOverflow);
      }
      StoreAccount(slot.value, checked.value);
      maximum := Some(order.orderId);
      state := state.(maximum := Some(order.orderId));
      r := Ok(());
    }

    /** Settles a located reservation and frees its seat. */
    method SettleReservation(slot: nat, filled: Quantity) returns (r: Result<(), RejectReason>)
      requires Valid() && slot < seats.Length && seats[slot].Live? && seats[slot].order in state.reservations
      requires state.reservations[seats[slot].order] == ReservationAt(seats[slot]) && filled <= seats[slot].quantity
      modifies this`freeHead, this`free, this`state, cells, seats, seatIndex.slots
      ensures Valid() && r == Ok(())
      ensures Close(old(state), old(seats[slot]).order, filled) == Ok(state)
    {
      hide SeatsOk, FreeList, AccountsOk, SoundRisk, ExposureAfterFill;
      var s := seats[slot];
      CloseSound(state, s.order, filled, shape);
      var at := AccountSlot(s.account);
      if at.None? {
        return Err(UnknownAccount);
      }
      match ExposureAfterFill(cells[at.value].value.body, s.side, filled, s.quantity) {
        case Err(e) => r := Err(e);
        case Ok(closed) =>
          if closed.open == 0 {
            return Err(ArithmeticOverflow);
          }
          StoreAccount(at.value, closed.(open := closed.open - 1));
          Release(slot);
          r := Ok(());
      }
    }

    method SettleOrder(id: OrderId, filled: Quantity) returns (r: Result<(), RejectReason>)
      requires Valid()
      modifies this`freeHead, this`free, this`state, cells, seats, seatIndex.slots
      ensures Valid()
      ensures match Settle(old(state), id, filled)
              case Err(e) => r == Err(e) && state == old(state)
              case Ok(s) => r == Ok(()) && state == s
    {
      hide SeatsOk, FreeList, AccountsOk, SoundRisk, Close;
      var slot := LiveReservation(id);
      if slot.None? {
        return Err(UnknownOrder);
      }
      if filled > seats[slot.value].quantity {
        return Err(InvalidQuantity);
      }
      r := SettleReservation(slot.value, filled);
    }

    /** Applies one fill; a fully filled order closes and its position stays. */
    method Fill(id: OrderId, filled: Quantity) returns (r: Result<(), RejectReason>)
      requires Valid()
      modifies this`freeHead, this`free, this`state, cells, seats, seatIndex.slots
      ensures Valid()
      ensures match RecordFill(old(state), id, filled)
              case Err(e) => r == Err(e) && state == old(state)
              case Ok(s) => r == Ok(()) && state == s
    {
      hide SeatsOk, FreeList, AccountsOk, SoundRisk, ExposureAfterFill;
      if filled == 0 {
        return Err(InvalidQuantity);
      }
      var slot := LiveReservation(id);
      if slot.None? {
        return Err(UnknownOrder);
      }
      var s := seats[slot.value];
      if filled > s.quantity {
        return Err(InvalidQuantity);
      }
      var at := AccountSlot(s.account);
      if at.None? {
        return Err(UnknownAccount);
      }
      RecordFillSound(state, id, filled, shape);
      var left := s.quantity - filled;
      match ExposureAfterFill(cells[at.value].value.body, s.side, filled, filled) {
        case Err(e) => r := Err(e);
        case Ok(after) =>
          if left > 0 {
            StoreAccount(at.value, after);
            PutQuantity(slot.value, left);
          } else {
            if after.open == 0 {
              return Err(ArithmeticOverflow);
            }
            StoreAccount(at.value, after.(open := after.open - 1));
            Release(slot.value);
          }
          r := Ok(());
      }
    }

    /** Writes an amended reservation and its account. */
    method Amend(slot: nat, at: nat, body: Account, quantity: Quantity)
      requires Stored() && slot < seats.Length && seats[slot].Live? && at < cells.Length && cells[at].Some?
      requires seats[slot].order in state.reservations && state.reservations[seats[slot].order] == ReservationAt(seats[slot])
      requires cells[at].value.id == seats[slot].account
      modifies this`state, cells, seats
      ensures Stored() && old(seats[slot]).Live? && old(seats[slot]).order in old(state).reservations
      ensures state == Amended(old(state), old(seats[slot]).order, body, quantity)
      ensures state.maximum == old(state).maximum && state.killed == old(state).killed
    {
      hide SeatsOk, FreeList, AccountsOk;
      StoreAccount(at, body);
      PutQuantity(slot, quantity);
    }

    /** Amends an owned reservation; the caller restores it if the book then refuses,
        so the new quantity may be anything, even zero. */
    method AdjustReservation(id: OrderId, account: AccountId, price: Price, quantity: Quantity) returns (r: Result<(Quantity, Quantity), RejectReason>)
      requires Valid()
      modifies this`state, cells, seats
      ensures Stored() && maximum == state.maximum && killed == state.killed
      ensures match Adjust(old(state), id, account, price, quantity)
              case Err(e) => r == Err(e) && state == old(state)
              case Ok(done) => r == Ok((done.released, done.prior)) && state == done.state
    {
      hide SeatsOk, FreeList, AccountsOk, SoundRisk, Notional, PositionDefect, Reserved, Released, Amended;
      var slot := LiveReservation(id);
      if slot.None? {
        return Err(UnknownOrder);
      }
      var s := seats[slot.value];
      if s.account != account {
        return Err(NotOrderOwner);
      }
      if quantity == s.quantity {
        return Ok((0, s.quantity));
      }
      var at := AccountSlot(account);
      if at.None? {
        return Err(UnknownAccount);
      }
      var a := cells[at.value].value.body;
      if quantity > s.quantity {
        var more := Reserved(a, s.side, quantity - s.quantity);
        if more.Err? {
          return Err(more.error);
        }
        var notional := Notional(price, quantity);
        if notional.Err? {
          return Err(notional.error);
        }
        if notional.value > more.value.limits.maxNotional {
          return Err(NotionalLimit);
        }
        var defect := PositionDefect(more.value);
        if defect.Some? {
          return Err(defect.value);
        }
        Amend(slot.value, at.value, more.value, quantity);
        return Ok((0, s.quantity));
      }
      var less := Released(a, s.side, s.quantity - quantity);
      if less.Err? {
        return Err(less.error);
      }
      Amend(slot.value, at.value, less.value, quantity);
      r := Ok((s.quantity - quantity, s.quantity));
    }

    /** Restores a reservation's total after a rolled-back amendment. */
    method RestoreReservation(id: OrderId, account: AccountId, prior: Quantity) returns (r: Result<(), RejectReason>)
      requires Stored()
      modifies this`state, cells, seats
      ensures Stored() && maximum == old(maximum) && killed == old(killed)
      ensures match Restore(old(state), id, account, prior)
              case Err(e) => r == Err(e) && state == old(state)
              case Ok(s) => r == Ok(()) && state == s
    {
      hide SeatsOk, FreeList, AccountsOk, Reserved, Released, Amended;
      var slot := LiveReservation(id);
      if slot.None? {
        return Err(UnknownOrder);
      }
      var s := seats[slot.value];
      if s.account != account {
        return Err(NotOrderOwner);
      }
      if prior == s.quantity {
        return Ok(());
      }
      var at := AccountSlot(account);
      if at.None? {
        return Err(UnknownAccount);
      }
      var a := cells[at.value].value.body;
      var back := if prior > s.quantity then Reserved(a, s.side, prior - s.quantity) else Released(a, s.side, s.quantity - prior);
      if back.Err? {
        return Err(back.error);
      }
      Amend(slot.value, at.value, back.value, prior);
      r := Ok(());
    }

    method CanCancel(id: OrderId, account: AccountId) returns (r: Option<RejectReason>)
      requires Valid()
      ensures r == OwnerDefect(state, id, account)
    {
      hide SeatsOk, FreeList, AccountsOk, SoundRisk;
      var slot := LiveReservation(id);
      if slot.None? {
        return Some(UnknownOrder);
      }
      return if seats[slot.value].account != account then Some(NotOrderOwner) else None;
    }

    method Cancel(id: OrderId, account: AccountId) returns (r: Result<Quantity, RejectReason>)
      requires Valid()
      modifies this`freeHead, this`free, this`state, cells, seats, seatIndex.slots
      ensures Valid()
      ensures match CancelReservation(old(state), id, account)
              case Err(e) => r == Err(e) && state == old(state)
              case Ok(done) => r == Ok(done.1) && state == done.0
    {
      hide SeatsOk, FreeList, AccountsOk, SoundRisk, Close;
      var slot := LiveReservation(id);
      if slot.None? {
        return Err(UnknownOrder);
      }
      var s := seats[slot.value];
      if s.account != account {
        return Err(NotOrderOwner);
      }
      var settled := SettleReservation(slot.value, 0);
      r := Ok(s.quantity);
    }
  }

  lemma {:induction false} EmptyStorage(cells: seq<Option<AccountCell>>, accountSlots: seq<Slot>, seats: seq<Seat>, seatSlots: seq<Slot>, head: nat, free: seq<nat>)
    requires WellProbed(accountSlots) && |accountSlots| == RISK_PLANES * |cells| && forall i :: 0 <= i < |accountSlots| ==> accountSlots[i] == Empty
    requires WellProbed(seatSlots) && |seatSlots| == RISK_PLANES * |seats| && forall i :: 0 <= i < |seatSlots| ==> seatSlots[i] == Empty
    requires forall i :: 0 <= i < |cells| ==> cells[i] == None
    requires forall i :: 0 <= i < |seats| ==> seats[i] == Free(if i + 1 < |seats| then i + 1 else NO_SEAT)
    requires head == (if seats == [] then NO_SEAT else 0) && |free| == |seats| < NO_SEAT
    requires forall i :: 0 <= i < |free| ==> free[i] == i
    ensures AccountsOk(cells, accountSlots, map[])
    ensures SeatsOk(seats, seatSlots, map[])
    ensures FreeList(seats, head, free)
  {
    hide WellProbed;
    forall k | 0 <= k < |free| ensures FreeSeat(seats, free, k) {
    }
    forall i | 0 <= i < |seats| && seats[i].Free? ensures i in free {
      assert free[i] == i;
    }
  }

  lemma {:induction false} AccountsProbed(cells: seq<Option<AccountCell>>, idx: seq<Slot>, accounts: map<AccountId, Account>)
    requires AccountsOk(cells, idx, accounts)
    ensures WellProbed(idx) && forall id :: id in accounts ==> Holds(idx, id)
  {
  }

  lemma {:induction false} AccountFound(cells: seq<Option<AccountCell>>, idx: seq<Slot>, accounts: map<AccountId, Account>, flat: nat)
    requires AccountsOk(cells, idx, accounts) && flat < |idx| && idx[flat].Occupied?
    ensures 1 <= idx[flat].value <= |cells|
    ensures var c := cells[idx[flat].value - 1];
            c.Some? && c.value.id == idx[flat].key && c.value.id in accounts && c.value.body == accounts[c.value.id]
  {
    hide Reachable;
    assert AccountEntry(cells, idx[flat]);
    assert CellOk(cells, idx, accounts, idx[flat].value - 1);
  }

  lemma {:induction false} AccountNotHeld(cells: seq<Option<AccountCell>>, idx: seq<Slot>, accounts: map<AccountId, Account>, id: AccountId)
    requires AccountsOk(cells, idx, accounts) && id !in accounts
    ensures !Holds(idx, id)
  {
    hide Reachable;
    if Holds(idx, id) {
      var i :| 0 <= i < |idx| && idx[i].Occupied? && idx[i].key == id;
      AccountFound(cells, idx, accounts, i);
    }
  }

  lemma {:induction false} CellsUsed(cells: seq<Option<AccountCell>>, idx: seq<Slot>, accounts: map<AccountId, Account>)
    requires AccountsOk(cells, idx, accounts)
    ensures forall i :: 0 <= i < |cells| ==> (cells[i].Some? <==> i < |accounts|)
  {
  }

  lemma {:induction false} SeatsProbed(seats: seq<Seat>, idx: seq<Slot>, m: map<OrderId, Reservation>)
    requires SeatsOk(seats, idx, m)
    ensures WellProbed(idx) && forall id :: id in m ==> Holds(idx, id)
  {
  }

  lemma {:induction false} SeatFound(seats: seq<Seat>, idx: seq<Slot>, m: map<OrderId, Reservation>, flat: nat)
    requires SeatsOk(seats, idx, m) && flat < |idx| && idx[flat].Occupied?
    ensures 1 <= idx[flat].value <= |seats|
    ensures var s := seats[idx[flat].value - 1];
            s.Live? && s.order == idx[flat].key && s.order in m && m[s.order] == ReservationAt(s)
  {
    hide Reachable;
    assert SeatEntry(seats, idx, flat);
    assert SeatOk(seats, idx, m, idx[flat].value - 1);
  }

  lemma {:induction false} SeatIndexed(seats: seq<Seat>, idx: seq<Slot>, m: map<OrderId, Reservation>, slot: nat)
    requires SeatsOk(seats, idx, m) && slot < |seats| && seats[slot].Live?
    ensures seats[slot].indexSlot < |idx| && idx[seats[slot].indexSlot] == Occupied(seats[slot].order, slot + 1)
  {
    assert SeatOk(seats, idx, m, slot);
  }

  lemma {:induction false} NotHeld(seats: seq<Seat>, idx: seq<Slot>, m: map<OrderId, Reservation>, id: OrderId)
    requires SeatsOk(seats, idx, m) && id !in m
    ensures !Holds(idx, id)
  {
    hide Reachable;
    if Holds(idx, id) {
      var i :| 0 <= i < |idx| && idx[i].Occupied? && idx[i].key == id;
      SeatFound(seats, idx, m, i);
    }
  }

  lemma {:induction false} MovesKeepFree(seats: seq<Seat>, moves: seq<Move>, head: nat, free: seq<nat>, slot: nat)
    requires FreeList(seats, head, free) && slot < |seats| && seats[slot].Live?
    ensures FreeList(MoveSeats(seats, moves), head, free) && MoveSeats(seats, moves)[slot].Live?
  {
    forall i | 0 <= i < |seats|
      ensures if seats[i].Free? then MoveSeats(seats, moves)[i] == seats[i] else MoveSeats(seats, moves)[i].Live?
    {
      ApplyMovesAt(seats, moves, i);
    }
    hide FreeList;
    SameFree(seats, MoveSeats(seats, moves), head, free);
  }

  lemma {:induction false} HeadIffRoom(seats: seq<Seat>, head: nat, free: seq<nat>)
    requires FreeList(seats, head, free)
    ensures head == NO_SEAT <==> free == []
  {
    if free != [] {
      assert FreeSeat(seats, free, 0);
    }
  }
}
