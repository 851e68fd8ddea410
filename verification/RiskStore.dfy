/** Storage of the risk engine: account cells and stable reservation seats, each
    behind a probe index, and what ties them to the logical maps. */
module RiskStore {
  import opened Types
  import opened ProbeIndexing
  import opened RiskSpec
  import opened Tables

  /** Two planes keep each index at or below half load. */
  const RISK_PLANES: nat := 2

  /** Terminator of the free list. */
  const NO_SEAT: nat := U64_BOUND - 1

  datatype AccountCell = AccountCell(id: AccountId, body: Account)

  datatype Seat =
    | Free(next: nat)
    | Live(order: OrderId, account: AccountId, indexSlot: nat, side: Side, quantity: Quantity)

  function ReservationAt(s: Seat): Reservation
    requires s.Live?
  {
    Reservation(s.account, s.side, s.quantity)
  }

  // Accounts. Index values are cell numbers plus one.

  ghost predicate CellOk(cells: seq<Option<AccountCell>>, idx: seq<Slot>, accounts: map<AccountId, Account>, i: nat)
    requires i < |cells|
  {
    cells[i].Some? ==>
      && cells[i].value.id in accounts && accounts[cells[i].value.id] == cells[i].value.body
      && Occupied(cells[i].value.id, i + 1) in idx
  }

  ghost predicate AccountEntry(cells: seq<Option<AccountCell>>, e: Slot) {
    e.Occupied? ==> 1 <= e.value <= |cells| && cells[e.value - 1].Some? && cells[e.value - 1].value.id == e.key
  }

  /** The cells in use are the first ones, and together they are `accounts`. */
  ghost predicate AccountsOk(cells: seq<Option<AccountCell>>, idx: seq<Slot>, accounts: map<AccountId, Account>) {
    && WellProbed(idx) && |idx| == RISK_PLANES * |cells|
    && (forall i :: 0 <= i < |cells| ==> CellOk(cells, idx, accounts, i) && (cells[i].Some? <==> i < |accounts|))
    && (forall e :: e in idx ==> AccountEntry(cells, e))
    && (forall id :: id in accounts ==> Holds(idx, id))
  }

  lemma {:induction false} CellWritten(cells: seq<Option<AccountCell>>, idx: seq<Slot>, accounts: map<AccountId, Account>, i: nat, body: Account)
    requires AccountsOk(cells, idx, accounts) && i < |cells| && cells[i].Some?
    ensures cells[i].value.id in accounts
    ensures AccountsOk(cells[i := Some(AccountCell(cells[i].value.id, body))], idx, accounts[cells[i].value.id := body])
  {
    var id := cells[i].value.id;
    var after, m := cells[i := Some(AccountCell(id, body))], accounts[id := body];
    assert CellOk(cells, idx, accounts, i);
    AddSize(accounts, id, body);
    hide Reachable;
    forall k | 0 <= k < |after| ensures CellOk(after, idx, m, k) && (after[k].Some? <==> k < |m|) {
      assert CellOk(cells, idx, accounts, k);
      if k != i && cells[k].Some? {
        OtherCell(cells, idx, accounts, i, k);
      }
    }
    forall e | e in idx ensures AccountEntry(after, e) {
      assert AccountEntry(cells, e);
    }
  }

  lemma {:induction false} OtherCell(cells: seq<Option<AccountCell>>, idx: seq<Slot>, accounts: map<AccountId, Account>, i: nat, k: nat)
    requires AccountsOk(cells, idx, accounts) && i < |cells| && k < |cells| && cells[i].Some? && cells[k].Some? && i != k
    ensures cells[i].value.id != cells[k].value.id
  {
    hide Reachable;
    assert CellOk(cells, idx, accounts, i) && CellOk(cells, idx, accounts, k);
  }

  lemma {:induction false} CellOpened(cells: seq<Option<AccountCell>>, idx: seq<Slot>, accounts: map<AccountId, Account>, id: AccountId, body: Account, flat: nat)
    requires AccountsOk(cells, idx, accounts) && |accounts| < |cells| && id !in accounts
    requires flat < |idx| && idx[flat].Empty? && WellProbed(idx[flat := Occupied(id, |accounts| + 1)])
    ensures AccountsOk(cells[|accounts| := Some(AccountCell(id, body))], idx[flat := Occupied(id, |accounts| + 1)], accounts[id := body])
  {
    hide WellProbed, Holds, AccountsOk;
    var entry := Occupied(id, |accounts| + 1);
    KeptEntries(idx, flat, entry);
    HeldAfter(idx, flat, id, |accounts| + 1);
    AccountsOpened(cells, idx, idx[flat := entry], accounts, id, body);
  }

  /** An index that gained exactly the new account's entry indexes the new cells. */
  lemma {:induction false} AccountsOpened(cells: seq<Option<AccountCell>>, idx: seq<Slot>, next: seq<Slot>, accounts: map<AccountId, Account>, id: AccountId, body: Account)
    requires AccountsOk(cells, idx, accounts) && |accounts| < |cells| && id !in accounts
    requires WellProbed(next) && |next| == |idx| && Occupied(id, |accounts| + 1) in next
    requires forall x: Slot :: x.Occupied? && x in idx ==> x in next
    requires forall x :: x in next ==> x in idx || x == Occupied(id, |accounts| + 1)
    requires Holds(next, id) && forall x: U64 :: Holds(idx, x) ==> Holds(next, x)
    ensures AccountsOk(cells[|accounts| := Some(AccountCell(id, body))], next, accounts[id := body])
  {
    hide WellProbed, Holds, CellOk, AccountEntry;
    var after, m := cells[|accounts| := Some(AccountCell(id, body))], accounts[id := body];
    AddSize(accounts, id, body);
    forall k | 0 <= k < |after| ensures CellOk(after, next, m, k) {
      OpenedCell(cells, idx, next, accounts, id, body, k);
    }
    forall e | e in next ensures AccountEntry(after, e) {
      OpenedEntry(cells, AccountCell(id, body), |accounts|, e, e in idx);
    }
  }

  lemma {:induction false} OpenedCell(cells: seq<Option<AccountCell>>, idx: seq<Slot>, next: seq<Slot>, accounts: map<AccountId, Account>, id: AccountId, body: Account, k: nat)
    requires |accounts| < |cells| && id !in accounts && k < |cells| && CellOk(cells, idx, accounts, k)
    requires Occupied(id, |accounts| + 1) in next && forall x: Slot :: x.Occupied? && x in idx ==> x in next
    ensures CellOk(cells[|accounts| := Some(AccountCell(id, body))], next, accounts[id := body], k)
  {
  }

  lemma {:induction false} OpenedEntry(cells: seq<Option<AccountCell>>, cell: AccountCell, i: nat, e: Slot, kept: bool)
    requires i < |cells| && cells[i].None?
    requires if kept then AccountEntry(cells, e) else e == Occupied(cell.id, i + 1)
    ensures AccountEntry(cells[i := Some(cell)], e)
  {
  }

  lemma {:induction false} HeldAfter(idx: seq<Slot>, flat: nat, key: U64, value: nat)
    requires flat < |idx| && idx[flat].Empty?
    ensures Holds(idx[flat := Occupied(key, value)], key)
    ensures forall x: U64 :: Holds(idx, x) ==> Holds(idx[flat := Occupied(key, value)], x)
  {
    var next := idx[flat := Occupied(key, value)];
    assert next[flat].Occupied? && next[flat].key == key;
    forall x: U64 | Holds(idx, x) ensures Holds(next, x) {
      var j :| 0 <= j < |idx| && idx[j].Occupied? && idx[j].key == x;
      assert next[j].Occupied? && next[j].key == x;
    }
  }

  lemma {:induction false} KeptEntries(idx: seq<Slot>, flat: nat, e: Slot)
    requires flat < |idx| && idx[flat].Empty?
    ensures e in idx[flat := e]
    ensures forall x: Slot :: x.Occupied? && x in idx ==> x in idx[flat := e]
    ensures forall x :: x in idx[flat := e] ==> x in idx || x == e
  {
    assert idx[flat := e][flat] == e;
    forall x: Slot | x.Occupied? && x in idx ensures x in idx[flat := e] {
      var j :| 0 <= j < |idx| && idx[j] == x;
      assert idx[flat := e][j] == x;
    }
  }

  lemma {:induction false} HoldsIn(idx: seq<Slot>, key: U64)
    requires Holds(idx, key)
    ensures exists e :: e in idx && e.Occupied? && e.key == key
  {
    var i :| 0 <= i < |idx| && idx[i].Occupied? && idx[i].key == key;
    assert idx[i] in idx;
  }

  lemma {:induction false} EntryHeld(idx: seq<Slot>, key: U64)
    requires exists e :: e in idx && e.Occupied? && e.key == key
    ensures Holds(idx, key)
  {
  }

  // Reservations.

  ghost predicate SeatOk(seats: seq<Seat>, idx: seq<Slot>, m: map<OrderId, Reservation>, i: nat)
    requires i < |seats|
  {
    seats[i].Live? ==>
      && seats[i].order in m && m[seats[i].order] == ReservationAt(seats[i])
      && seats[i].indexSlot < |idx| && idx[seats[i].indexSlot] == Occupied(seats[i].order, i + 1)
  }

  /** An occupied bucket leads to the live seat whose handle is that bucket. */
  ghost predicate SeatEntry(seats: seq<Seat>, idx: seq<Slot>, h: nat)
    requires h < |idx|
  {
    idx[h].Occupied? ==>
      && 1 <= idx[h].value <= |seats| && seats[idx[h].value - 1].Live?
      && seats[idx[h].value - 1].order == idx[h].key && seats[idx[h].value - 1].indexSlot == h
  }

  /** Live seats and index entries agree in both directions and are `m`. */
  ghost predicate SeatsOk(seats: seq<Seat>, idx: seq<Slot>, m: map<OrderId, Reservation>) {
    && WellProbed(idx) && |idx| == RISK_PLANES * |seats|
    && (forall i :: 0 <= i < |seats| ==> SeatOk(seats, idx, m, i))
    && (forall h :: 0 <= h < |idx| ==> SeatEntry(seats, idx, h))
    && (forall id :: id in m ==> Holds(idx, id))
  }

  /** The free seats, in the order the free list hands them out. */
  ghost predicate FreeList(seats: seq<Seat>, head: nat, free: seq<nat>) {
    && head == (if free == [] then NO_SEAT else free[0])
    && (forall k :: 0 <= k < |free| ==> FreeSeat(seats, free, k))
    && (forall j, k :: 0 <= j < k < |free| ==> free[j] != free[k])
    && (forall i :: 0 <= i < |seats| && seats[i].Free? ==> i in free)
    && |seats| < NO_SEAT
  }

  ghost predicate FreeSeat(seats: seq<Seat>, free: seq<nat>, k: nat)
    requires k < |free|
  {
    && free[k] < |seats| && seats[free[k]].Free?
    && seats[free[k]].next == if k + 1 < |free| then free[k + 1] else NO_SEAT
  }

  lemma {:induction false} TakeSeat(seats: seq<Seat>, head: nat, free: seq<nat>, s: Seat)
    requires FreeList(seats, head, free) && head != NO_SEAT && s.Live?
    ensures free != [] && head == free[0] && head < |seats| && seats[head].Free?
    ensures FreeList(seats[head := s], seats[head].next, free[1..])
  {
    assert FreeSeat(seats, free, 0);
    var after, rest := seats[head := s], free[1..];
    forall k | 0 <= k < |rest| ensures FreeSeat(after, rest, k) {
      assert FreeSeat(seats, free, k + 1);
      assert rest[k] == free[k + 1] && free[0] != free[k + 1];
    }
    forall i | 0 <= i < |after| && after[i].Free? ensures i in rest {
      assert i in free;
      var k :| 0 <= k < |free| && free[k] == i;
      assert rest[k - 1] == i;
    }
  }

  lemma {:induction false} GiveSeat(seats: seq<Seat>, head: nat, free: seq<nat>, slot: nat)
    requires FreeList(seats, head, free) && slot < |seats| && seats[slot].Live?
    ensures FreeList(seats[slot := Free(head)], slot, [slot] + free)
  {
    var after, more := seats[slot := Free(head)], [slot] + free;
    forall k | 0 <= k < |more| ensures FreeSeat(after, more, k) {
      if k > 0 {
        assert FreeSeat(seats, free, k - 1);
      }
    }
    forall j, k | 0 <= j < k < |more| ensures more[j] != more[k] {
      assert FreeSeat(seats, free, k - 1);
    }
    forall i | 0 <= i < |after| && after[i].Free? ensures i in more {
      if i == slot {
        assert more[0] == i;
      } else {
        assert i in free;
      }
    }
  }

  /** Seats that differ only in what live seats hold have the same free list. */
  lemma {:induction false} SameFree(seats: seq<Seat>, after: seq<Seat>, head: nat, free: seq<nat>)
    requires FreeList(seats, head, free) && |after| == |seats|
    requires forall i :: 0 <= i < |seats| ==> if seats[i].Free? then after[i] == seats[i] else after[i].Live?
    ensures FreeList(after, head, free)
  {
    forall k | 0 <= k < |free| ensures FreeSeat(after, free, k) {
      assert FreeSeat(seats, free, k);
    }
  }

  lemma {:induction false} SeatTaken(seats: seq<Seat>, idx: seq<Slot>, m: map<OrderId, Reservation>, slot: nat, flat: nat, s: Seat)
    requires SeatsOk(seats, idx, m) && slot < |seats| && seats[slot].Free? && s.Live? && s.order !in m
    requires flat < |idx| && idx[flat].Empty? && s.indexSlot == flat && WellProbed(idx[flat := Occupied(s.order, slot + 1)])
    ensures SeatsOk(seats[slot := s], idx[flat := Occupied(s.order, slot + 1)], m[s.order := ReservationAt(s)])
  {
    var after, next, r := seats[slot := s], idx[flat := Occupied(s.order, slot + 1)], m[s.order := ReservationAt(s)];
    hide WellProbed;
    forall i | 0 <= i < |after| ensures SeatOk(after, next, r, i) {
      assert SeatOk(seats, idx, m, i);
    }
    forall h | 0 <= h < |next| ensures SeatEntry(after, next, h) {
      assert SeatEntry(seats, idx, h);
    }
    HeldAfter(idx, flat, s.order, slot + 1);
  }

  lemma {:induction false} SeatWritten(seats: seq<Seat>, idx: seq<Slot>, m: map<OrderId, Reservation>, slot: nat, quantity: Quantity)
    requires SeatsOk(seats, idx, m) && slot < |seats| && seats[slot].Live?
    ensures seats[slot].order in m && m[seats[slot].order] == ReservationAt(seats[slot])
    ensures var s := seats[slot].(quantity := quantity);
            SeatsOk(seats[slot := s], idx, m[s.order := ReservationAt(s)])
  {
    var s := seats[slot].(quantity := quantity);
    var after, r := seats[slot := s], m[s.order := ReservationAt(s)];
    hide Reachable;
    assert SeatOk(seats, idx, m, slot);
    forall i | 0 <= i < |after| ensures SeatOk(after, idx, r, i) {
      assert SeatOk(seats, idx, m, i);
    }
    forall h | 0 <= h < |idx| ensures SeatEntry(after, idx, h) {
      assert SeatEntry(seats, idx, h);
    }
  }

  // Removal: entries that shift tell their seats.

  predicate NamesSeat(m: Move, seats: seq<Seat>, i: nat)
    requires i < |seats|
  {
    m.value == i + 1 && seats[i].Live? && m.key == seats[i].order
  }

  function MoveSeat(seats: seq<Seat>, m: Move): (r: seq<Seat>)
    ensures |r| == |seats|
  {
    if 1 <= m.value <= |seats| && NamesSeat(m, seats, m.value - 1)
    then seats[m.value - 1 := seats[m.value - 1].(indexSlot := m.position)]
    else seats
  }

  function MoveSeats(seats: seq<Seat>, moves: seq<Move>): (r: seq<Seat>)
    ensures |r| == |seats|
  {
    if moves == [] then seats else MoveSeat(MoveSeats(seats, moves[..|moves| - 1]), moves[|moves| - 1])
  }

  /** A seat's handle after the moves: the last move naming it, or its old one. */
  lemma {:induction false} ApplyMovesAt(seats: seq<Seat>, moves: seq<Move>, i: nat)
    requires i < |seats|
    ensures seats[i].Free? ==> MoveSeats(seats, moves)[i] == seats[i]
    ensures seats[i].Live? ==> MoveSeats(seats, moves)[i].Live?
                               && MoveSeats(seats, moves)[i] == seats[i].(indexSlot := MoveSeats(seats, moves)[i].indexSlot)
    ensures seats[i].Live? && (forall m :: m in moves ==> !NamesSeat(m, seats, i)) ==> MoveSeats(seats, moves)[i] == seats[i]
    ensures seats[i].Live? && (exists m :: m in moves && NamesSeat(m, seats, i)) ==>
              exists m :: m in moves && NamesSeat(m, seats, i) && MoveSeats(seats, moves)[i].indexSlot == m.position
  {
    if moves != [] {
      var front, last := moves[..|moves| - 1], moves[|moves| - 1];
      ApplyMovesAt(seats, front, i);
      assert forall m :: m in front ==> m in moves;
      assert forall m :: m in moves ==> m in front || m == last;
      if seats[i].Live? && NamesSeat(last, seats, i) {
        assert last in moves && MoveSeats(seats, moves)[i].indexSlot == last.position;
      }
    }
  }

  /** After deletion every bucket still leads to the seat whose handle it is. */
  lemma {:induction false} MovedEntry(seats: seq<Seat>, idx: seq<Slot>, m: map<OrderId, Reservation>, after: seq<Slot>, id: OrderId, moves: seq<Move>, h: nat)
    requires SeatsOk(seats, idx, m) && WellProbed(after)
    requires Relocated(idx, after, id, moves) && EntriesWithout(idx, after, id) && h < |after| && after[h].Occupied?
    ensures after[h].key != id && SeatEntry(MoveSeats(seats, moves), after, h)
  {
    hide Reachable;
    assert after[h] in after && after[h] in idx;
    var j :| 0 <= j < |idx| && idx[j] == after[h];
    assert SeatEntry(seats, idx, j);
    var i := after[h].value - 1;
    ApplyMovesAt(seats, moves, i);
    if exists v :: v in moves && NamesSeat(v, seats, i) {
      var v :| v in moves && NamesSeat(v, seats, i) && MoveSeats(seats, moves)[i].indexSlot == v.position;
      assert after[v.position] == Occupied(v.key, v.value);
    } else {
      assert !NamesSeat(Move(after[h].key, after[h].value, h), seats, i) || Move(after[h].key, after[h].value, h) !in moves;
      assert after[h] == idx[h];
    }
  }

  /** The moves of a deletion leave seats and index in agreement, without `id`. */
  lemma {:induction false} SeatReleased(seats: seq<Seat>, idx: seq<Slot>, m: map<OrderId, Reservation>, after: seq<Slot>, moves: seq<Move>, slot: nat, head: nat)
    requires SeatsOk(seats, idx, m) && WellProbed(after) && slot < |seats| && seats[slot].Live?
    requires Relocated(idx, after, seats[slot].order, moves) && EntriesWithout(idx, after, seats[slot].order)
    ensures SeatsOk(MoveSeats(seats, moves)[slot := Free(head)], after, m - {seats[slot].order})
  {
    var id := seats[slot].order;
    var moved := MoveSeats(seats, moves);
    var fin, r := moved[slot := Free(head)], m - {id};
    RelocatedSize(idx, after, id, moves);
    HeldWithout(idx, after, id);
    hide WellProbed, Relocated, EntriesWithout, MoveSeats, SeatEntry, SeatOk, Holds;
    forall h | 0 <= h < |after| ensures SeatEntry(fin, after, h) {
      ReleasedEntry(seats, idx, m, after, moves, slot, head, h);
    }
    forall i | 0 <= i < |fin| ensures SeatOk(fin, after, r, i) {
      ReleasedSeat(seats, idx, m, after, moves, slot, head, i);
    }
  }

  lemma {:induction false} ReleasedEntry(seats: seq<Seat>, idx: seq<Slot>, m: map<OrderId, Reservation>, after: seq<Slot>, moves: seq<Move>, slot: nat, head: nat, h: nat)
    requires SeatsOk(seats, idx, m) && WellProbed(after) && slot < |seats| && seats[slot].Live? && h < |after|
    requires Relocated(idx, after, seats[slot].order, moves) && EntriesWithout(idx, after, seats[slot].order)
    ensures SeatEntry(MoveSeats(seats, moves)[slot := Free(head)], after, h)
  {
    hide WellProbed, Relocated, EntriesWithout, MoveSeats, SeatsOk;
    if after[h].Occupied? {
      MovedEntry(seats, idx, m, after, seats[slot].order, moves, h);
      ApplyMovesAt(seats, moves, slot);
    }
  }

  lemma {:induction false} ReleasedSeat(seats: seq<Seat>, idx: seq<Slot>, m: map<OrderId, Reservation>, after: seq<Slot>, moves: seq<Move>, slot: nat, head: nat, i: nat)
    requires SeatsOk(seats, idx, m) && WellProbed(after) && slot < |seats| && seats[slot].Live? && i < |seats|
    requires Relocated(idx, after, seats[slot].order, moves) && EntriesWithout(idx, after, seats[slot].order)
    ensures SeatOk(MoveSeats(seats, moves)[slot := Free(head)], after, m - {seats[slot].order}, i)
  {
    hide WellProbed, Relocated, EntriesWithout, MoveSeats, SeatsOk;
    if i != slot {
      MovedSeat(seats, idx, m, after, moves, slot, i);
    }
  }

  lemma {:induction false} HeldWithout(idx: seq<Slot>, after: seq<Slot>, key: U64)
    requires EntriesWithout(idx, after, key)
    ensures forall x: U64 :: Holds(idx, x) && x != key ==> Holds(after, x)
  {
    forall x: U64 | Holds(idx, x) && x != key ensures Holds(after, x) {
      HoldsIn(idx, x);
      var e :| e in idx && e.Occupied? && e.key == x;
      assert e in after;
      EntryHeld(after, x);
    }
  }

  lemma {:induction false} MovedSeat(seats: seq<Seat>, idx: seq<Slot>, m: map<OrderId, Reservation>, after: seq<Slot>, moves: seq<Move>, slot: nat, i: nat)
    requires SeatsOk(seats, idx, m) && WellProbed(after) && slot < |seats| && seats[slot].Live? && i < |seats| && i != slot
    requires Relocated(idx, after, seats[slot].order, moves) && EntriesWithout(idx, after, seats[slot].order)
    ensures SeatOk(MoveSeats(seats, moves), after, m - {seats[slot].order}, i)
  {
    hide WellProbed, Relocated, MoveSeats;
    ApplyMovesAt(seats, moves, i);
    if seats[i].Live? {
      assert SeatOk(seats, idx, m, i);
      OtherSeat(seats, idx, m, slot, i);
      assert idx[seats[i].indexSlot] in idx && idx[seats[i].indexSlot] in after;
      var h :| 0 <= h < |after| && after[h] == idx[seats[i].indexSlot];
      MovedEntry(seats, idx, m, after, seats[slot].order, moves, h);
    }
  }

  lemma {:induction false} RelocatedSize(idx: seq<Slot>, after: seq<Slot>, id: OrderId, moves: seq<Move>)
    requires Relocated(idx, after, id, moves)
    ensures |after| == |idx|
  {
  }

  lemma {:induction false} OtherSeat(seats: seq<Seat>, idx: seq<Slot>, m: map<OrderId, Reservation>, slot: nat, i: nat)
    requires SeatsOk(seats, idx, m) && slot < |seats| && i < |seats| && seats[slot].Live? && seats[i].Live? && i != slot
    ensures seats[i].order != seats[slot].order
  {
    hide Reachable;
    assert SeatOk(seats, idx, m, slot) && SeatOk(seats, idx, m, i);
  }

  /** Half load: there is always an empty bucket. */
  lemma {:induction false} SeatRoom(seats: seq<Seat>, idx: seq<Slot>, m: map<OrderId, Reservation>)
    requires SeatsOk(seats, idx, m) && seats != []
    ensures exists e :: 0 <= e < |idx| && idx[e].Empty?
  {
    hide Reachable;
    forall i | 0 <= i < |idx| && idx[i].Occupied? ensures 1 <= idx[i].value <= |seats| {
      assert SeatEntry(seats, idx, i);
    }
    forall i, j | 0 <= i < j < |idx| && idx[i].Occupied? && idx[j].Occupied? ensures idx[i].value != idx[j].value {
      assert SeatEntry(seats, idx, i) && SeatEntry(seats, idx, j);
    }
    SomeEmpty(idx, |seats|);
  }

  lemma {:induction false} AccountRoom(cells: seq<Option<AccountCell>>, idx: seq<Slot>, accounts: map<AccountId, Account>)
    requires AccountsOk(cells, idx, accounts) && cells != []
    ensures exists e :: 0 <= e < |idx| && idx[e].Empty?
  {
    hide Reachable;
    forall i | 0 <= i < |idx| && idx[i].Occupied? ensures 1 <= idx[i].value <= |cells| {
      assert AccountEntry(cells, idx[i]);
    }
    forall i, j | 0 <= i < j < |idx| && idx[i].Occupied? && idx[j].Occupied? ensures idx[i].value != idx[j].value {
      assert AccountEntry(cells, idx[i]) && AccountEntry(cells, idx[j]);
    }
    SomeEmpty(idx, |cells|);
  }
}
