/** Rebuilding a risk engine from its exported state: what is accepted, and that
    acceptance means the state is the export of a sound engine. */
module RiskRestore {
  import opened Types
  import opened Tables
  import opened RiskSpec
  import opened RiskEngines
  import S = RiskStore
  import P = ProbeIndexing

  /** Exported state: both lists in ascending key order. */
  datatype RiskRecords = RiskRecords(
    accounts: seq<(AccountId, Account)>,
    reservations: seq<(OrderId, Reservation)>,
    maximum: Option<OrderId>,
    killed: bool)

  datatype RiskStateError =
    | TooManyAccounts | TooManyReservations | RepeatedAccount | RepeatedOrder | NonCanonical | BadLimits
    | NoSuchAccount | InvalidWatermark | ExposureMismatch | OpenOrderMismatch | OverPosition | Overflow | ZeroQuantity

  ghost function ExportRisk(s: RiskState): RiskRecords {
    RiskRecords(Listing(s.accounts), Listing(s.reservations), s.maximum, s.killed)
  }

  function ImportRisk(r: RiskRecords): RiskState {
    RiskState(Table(r.accounts), Table(r.reservations), r.maximum, r.killed)
  }

  /** First neighbouring pair out of order, as `repeated` or as non-canonical. */
  function OrderDefect<V>(list: seq<(int, V)>, repeated: RiskStateError): Option<RiskStateError>
    decreases |list|
  {
    if |list| < 2 then None
    else if list[0].0 == list[1].0 then Some(repeated)
    else if list[0].0 > list[1].0 then Some(NonCanonical)
    else OrderDefect(list[1..], repeated)
  }

  /** Running totals of one account over the reservation list, checked at each step. */
  datatype Totals = Totals(buys: nat, sells: nat, open: nat) {
    function Plus(r: Reservation): Totals {
      if r.side == Buy then Totals(buys + r.quantity, sells, open + 1) else Totals(buys, sells + r.quantity, open + 1)
    }

    predicate FitsWidths() {
      buys < U128_BOUND && sells < U128_BOUND && open < U32_BOUND
    }
  }

  function Accumulate(list: seq<(OrderId, Reservation)>, id: AccountId, sum: Totals): Option<Totals>
    decreases |list|
  {
    if list == [] then Some(sum)
    else if list[0].1.account != id then Accumulate(list[1..], id, sum)
    else if !sum.Plus(list[0].1).FitsWidths() then None
    else Accumulate(list[1..], id, sum.Plus(list[0].1))
  }

  function AccountDefect(id: AccountId, a: Account, reservations: seq<(OrderId, Reservation)>): Option<RiskStateError> {
    match Accumulate(reservations, id, Totals(0, 0, 0))
    case None => Some(Overflow)
    case Some(t) =>
      if t.buys != a.buys || t.sells != a.sells then Some(ExposureMismatch)
      else if t.open != a.open || t.open > a.limits.maxOpen then Some(OpenOrderMismatch)
      else match PositionDefect(a)
        case None => None
        case Some(reason) => Some(if reason == ArithmeticOverflow then Overflow else OverPosition)
  }

  function AccountsDefect(accounts: seq<(AccountId, Account)>, reservations: seq<(OrderId, Reservation)>): Option<RiskStateError>
    decreases |accounts|
  {
    if accounts == [] then None
    else match AccountDefect(accounts[0].0, accounts[0].1, reservations)
      case Some(e) => Some(e)
      case None => AccountsDefect(accounts[1..], reservations)
  }

  predicate Registered(accounts: seq<(AccountId, Account)>, id: AccountId) {
    exists i :: 0 <= i < |accounts| && accounts[i].0 == id
  }

  /** First defect of an exported state. */
  function RecordsDefect(r: RiskRecords, shape: RiskShape): Option<RiskStateError> {
    if |r.accounts| > shape.accounts then Some(TooManyAccounts)
    else if |r.reservations| > shape.orders then Some(TooManyReservations)
    else if OrderDefect(r.accounts, RepeatedAccount).Some? then OrderDefect(r.accounts, RepeatedAccount)
    else if exists i :: 0 <= i < |r.accounts| && !ValidLimits(r.accounts[i].1.limits) then Some(BadLimits)
    else if OrderDefect(r.reservations, RepeatedOrder).Some? then OrderDefect(r.reservations, RepeatedOrder)
    else if exists i :: 0 <= i < |r.reservations| && r.reservations[i].1.quantity == 0 then Some(ZeroQuantity)
    else if r.reservations != [] && (r.maximum.None? || r.maximum.value < r.reservations[|r.reservations| - 1].0) then Some(InvalidWatermark)
    else if exists i :: 0 <= i < |r.reservations| && !Registered(r.accounts, r.reservations[i].1.account) then Some(NoSuchAccount)
    else AccountsDefect(r.accounts, r.reservations)
  }

  // Acceptance, declaratively.

  lemma {:induction false} OrderDefectNone<V(!new)>(list: seq<(int, V)>, repeated: RiskStateError)
    ensures OrderDefect(list, repeated).None? <==> Ascending(list)
    decreases |list|
  {
    if |list| >= 2 {
      var rest := list[1..];
      OrderDefectNone(rest, repeated);
      if Ascending(list) {
        assert forall i, j :: 0 <= i < j < |rest| ==> rest[i] == list[i + 1] && rest[j] == list[j + 1];
      }
      if list[0].0 < list[1].0 && Ascending(rest) {
        forall i, j | 0 <= i < j < |list| ensures list[i].0 < list[j].0 {
          if i > 0 {
            assert rest[i - 1] == list[i] && rest[j - 1] == list[j];
          } else if j > 1 {
            assert rest[0].0 < rest[j - 1].0;
          }
        }
      }
    }
  }

  /** What the reservations of one list add to one account. */
  function Held(list: seq<(OrderId, Reservation)>, kind: Measure): nat {
    if list == [] then 0 else kind.Of(list[0].1) + Held(list[1..], kind)
  }

  lemma {:induction false} HeldSnoc(list: seq<(OrderId, Reservation)>, last: (OrderId, Reservation), kind: Measure)
    ensures Held(list + [last], kind) == Held(list, kind) + kind.Of(last.1)
  {
    if list == [] {
      assert list + [last] == [last] && [last][1..] == [];
    } else {
      assert (list + [last])[1..] == list[1..] + [last];
      HeldSnoc(list[1..], last, kind);
    }
  }

  /** Summing the list is summing the map. */
  lemma {:induction false} HeldIsTotal(list: seq<(OrderId, Reservation)>, kind: Measure)
    requires DistinctFirst(list)
    ensures Held(list, kind) == Total(Table(list), kind)
    decreases |list|
  {
    if list != [] {
      var front, last := list[..|list| - 1], list[|list| - 1];
      HeldIsTotal(front, kind);
      HeldSnoc(front, last, kind);
      assert list == front + [last];
      TableIs(front);
      assert forall i :: 0 <= i < |front| ==> front[i].0 != last.0;
      hide DistinctFirst, Total, Held;
      TotalSet(Table(front), last.0, last.1, kind);
    }
  }

  /** The checked walk succeeds exactly when the true sums fit, and returns them. */
  lemma {:induction false} AccumulateSums(list: seq<(OrderId, Reservation)>, id: AccountId, sum: Totals)
    requires sum.FitsWidths()
    ensures var t := Totals(sum.buys + Held(list, Bought(id)), sum.sells + Held(list, Sold(id)), sum.open + Held(list, Opened(id)));
            Accumulate(list, id, sum) == if t.FitsWidths() then Some(t) else None
    decreases |list|
  {
    if list != [] {
      var next := if list[0].1.account == id then sum.Plus(list[0].1) else sum;
      if next.FitsWidths() {
        AccumulateSums(list[1..], id, next);
      }
    }
  }

  lemma {:induction false} AccountDefectNone(id: AccountId, a: Account, list: seq<(OrderId, Reservation)>)
    requires DistinctFirst(list) && ValidLimits(a.limits)
    ensures AccountDefect(id, a, list).None? <==> Accounted(a, id, Table(list))
  {
    HeldIsTotal(list, Bought(id));
    HeldIsTotal(list, Sold(id));
    HeldIsTotal(list, Opened(id));
    AccumulateSums(list, id, Totals(0, 0, 0));
    hide Total, Held, Accumulate, DistinctFirst;
  }

  lemma {:induction false} AccountsDefectNone(accounts: seq<(AccountId, Account)>, list: seq<(OrderId, Reservation)>)
    requires DistinctFirst(list) && forall i :: 0 <= i < |accounts| ==> ValidLimits(accounts[i].1.limits)
    ensures AccountsDefect(accounts, list).None? <==>
            forall i :: 0 <= i < |accounts| ==> Accounted(accounts[i].1, accounts[i].0, Table(list))
    decreases |accounts|
  {
    if accounts != [] {
      AccountDefectNone(accounts[0].0, accounts[0].1, list);
      AccountsDefectNone(accounts[1..], list);
      hide AccountDefect, Accounted;
      assert forall i :: 0 < i < |accounts| ==> accounts[i] == accounts[1..][i - 1];
    }
  }

  ghost predicate Canonical(r: RiskRecords) {
    Ascending(r.accounts) && Ascending(r.reservations)
  }

  lemma {:induction false} CanonicalIffExport(r: RiskRecords)
    ensures Canonical(r) <==> r == ExportRisk(ImportRisk(r))
  {
    var s := ImportRisk(r);
    KeysBounded(s);
    if Canonical(r) {
      AscendingDistinct(r.accounts);
      AscendingDistinct(r.reservations);
      TableIs(r.accounts);
      TableIs(r.reservations);
      Widen(r, s);
    }
    ListingUnique(r.accounts, s.accounts);
    ListingUnique(r.reservations, s.reservations);
    hide Table, Listing, Represents;
  }

  lemma {:induction false} KeysBounded(s: RiskState)
    ensures KeysWithin(s.accounts) && KeysWithin(s.reservations)
  {
  }

  lemma {:induction false} Widen(r: RiskRecords, s: RiskState)
    requires Represents<AccountId, Account>(r.accounts, s.accounts) && Represents<OrderId, Reservation>(r.reservations, s.reservations)
    ensures Represents<int, Account>(r.accounts, s.accounts) && Represents<int, Reservation>(r.reservations, s.reservations)
  {
  }

  predicate GoodRecord(r: RiskRecords, e: (OrderId, Reservation)) {
    && e.1.quantity > 0 && Registered(r.accounts, e.1.account)
    && r.maximum.Some? && e.0 <= r.maximum.value
  }

  /** Sound, said of the lists. */
  ghost predicate SoundRecords(r: RiskRecords, shape: RiskShape) {
    && |r.accounts| <= shape.accounts && |r.reservations| <= shape.orders && Canonical(r)
    && (forall i :: 0 <= i < |r.reservations| ==> GoodRecord(r, r.reservations[i]))
    && (forall i :: 0 <= i < |r.accounts| ==> Accounted(r.accounts[i].1, r.accounts[i].0, Table(r.reservations)))
  }

  lemma {:induction false} DefectNone(r: RiskRecords, shape: RiskShape)
    ensures RecordsDefect(r, shape).None? <==> SoundRecords(r, shape)
  {
    OrderDefectNone(r.accounts, RepeatedAccount);
    OrderDefectNone(r.reservations, RepeatedOrder);
    hide OrderDefect, AccountsDefect, Total, Registered;
    if Canonical(r) {
      AscendingDistinct(r.reservations);
      LimitsHold(r);
      if forall i :: 0 <= i < |r.accounts| ==> ValidLimits(r.accounts[i].1.limits) {
        AccountsDefectNone(r.accounts, r.reservations);
      }
      hide DistinctFirst, Accounted, Ascending, ValidLimits;
      LastKey(r.reservations);
      if r.reservations != [] {
        assert GoodRecord(r, r.reservations[|r.reservations| - 1]) ==>
                 r.maximum.Some? && r.reservations[|r.reservations| - 1].0 <= r.maximum.value;
      }
    }
  }

  lemma {:induction false} LimitsHold(r: RiskRecords)
    ensures (forall i :: 0 <= i < |r.accounts| ==> Accounted(r.accounts[i].1, r.accounts[i].0, Table(r.reservations))) ==>
              forall i :: 0 <= i < |r.accounts| ==> ValidLimits(r.accounts[i].1.limits)
  {
    hide Total, Table;
  }

  lemma {:induction false} LastKey(list: seq<(OrderId, Reservation)>)
    requires Ascending(list)
    ensures list != [] ==> forall i :: 0 <= i < |list| ==> list[i].0 <= list[|list| - 1].0
  {
  }

  lemma {:induction false} SoundRecordsIff(r: RiskRecords, shape: RiskShape)
    requires Canonical(r)
    ensures SoundRecords(r, shape) <==> SoundRisk(ImportRisk(r), shape)
  {
    AscendingDistinct(r.accounts);
    AscendingDistinct(r.reservations);
    TableIs(r.accounts);
    TableIs(r.reservations);
    var s := ImportRisk(r);
    BackedIff(r, s);
    AccountedIff(r, s);
    hide Accounted, Table, DistinctFirst, Represents, Registered;
  }

  lemma {:induction false} AccountedIff(r: RiskRecords, s: RiskState)
    requires Represents(r.accounts, s.accounts)
    ensures (forall id :: id in s.accounts ==> Accounted(s.accounts[id], id, s.reservations)) <==>
            (forall i :: 0 <= i < |r.accounts| ==> Accounted(r.accounts[i].1, r.accounts[i].0, s.reservations))
  {
    hide Accounted;
  }

  lemma {:induction false} BackedIff(r: RiskRecords, s: RiskState)
    requires Represents(r.accounts, s.accounts) && Represents(r.reservations, s.reservations) && s.maximum == r.maximum
    ensures Anchored(s) <==> forall i :: 0 <= i < |r.reservations| ==> GoodRecord(r, r.reservations[i])
  {
    forall id: AccountId ensures Registered(r.accounts, id) <==> id in s.accounts {
      if id in s.accounts {
        var i :| 0 <= i < |r.accounts| && r.accounts[i].0 == id;
      }
    }
    hide Registered;
    if Anchored(s) {
      forall i | 0 <= i < |r.reservations| ensures GoodRecord(r, r.reservations[i]) {
        assert r.reservations[i].0 in s.reservations;
      }
    }
    if forall i :: 0 <= i < |r.reservations| ==> GoodRecord(r, r.reservations[i]) {
      forall id | id in s.reservations ensures s.reservations[id].quantity > 0 && s.reservations[id].account in s.accounts
                                               && s.maximum.Some? && id <= s.maximum.value {
        var i :| 0 <= i < |r.reservations| && r.reservations[i].0 == id;
        assert GoodRecord(r, r.reservations[i]);
      }
    }
  }

  /** A state passes validation if and only if it is the export of sound risk state. */
  lemma {:induction false} AcceptedIffExport(r: RiskRecords, shape: RiskShape)
    ensures RecordsDefect(r, shape).None? <==> SoundRisk(ImportRisk(r), shape) && r == ExportRisk(ImportRisk(r))
  {
    DefectNone(r, shape);
    CanonicalIffExport(r);
    if Canonical(r) {
      SoundRecordsIff(r, shape);
    }
    hide SoundRisk, ExportRisk, ImportRisk, RecordsDefect;
  }

  /** Every sound state's export is accepted and imports back to it. */
  lemma {:induction false} SoundRestores(s: RiskState, shape: RiskShape)
    requires SoundRisk(s, shape)
    ensures RecordsDefect(ExportRisk(s), shape).None? && ImportRisk(ExportRisk(s)) == s
  {
    ImportExport(s);
    AcceptedIffExport(ExportRisk(s), shape);
    hide SoundRisk, RecordsDefect, ExportRisk, ImportRisk;
  }

  lemma {:induction false} ImportExport(s: RiskState)
    ensures ImportRisk(ExportRisk(s)) == s
  {
    KeysBounded(s);
    ListingRepresents(s.accounts);
    ListingRepresents(s.reservations);
    AscendingDistinct(Listing(s.accounts));
    AscendingDistinct(Listing(s.reservations));
    var r := ExportRisk(s);
    Narrow(r, s);
    hide Listing;
    TableUnique(r.accounts, s.accounts);
    TableUnique(r.reservations, s.reservations);
  }

  lemma {:induction false} Narrow(r: RiskRecords, s: RiskState)
    requires Represents<int, Account>(r.accounts, s.accounts) && Represents<int, Reservation>(r.reservations, s.reservations)
    requires DistinctFirst<int, Account>(r.accounts) && DistinctFirst<int, Reservation>(r.reservations)
    ensures Represents<AccountId, Account>(r.accounts, s.accounts) && Represents<OrderId, Reservation>(r.reservations, s.reservations)
    ensures DistinctFirst<AccountId, Account>(r.accounts) && DistinctFirst<OrderId, Reservation>(r.reservations)
  {
  }

  // Rebuilding, record by record.

  lemma {:induction false} TableStep<K(!new), V(!new)>(list: seq<(K, V)>, i: nat)
    requires DistinctFirst(list) && i < |list|
    ensures list[i].0 !in Table(list[..i]) && |Table(list[..i])| == i
    ensures Table(list[..i + 1]) == Table(list[..i])[list[i].0 := list[i].1]
  {
    TableIs(list[..i]);
    assert list[..i + 1][..i] == list[..i];
  }

  /** Builds an engine from exported state; the engine is complete or absent. */
  method RestoreEngine(r: RiskRecords, shape: RiskShape) returns (e: Result<RiskEngine, RiskStateError>)
    requires S.RISK_PLANES * shape.accounts <= U32_BOUND && S.RISK_PLANES * shape.orders <= U32_BOUND
    ensures RecordsDefect(r, shape).Some? ==> e == Err(RecordsDefect(r, shape).value)
    ensures RecordsDefect(r, shape).None? ==> e.Ok?
    ensures e.Ok? ==> fresh(e.value) && e.value.Valid() && e.value.shape == shape && ExportRisk(e.value.state) == r
    ensures e.Ok? ==> fresh(e.value.cells) && fresh(e.value.seats) && fresh(e.value.accountIndex.slots) && fresh(e.value.seatIndex.slots)
  {
    hide RiskEngine.Stored, RecordsDefect, SoundRisk, ExportRisk, Table, DistinctFirst;
    var defect := RecordsDefect(r, shape);
    if defect.Some? {
      return Err(defect.value);
    }
    AcceptedIffExport(r, shape);
    ImportDistinct(r, shape);
    var engine := new RiskEngine(shape);
    EmptyTables(r);
    for i := 0 to |r.accounts|
      invariant engine.Stored() && fresh(engine.cells) && fresh(engine.accountIndex.slots)
      invariant engine.state == RiskState(Table(r.accounts[..i]), map[], None, false)
    {
      TableStep(r.accounts, i);
      engine.CellRoom();
      engine.OpenCell(i, r.accounts[i].0, r.accounts[i].1);
    }
    for j := 0 to |r.reservations|
      invariant engine.Stored() && fresh(engine.seats) && fresh(engine.seatIndex.slots)
      invariant engine.state == RiskState(Table(r.accounts), Table(r.reservations[..j]), None, false)
    {
      TableStep(r.reservations, j);
      engine.SeatLeft();
      var ok := engine.SeatReservation(r.reservations[j].0, r.reservations[j].1);
    }
    engine.Start(r.maximum, r.killed);
    e := Ok(engine);
  }

  lemma {:induction false} EmptyTables(r: RiskRecords)
    ensures Table(r.accounts[..0]) == map[] && Table(r.reservations[..0]) == map[]
    ensures r.accounts[..|r.accounts|] == r.accounts && r.reservations[..|r.reservations|] == r.reservations
  {
  }

  lemma {:induction false} ImportDistinct(r: RiskRecords, shape: RiskShape)
    requires RecordsDefect(r, shape).None?
    ensures DistinctFirst(r.accounts) && DistinctFirst(r.reservations)
    ensures |r.accounts| <= shape.accounts && |r.reservations| <= shape.orders
  {
    DefectNone(r, shape);
    AscendingDistinct(r.accounts);
    AscendingDistinct(r.reservations);
  }

  // Exporting, in key order.

  /** The records of the first `n` cells, in key order. */
  ghost predicate CellsListed(cells: seq<Option<S.AccountCell>>, n: nat, accounts: map<AccountId, Account>, list: seq<(int, Account)>)
    requires n <= |cells|
  {
    && Ascending(list)
    && (forall x :: x in list ==> x.0 in accounts && x.1 == accounts[x.0] && CellHas(cells, n, x.0))
    && (forall j :: 0 <= j < n && cells[j].Some? ==> (cells[j].value.id as int, cells[j].value.body) in list)
  }

  ghost predicate CellHas(cells: seq<Option<S.AccountCell>>, n: nat, id: int)
    requires n <= |cells|
  {
    exists j :: 0 <= j < n && cells[j].Some? && cells[j].value.id == id
  }

  lemma {:induction false} CellListed(cells: seq<Option<S.AccountCell>>, idx: seq<P.Slot>, accounts: map<AccountId, Account>, n: nat, list: seq<(int, Account)>)
    requires S.AccountsOk(cells, idx, accounts) && n < |cells| && CellsListed(cells, n, accounts, list)
    ensures CellsListed(cells, n + 1, accounts,
                        if cells[n].Some? then Placed(list, cells[n].value.id, cells[n].value.body) else list)
  {
    hide P.WellProbed, Placed, Ascending, CellHas, S.AccountEntry, S.AccountsOk, CellsListed;
    var more := if cells[n].Some? then Placed(list, cells[n].value.id, cells[n].value.body) else list;
    if cells[n].Some? {
      NewCell(cells, idx, accounts, n, list);
      CellsAscend(cells, n, accounts, list);
      PlacedAscends(list, cells[n].value.id, cells[n].value.body);
    }
    CellAdded(cells, n, accounts, list, more);
  }

  lemma {:induction false} CellsAscend(cells: seq<Option<S.AccountCell>>, n: nat, accounts: map<AccountId, Account>, list: seq<(int, Account)>)
    requires n <= |cells| && CellsListed(cells, n, accounts, list)
    ensures Ascending(list)
  {
  }

  lemma {:induction false} CellAdded(cells: seq<Option<S.AccountCell>>, n: nat, accounts: map<AccountId, Account>, list: seq<(int, Account)>, more: seq<(int, Account)>)
    requires n < |cells| && CellsListed(cells, n, accounts, list)
    requires cells[n].None? ==> more == list
    requires cells[n].Some? ==>
               && cells[n].value.id in accounts && accounts[cells[n].value.id] == cells[n].value.body && Ascending(more)
               && forall x :: x in more <==> x in list || x == (cells[n].value.id as int, cells[n].value.body)
    ensures CellsListed(cells, n + 1, accounts, more)
  {
    hide Ascending, CellHas;
    forall x | x in more ensures x.0 in accounts && x.1 == accounts[x.0] && CellHas(cells, n + 1, x.0) {
      CellHasMore(cells, n, x.0);
    }
  }

  lemma {:induction false} CellHasMore(cells: seq<Option<S.AccountCell>>, n: nat, id: int)
    requires n < |cells|
    ensures CellHas(cells, n, id) || (cells[n].Some? && cells[n].value.id == id) ==> CellHas(cells, n + 1, id)
  {
  }

  /** A cell's account is backed by the map and listed by no earlier cell. */
  lemma {:induction false} NewCell(cells: seq<Option<S.AccountCell>>, idx: seq<P.Slot>, accounts: map<AccountId, Account>, n: nat, list: seq<(int, Account)>)
    requires S.AccountsOk(cells, idx, accounts) && n < |cells| && CellsListed(cells, n, accounts, list) && cells[n].Some?
    ensures cells[n].value.id in accounts && accounts[cells[n].value.id] == cells[n].value.body
    ensures forall i :: 0 <= i < |list| ==> list[i].0 != cells[n].value.id
  {
    hide P.WellProbed, Ascending, S.AccountEntry;
    assert S.CellOk(cells, idx, accounts, n);
    forall i | 0 <= i < |list| ensures list[i].0 != cells[n].value.id {
      assert list[i] in list;
      var j :| 0 <= j < n && cells[j].Some? && cells[j].value.id == list[i].0;
      S.OtherCell(cells, idx, accounts, j, n);
    }
  }

  /** Every account has its cell. */
  lemma {:induction false} CellOf(cells: seq<Option<S.AccountCell>>, idx: seq<P.Slot>, accounts: map<AccountId, Account>, id: AccountId) returns (j: nat)
    requires S.AccountsOk(cells, idx, accounts) && id in accounts
    ensures j < |cells| && cells[j].Some? && cells[j].value.id == id
  {
    hide P.WellProbed;
    S.HoldsIn(idx, id);
    var e :| e in idx && e.Occupied? && e.key == id;
    assert S.AccountEntry(cells, e);
    j := e.value - 1;
  }

  lemma {:induction false} CellsAre(cells: seq<Option<S.AccountCell>>, idx: seq<P.Slot>, accounts: map<AccountId, Account>, list: seq<(int, Account)>)
    requires S.AccountsOk(cells, idx, accounts) && CellsListed(cells, |cells|, accounts, list)
    ensures list == Listing(accounts)
  {
    hide S.AccountsOk, Ascending, Listing;
    forall k | k in accounts ensures exists i :: 0 <= i < |list| && list[i].0 == k {
      var j := CellOf(cells, idx, accounts, k);
      assert (cells[j].value.id as int, cells[j].value.body) in list;
      var i :| 0 <= i < |list| && list[i] == (cells[j].value.id as int, cells[j].value.body);
    }
    ListingUnique(list, accounts);
  }

  ghost predicate SeatsListed(seats: seq<S.Seat>, n: nat, m: map<OrderId, Reservation>, list: seq<(int, Reservation)>)
    requires n <= |seats|
  {
    && Ascending(list)
    && (forall x :: x in list ==> x.0 in m && x.1 == m[x.0] && SeatHas(seats, n, x.0))
    && (forall j :: 0 <= j < n && seats[j].Live? ==> (seats[j].order as int, S.ReservationAt(seats[j])) in list)
  }

  ghost predicate SeatHas(seats: seq<S.Seat>, n: nat, id: int)
    requires n <= |seats|
  {
    exists j :: 0 <= j < n && seats[j].Live? && seats[j].order == id
  }

  lemma {:induction false} SeatListed(seats: seq<S.Seat>, idx: seq<P.Slot>, m: map<OrderId, Reservation>, n: nat, list: seq<(int, Reservation)>)
    requires S.SeatsOk(seats, idx, m) && n < |seats| && SeatsListed(seats, n, m, list)
    ensures SeatsListed(seats, n + 1, m,
                        if seats[n].Live? then Placed(list, seats[n].order, S.ReservationAt(seats[n])) else list)
  {
    hide P.WellProbed, Placed, Ascending, SeatHas, S.SeatEntry, S.SeatsOk, SeatsListed;
    var more := if seats[n].Live? then Placed(list, seats[n].order, S.ReservationAt(seats[n])) else list;
    if seats[n].Live? {
      NewSeat(seats, idx, m, n, list);
      SeatsAscend(seats, n, m, list);
      PlacedAscends(list, seats[n].order, S.ReservationAt(seats[n]));
    }
    SeatAdded(seats, n, m, list, more);
  }

  lemma {:induction false} SeatsAscend(seats: seq<S.Seat>, n: nat, m: map<OrderId, Reservation>, list: seq<(int, Reservation)>)
    requires n <= |seats| && SeatsListed(seats, n, m, list)
    ensures Ascending(list)
  {
  }

  lemma {:induction false} SeatAdded(seats: seq<S.Seat>, n: nat, m: map<OrderId, Reservation>, list: seq<(int, Reservation)>, more: seq<(int, Reservation)>)
    requires n < |seats| && SeatsListed(seats, n, m, list)
    requires !seats[n].Live? ==> more == list
    requires seats[n].Live? ==>
               && seats[n].order in m && m[seats[n].order] == S.ReservationAt(seats[n]) && Ascending(more)
               && forall x :: x in more <==> x in list || x == (seats[n].order as int, S.ReservationAt(seats[n]))
    ensures SeatsListed(seats, n + 1, m, more)
  {
    hide Ascending, SeatHas;
    forall x | x in more ensures x.0 in m && x.1 == m[x.0] && SeatHas(seats, n + 1, x.0) {
      SeatHasMore(seats, n, x.0);
    }
  }

  lemma {:induction false} SeatHasMore(seats: seq<S.Seat>, n: nat, id: int)
    requires n < |seats|
    ensures SeatHas(seats, n, id) || (seats[n].Live? && seats[n].order == id) ==> SeatHas(seats, n + 1, id)
  {
  }

  /** A live seat is backed by the map and listed by no earlier seat. */
  lemma {:induction false} NewSeat(seats: seq<S.Seat>, idx: seq<P.Slot>, m: map<OrderId, Reservation>, n: nat, list: seq<(int, Reservation)>)
    requires S.SeatsOk(seats, idx, m) && n < |seats| && SeatsListed(seats, n, m, list) && seats[n].Live?
    ensures seats[n].order in m && m[seats[n].order] == S.ReservationAt(seats[n])
    ensures forall i :: 0 <= i < |list| ==> list[i].0 != seats[n].order
  {
    hide P.WellProbed, Ascending, S.SeatEntry;
    assert S.SeatOk(seats, idx, m, n);
    forall i | 0 <= i < |list| ensures list[i].0 != seats[n].order {
      assert list[i] in list;
      var j :| 0 <= j < n && seats[j].Live? && seats[j].order == list[i].0;
      S.OtherSeat(seats, idx, m, n, j);
    }
  }

  /** Every reservation has its seat. */
  lemma {:induction false} SeatOf(seats: seq<S.Seat>, idx: seq<P.Slot>, m: map<OrderId, Reservation>, id: OrderId) returns (j: nat)
    requires S.SeatsOk(seats, idx, m) && id in m
    ensures j < |seats| && seats[j].Live? && seats[j].order == id
  {
    hide P.WellProbed;
    var h :| 0 <= h < |idx| && idx[h].Occupied? && idx[h].key == id;
    assert S.SeatEntry(seats, idx, h);
    j := idx[h].value - 1;
  }

  lemma {:induction false} SeatsAre(seats: seq<S.Seat>, idx: seq<P.Slot>, m: map<OrderId, Reservation>, list: seq<(int, Reservation)>)
    requires S.SeatsOk(seats, idx, m) && SeatsListed(seats, |seats|, m, list)
    ensures list == Listing(m)
  {
    hide S.SeatsOk, Ascending, Listing;
    forall k | k in m ensures exists i :: 0 <= i < |list| && list[i].0 == k {
      var j := SeatOf(seats, idx, m, k);
      assert (seats[j].order as int, S.ReservationAt(seats[j])) in list;
      var i :| 0 <= i < |list| && list[i] == (seats[j].order as int, S.ReservationAt(seats[j]));
    }
    ListingUnique(list, m);
  }

  /** Reads the logical state off the slots, whatever their layout. */
  method ExportEngine(e: RiskEngine) returns (r: RiskRecords)
    requires e.Valid()
    ensures r == ExportRisk(e.state)
  {
    hide S.AccountsOk, S.SeatsOk, S.FreeList, SoundRisk, CellsListed, SeatsListed, Placed;
    ghost var cells, seats := e.cells[..], e.seats[..];
    NoneListed(cells, seats, e.state.accounts, e.state.reservations);
    var accounts: seq<(int, Account)> := [];
    for i := 0 to e.cells.Length
      invariant CellsListed(cells, i, e.state.accounts, accounts)
    {
      CellListed(cells, e.accountIndex.slots[..], e.state.accounts, i, accounts);
      if e.cells[i].Some? {
        accounts := Placed(accounts, e.cells[i].value.id, e.cells[i].value.body);
      }
    }
    CellsAre(cells, e.accountIndex.slots[..], e.state.accounts, accounts);
    var reservations: seq<(int, Reservation)> := [];
    for i := 0 to e.seats.Length
      invariant SeatsListed(seats, i, e.state.reservations, reservations)
    {
      SeatListed(seats, e.seatIndex.slots[..], e.state.reservations, i, reservations);
      if e.seats[i].Live? {
        reservations := Placed(reservations, e.seats[i].order, S.ReservationAt(e.seats[i]));
      }
    }
    SeatsAre(seats, e.seatIndex.slots[..], e.state.reservations, reservations);
    r := RiskRecords(accounts, reservations, e.maximum, e.killed);
  }

  lemma {:induction false} NoneListed(cells: seq<Option<S.AccountCell>>, seats: seq<S.Seat>, accounts: map<AccountId, Account>, m: map<OrderId, Reservation>)
    ensures CellsListed(cells, 0, accounts, []) && SeatsListed(seats, 0, m, [])
  {
  }
}
