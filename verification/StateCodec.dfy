/** The gateway-state payload of a snapshot: canonical logical order, fixed-width
    big-endian fields, counted lists. Encoding and decoding undo each other. */
module StateCodec {
  import opened Types
  import opened Bytes
  import opened RiskRestore
  import opened BookRestore
  import opened GatewayRestore
  import R = RiskSpec
  import BookSpec

  function PutAccount(e: (AccountId, R.Account), rest: Octets): Octets {
    var a, l := e.1, e.1.limits;
    PutU32(e.0, PutU64(l.maxQuantity, PutU128(l.maxNotional, PutU64(l.maxPosition, PutU32(l.maxOpen,
      PutI64(l.minPrice, PutI64(l.maxPrice, PutI128(a.settled, PutU128(a.buys, PutU128(a.sells,
        PutU32(a.open, PutBool(a.killed, rest))))))))))))
  }

  function GetAccount(b: Octets): Read<(AccountId, R.Account)> {
    var (id, b) :- GetU32(b);
    var (maxQuantity, b) :- GetU64(b);
    var (maxNotional, b) :- GetU128(b);
    var (maxPosition, b) :- GetU64(b);
    var (maxOpen, b) :- GetU32(b);
    var (minPrice, b) :- GetI64(b);
    var (maxPrice, b) :- GetI64(b);
    var (settled, b) :- GetI128(b);
    var (buys, b) :- GetU128(b);
    var (sells, b) :- GetU128(b);
    var (open, b) :- GetU32(b);
    var (killed, b) :- GetBool(b);
    Ok(((id, R.Account(R.RiskLimits(maxQuantity, maxNotional, maxPosition, maxOpen, minPrice, maxPrice),
                       settled, buys, sells, open, killed)), b))
  }

  function PutReservation(e: (OrderId, R.Reservation), rest: Octets): Octets {
    PutU64(e.0, PutU32(e.1.account, PutSide(e.1.side, PutU64(e.1.quantity, rest))))
  }

  function GetReservation(b: Octets): Read<(OrderId, R.Reservation)> {
    var (id, b) :- GetU64(b);
    var (account, b) :- GetU32(b);
    var (side, b) :- GetSide(b);
    var (quantity, b) :- GetU64(b);
    Ok(((id, R.Reservation(account, side, quantity)), b))
  }

  function PutOrder(o: BookOrderState, rest: Octets): Octets {
    PutU64(o.id, PutU32(o.account, PutSide(o.side, PutI64(o.price, PutU64(o.quantity, PutU64(o.sequence, rest))))))
  }

  function GetOrder(b: Octets): Read<BookOrderState> {
    var (id, b) :- GetU64(b);
    var (account, b) :- GetU32(b);
    var (side, b) :- GetSide(b);
    var (price, b) :- GetI64(b);
    var (quantity, b) :- GetU64(b);
    var (sequence, b) :- GetU64(b);
    Ok((BookOrderState(id, account, side, price, quantity, sequence), b))
  }

  // Levels.

  predicate Counted(n: nat) {
    n < U32_BOUND
  }

  function PutLevel(l: BookLevelState, rest: Octets): Octets
    requires Counted(|l.orders|)
  {
    PutSide(l.side, PutI64(l.price, PutU32(|l.orders|, PutList(PutOrder, l.orders, rest))))
  }

  function GetLevel(b: Octets, shape: BookSpec.Shape): Read<BookLevelState> {
    var (side, b) :- GetSide(b);
    var (price, b) :- GetI64(b);
    var (count, b) :- GetU32(b);
    if count > shape.orders then Err(InvalidCount)
    else
      var (orders, b) :- GetList(GetOrder, count, b, []);
      Ok((BookLevelState(side, price, orders), b))
  }

  predicate CountedLevels(list: seq<BookLevelState>) {
    forall i :: 0 <= i < |list| ==> Counted(|list[i].orders|)
  }

  function PutLevels(list: seq<BookLevelState>, rest: Octets): Octets
    requires CountedLevels(list)
  {
    if list == [] then rest else PutLevel(list[0], PutLevels(list[1..], rest))
  }

  function GetLevels(count: nat, b: Octets, shape: BookSpec.Shape, done: seq<BookLevelState>): Read<seq<BookLevelState>>
    decreases count
  {
    if count == 0 then Ok((done, b))
    else
      var (x, b) :- GetLevel(b, shape);
      GetLevels(count - 1, b, shape, done + [x])
  }

  // The whole payload.

  predicate CountedState(r: GatewayRecords) {
    && Counted(|r.risk.accounts|) && Counted(|r.risk.reservations|) && Counted(|r.book.bids|) && Counted(|r.book.asks|)
    && CountedLevels(r.book.bids) && CountedLevels(r.book.asks)
  }

  function PutTables(r: GatewayRecords): Octets
    requires CountedState(r)
  {
    PutList(PutAccount, r.risk.accounts, PutList(PutReservation, r.risk.reservations, PutLevels(r.book.bids, PutLevels(r.book.asks, []))))
  }

  /** Why a payload is refused. */
  datatype PayloadError = BadField(field: FieldError) | TrailingPayload

  /** The fixed fields at the head of the payload. */
  datatype Head = Head(instrument: InstrumentId, expected: Sequence, maximum: Option<OrderId>, riskMaximum: Option<OrderId>, killed: bool,
                       accounts: U32, reservations: U32, bids: U32, asks: U32)

  function PutHead(h: Head, rest: Octets): Octets {
    PutU32(h.instrument, PutU64(h.expected, PutOptional(h.maximum, PutOptional(h.riskMaximum, PutBool(h.killed,
      PutU32(h.accounts, PutU32(h.reservations, PutU32(h.bids, PutU32(h.asks, rest)))))))))
  }

  function HeadOf(r: GatewayRecords): Head
    requires CountedState(r)
  {
    Head(r.instrument, r.expected, r.maximum, r.risk.maximum, r.risk.killed,
         |r.risk.accounts|, |r.risk.reservations|, |r.book.bids|, |r.book.asks|)
  }

  function PutState(r: GatewayRecords): Octets
    requires CountedState(r)
  {
    PutHead(HeadOf(r), PutTables(r))
  }

  function GetHead(b: Octets): Read<Head> {
    var (instrument, b) :- GetU32(b);
    var (expected, b) :- GetU64(b);
    var (maximum, b) :- GetOptional(b);
    var (riskMaximum, b) :- GetOptional(b);
    var (killed, b) :- GetBool(b);
    var (accounts, b) :- GetU32(b);
    var (reservations, b) :- GetU32(b);
    var (bids, b) :- GetU32(b);
    var (asks, b) :- GetU32(b);
    Ok((Head(instrument, expected, maximum, riskMaximum, killed, accounts, reservations, bids, asks), b))
  }

  function GetTables(h: Head, b: Octets, shape: BookSpec.Shape): Read<GatewayRecords> {
    var (accounts, b) :- GetList(GetAccount, h.accounts, b, []);
    var (reservations, b) :- GetList(GetReservation, h.reservations, b, []);
    var (bids, b) :- GetLevels(h.bids, b, shape, []);
    var (asks, b) :- GetLevels(h.asks, b, shape, []);
    Ok((GatewayRecords(h.instrument, BookState(h.instrument, bids, asks),
                       RiskRecords(accounts, reservations, h.riskMaximum, h.killed), h.expected, h.maximum), b))
  }

  predicate HeadFits(h: Head, shape: BookSpec.Shape, riskShape: R.RiskShape) {
    h.accounts <= riskShape.accounts && h.reservations <= riskShape.orders && h.bids <= shape.levels && h.asks <= shape.levels
  }

  function GetState(b: Octets, shape: BookSpec.Shape, riskShape: R.RiskShape): Result<GatewayRecords, PayloadError> {
    match GetHead(b)
    case Err(e) => Err(BadField(e))
    case Ok((h, b)) =>
      if !HeadFits(h, shape, riskShape) then Err(BadField(InvalidCount))
      else match GetTables(h, b, shape)
        case Err(e) => Err(BadField(e))
        case Ok((r, b)) => if b != [] then Err(TrailingPayload) else Ok(r)
  }

  // Reading what was written.

  lemma {:induction false} AccountReads(e: (AccountId, R.Account), rest: Octets)
    ensures GetAccount(PutAccount(e, rest)) == Ok((e, rest))
  {
    UnsignedReads();
    SignedReads();
    TaggedReads();
    hide PutU32, PutU64, PutU128, PutI64, PutI128, PutBool, PutSide, PutOptional, GetU32, GetU64, GetU128, GetI64, GetI128, GetBool, GetSide, GetOptional;
  }

  lemma {:induction false} ReservationReads(e: (OrderId, R.Reservation), rest: Octets)
    ensures GetReservation(PutReservation(e, rest)) == Ok((e, rest))
  {
    UnsignedReads();
    TaggedReads();
    hide PutU32, PutU64, PutU128, PutI64, PutI128, PutBool, PutSide, PutOptional, GetU32, GetU64, GetU128, GetI64, GetI128, GetBool, GetSide, GetOptional;
  }

  lemma {:induction false} OrderReads(o: BookOrderState, rest: Octets)
    ensures GetOrder(PutOrder(o, rest)) == Ok((o, rest))
  {
    UnsignedReads();
    SignedReads();
    TaggedReads();
    hide PutU32, PutU64, PutU128, PutI64, PutI128, PutBool, PutSide, PutOptional, GetU32, GetU64, GetU128, GetI64, GetI128, GetBool, GetSide, GetOptional;
  }

  lemma {:induction false} HeadReads(h: Head, rest: Octets)
    ensures GetHead(PutHead(h, rest)) == Ok((h, rest))
  {
    UnsignedReads();
    TaggedReads();
    hide PutU32, PutU64, PutU128, PutI64, PutI128, PutBool, PutSide, PutOptional, GetU32, GetU64, GetU128, GetI64, GetI128, GetBool, GetSide, GetOptional;
  }

  lemma {:induction false} ElementsRead()
    ensures forall e, b :: GetAccount(PutAccount(e, b)) == Ok((e, b))
    ensures forall e, b :: GetReservation(PutReservation(e, b)) == Ok((e, b))
    ensures forall o, b :: GetOrder(PutOrder(o, b)) == Ok((o, b))
  {
    hide PutAccount, GetAccount, PutReservation, GetReservation, PutOrder, GetOrder;
    forall e, b ensures GetAccount(PutAccount(e, b)) == Ok((e, b)) { AccountReads(e, b); }
    forall e, b ensures GetReservation(PutReservation(e, b)) == Ok((e, b)) { ReservationReads(e, b); }
    forall o, b ensures GetOrder(PutOrder(o, b)) == Ok((o, b)) { OrderReads(o, b); }
  }

  lemma {:induction false} LevelReads(l: BookLevelState, rest: Octets, shape: BookSpec.Shape)
    requires Counted(|l.orders|) && |l.orders| <= shape.orders
    ensures GetLevel(PutLevel(l, rest), shape) == Ok((l, rest))
  {
    hide PutU32, PutU64, PutU128, PutI64, PutI128, PutBool, PutSide, PutOptional, GetU32, GetU64, GetU128, GetI64, GetI128, GetBool, GetSide, GetOptional, GetOrder, PutOrder, GetList, PutList;
    assert GetList(GetOrder, |l.orders|, PutList(PutOrder, l.orders, rest), []) == Ok((l.orders, rest)) by {
      ElementsRead();
      ListReadsBack(PutOrder, GetOrder, l.orders, rest);
    }
    UnsignedReads();
    SignedReads();
    TaggedReads();
  }

  lemma {:induction false} LevelsRead(list: seq<BookLevelState>, rest: Octets, shape: BookSpec.Shape, done: seq<BookLevelState>)
    requires CountedLevels(list) && forall i :: 0 <= i < |list| ==> |list[i].orders| <= shape.orders
    ensures GetLevels(|list|, PutLevels(list, rest), shape, done) == Ok((done + list, rest))
    decreases |list|
  {
    hide GetLevel, PutLevel;
    if list == [] {
      assert done + list == done;
    } else {
      LevelReads(list[0], PutLevels(list[1..], rest), shape);
      LevelsRead(list[1..], rest, shape, done + [list[0]]);
      assert done + [list[0]] + list[1..] == done + list;
    }
  }

  /** Sizes that the fixed capacities allow. */
  predicate SizesFit(r: GatewayRecords, shape: BookSpec.Shape, riskShape: R.RiskShape) {
    && |r.risk.accounts| <= riskShape.accounts && |r.risk.reservations| <= riskShape.orders
    && |r.book.bids| <= shape.levels && |r.book.asks| <= shape.levels
    && (forall i :: 0 <= i < |r.book.bids| ==> |r.book.bids[i].orders| <= shape.orders)
    && (forall i :: 0 <= i < |r.book.asks| ==> |r.book.asks[i].orders| <= shape.orders)
  }

  /** Decoding an encoded state gives the state back. */
  lemma {:induction false} StateDecodes(r: GatewayRecords, shape: BookSpec.Shape, riskShape: R.RiskShape)
    requires CountedState(r) && SizesFit(r, shape, riskShape) && r.book.instrument == r.instrument
    ensures GetState(PutState(r), shape, riskShape) == Ok(r)
  {
    HeadReads(HeadOf(r), PutTables(r));
    TablesDecode(r, shape, riskShape);
    hide GetHead, PutHead, PutTables, GetTables;
  }

  lemma {:induction false} TablesDecode(r: GatewayRecords, shape: BookSpec.Shape, riskShape: R.RiskShape)
    requires CountedState(r) && SizesFit(r, shape, riskShape) && r.book.instrument == r.instrument
    ensures GetTables(HeadOf(r), PutTables(r), shape) == Ok((r, []))
  {
    var asks := PutLevels(r.book.asks, []);
    var bids := PutLevels(r.book.bids, asks);
    var reservations := PutList(PutReservation, r.risk.reservations, bids);
    hide PutList, GetList, PutLevels, GetLevels, PutAccount, GetAccount, PutReservation, GetReservation, CountedLevels;
    assert GetList(GetAccount, |r.risk.accounts|, PutList(PutAccount, r.risk.accounts, reservations), []) == Ok((r.risk.accounts, reservations)) by {
      ElementsRead();
      ListReadsBack(PutAccount, GetAccount, r.risk.accounts, reservations);
    }
    assert GetList(GetReservation, |r.risk.reservations|, reservations, []) == Ok((r.risk.reservations, bids)) by {
      ElementsRead();
      ListReadsBack(PutReservation, GetReservation, r.risk.reservations, bids);
    }
    LevelsRead(r.book.bids, asks, shape, []);
    LevelsRead(r.book.asks, [], shape, []);
    assert [] + r.book.bids == r.book.bids && [] + r.book.asks == r.book.asks;
  }

  // Writing what was read.

  lemma {:induction false} AccountWrites(b: Octets)
    requires GetAccount(b).Ok?
    ensures PutAccount(GetAccount(b).value.0, GetAccount(b).value.1) == b
  {
    UnsignedWrites();
    SignedWrites();
    TaggedWrites();
    hide PutU32, PutU64, PutU128, PutI64, PutI128, PutBool, PutSide, PutOptional, GetU32, GetU64, GetU128, GetI64, GetI128, GetBool, GetSide, GetOptional;
  }

  lemma {:induction false} ReservationWrites(b: Octets)
    requires GetReservation(b).Ok?
    ensures PutReservation(GetReservation(b).value.0, GetReservation(b).value.1) == b
  {
    UnsignedWrites();
    TaggedWrites();
    hide PutU32, PutU64, PutU128, PutI64, PutI128, PutBool, PutSide, PutOptional, GetU32, GetU64, GetU128, GetI64, GetI128, GetBool, GetSide, GetOptional;
  }

  lemma {:induction false} OrderWrites(b: Octets)
    requires GetOrder(b).Ok?
    ensures PutOrder(GetOrder(b).value.0, GetOrder(b).value.1) == b
  {
    UnsignedWrites();
    SignedWrites();
    TaggedWrites();
    hide PutU32, PutU64, PutU128, PutI64, PutI128, PutBool, PutSide, PutOptional, GetU32, GetU64, GetU128, GetI64, GetI128, GetBool, GetSide, GetOptional;
  }

  lemma {:induction false} HeadWrites(b: Octets)
    requires GetHead(b).Ok?
    ensures PutHead(GetHead(b).value.0, GetHead(b).value.1) == b
  {
    UnsignedWrites();
    TaggedWrites();
    hide PutU32, PutU64, PutU128, PutI64, PutI128, PutBool, PutSide, PutOptional, GetU32, GetU64, GetU128, GetI64, GetI128, GetBool, GetSide, GetOptional;
  }

  lemma {:induction false} ElementsWrite()
    ensures forall b :: GetAccount(b).Ok? ==> PutAccount(GetAccount(b).value.0, GetAccount(b).value.1) == b
    ensures forall b :: GetReservation(b).Ok? ==> PutReservation(GetReservation(b).value.0, GetReservation(b).value.1) == b
    ensures forall b :: GetOrder(b).Ok? ==> PutOrder(GetOrder(b).value.0, GetOrder(b).value.1) == b
  {
    hide PutAccount, GetAccount, PutReservation, GetReservation, PutOrder, GetOrder;
    forall b | GetAccount(b).Ok? ensures PutAccount(GetAccount(b).value.0, GetAccount(b).value.1) == b { AccountWrites(b); }
    forall b | GetReservation(b).Ok? ensures PutReservation(GetReservation(b).value.0, GetReservation(b).value.1) == b { ReservationWrites(b); }
    forall b | GetOrder(b).Ok? ensures PutOrder(GetOrder(b).value.0, GetOrder(b).value.1) == b { OrderWrites(b); }
  }

  lemma {:induction false} LevelWrites(b: Octets, shape: BookSpec.Shape)
    requires GetLevel(b, shape).Ok?
    ensures var (l, rest) := GetLevel(b, shape).value; Counted(|l.orders|) && |l.orders| <= shape.orders && PutLevel(l, rest) == b
  {
    hide PutU32, PutI64, PutSide, GetU32, GetI64, GetSide, GetOrder, PutOrder, GetList, PutList;
    var (side, b1) := GetSide(b).value;
    var (price, b2) := GetI64(b1).value;
    var (count, b3) := GetU32(b2).value;
    ElementsWrite();
    ListWrites(PutOrder, GetOrder, count, b3, []);
    var (orders, rest) := GetList(GetOrder, count, b3, []).value;
    assert orders[0..] == orders;
    LevelHeadWrites(b);
  }

  lemma {:induction false} LevelHeadWrites(b: Octets)
    requires GetSide(b).Ok? && GetI64(GetSide(b).value.1).Ok? && GetU32(GetI64(GetSide(b).value.1).value.1).Ok?
    ensures var (side, b1) := GetSide(b).value;
            var (price, b2) := GetI64(b1).value;
            var (count, b3) := GetU32(b2).value;
            PutSide(side, PutI64(price, PutU32(count, b3))) == b
  {
    UnsignedWrites();
    SignedWrites();
    TaggedWrites();
    hide PutU32, PutI64, PutSide, GetU32, GetI64, GetSide;
  }

  lemma {:induction false} LevelsWrite(count: nat, b: Octets, shape: BookSpec.Shape, done: seq<BookLevelState>)
    requires GetLevels(count, b, shape, done).Ok?
    ensures var (list, rest) := GetLevels(count, b, shape, done).value;
            && |list| == |done| + count && list[..|done|] == done
            && CountedLevels(list[|done|..]) && (forall i :: |done| <= i < |list| ==> |list[i].orders| <= shape.orders)
            && PutLevels(list[|done|..], rest) == b
    decreases count
  {
    hide GetLevel, PutLevel;
    if count > 0 {
      var (x, tail) := GetLevel(b, shape).value;
      LevelWrites(b, shape);
      LevelsWrite(count - 1, tail, shape, done + [x]);
      var (list, rest) := GetLevels(count, b, shape, done).value;
      assert list[|done|] == x && list[|done|..][1..] == list[|done| + 1..];
      assert list[..|done|] == list[..|done| + 1][..|done|];
    }
  }

  lemma {:induction false} TablesEncode(h: Head, b: Octets, shape: BookSpec.Shape, riskShape: R.RiskShape)
    requires GetTables(h, b, shape).Ok? && GetTables(h, b, shape).value.1 == [] && HeadFits(h, shape, riskShape)
    ensures var r := GetTables(h, b, shape).value.0;
            && CountedState(r) && SizesFit(r, shape, riskShape) && r.book.instrument == r.instrument
            && HeadOf(r) == h && PutTables(r) == b
  {
    hide GetAccount, GetReservation, PutAccount, PutReservation, GetList, PutList, GetLevels, PutLevels;
    ElementsWrite();
    var (accounts, b1) := GetList(GetAccount, h.accounts, b, []).value;
    ListWrites(PutAccount, GetAccount, h.accounts, b, []);
    var (reservations, b2) := GetList(GetReservation, h.reservations, b1, []).value;
    ListWrites(PutReservation, GetReservation, h.reservations, b1, []);
    var (bids, b3) := GetLevels(h.bids, b2, shape, []).value;
    LevelsWrite(h.bids, b2, shape, []);
    var (asks, b4) := GetLevels(h.asks, b3, shape, []).value;
    LevelsWrite(h.asks, b3, shape, []);
    assert accounts[0..] == accounts && reservations[0..] == reservations && bids[0..] == bids && asks[0..] == asks;
  }

  /** An accepted payload is the encoding of what it decodes to. */
  lemma {:induction false} StateEncodes(b: Octets, shape: BookSpec.Shape, riskShape: R.RiskShape)
    requires GetState(b, shape, riskShape).Ok?
    ensures var r := GetState(b, shape, riskShape).value;
            && CountedState(r) && SizesFit(r, shape, riskShape) && r.book.instrument == r.instrument
            && PutState(r) == b
  {
    var (h, tail) := GetHead(b).value;
    HeadWrites(b);
    TablesEncode(h, tail, shape, riskShape);
    var r := GetTables(h, tail, shape).value.0;
    hide GetHead, PutHead, PutTables, GetTables, CountedState, SizesFit;
  }
}
