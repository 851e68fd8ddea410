/** How long a state payload can be: every list count fits 32 bits and every payload of
    a buildable gateway fits 64 bits, so encoding never overflows a length field. */
module StateSizes {
  import opened Types
  import opened Bytes
  import opened Tables
  import opened BookSpec
  import opened BookLaws
  import opened GatewaySpec
  import opened GatewayLaws
  import opened BookRestore
  import opened RiskRestore
  import opened GatewayRestore
  import opened StateCodec
  import opened Snapshots
  import Priority
  import O = OrderIndexing
  import P = PriceLevels
  import R = RiskSpec
  import S = RiskStore

  const ACCOUNT_BYTES: nat := 109
  const RESERVATION_BYTES: nat := 21
  const ORDER_BYTES: nat := 37
  const LEVEL_BYTES: nat := 13
  const HEAD_BYTES: nat := 47

  /** What building a gateway asks of its capacities. */
  predicate Buildable(book: Shape, risk: R.RiskShape) {
    && 0 < book.orders < P.NIL && O.PLANES * (book.levels * book.orders) <= U32_BOUND
    && S.RISK_PLANES * risk.accounts <= U32_BOUND && S.RISK_PLANES * risk.orders <= U32_BOUND
  }

  // Field by field.

  lemma {:induction false} AccountBytes(e: (AccountId, R.Account), rest: Octets)
    ensures |PutAccount(e, rest)| == ACCOUNT_BYTES + |rest|
  {
    hide ToBytes;
  }

  lemma {:induction false} ReservationBytes(e: (OrderId, R.Reservation), rest: Octets)
    ensures |PutReservation(e, rest)| == RESERVATION_BYTES + |rest|
  {
    hide ToBytes;
  }

  lemma {:induction false} OrderBytes(o: BookOrderState, rest: Octets)
    ensures |PutOrder(o, rest)| == ORDER_BYTES + |rest|
  {
    hide ToBytes;
  }

  lemma {:induction false} HeadBytes(h: Head, rest: Octets)
    ensures |PutHead(h, rest)| == HEAD_BYTES + |rest|
  {
    hide ToBytes;
  }

  // List by list.

  lemma {:induction false} ElementBytes()
    ensures forall e, b :: |PutAccount(e, b)| == ACCOUNT_BYTES + |b|
    ensures forall e, b :: |PutReservation(e, b)| == RESERVATION_BYTES + |b|
    ensures forall o, b :: |PutOrder(o, b)| == ORDER_BYTES + |b|
  {
    hide PutAccount, PutReservation, PutOrder;
    forall e, b ensures |PutAccount(e, b)| == ACCOUNT_BYTES + |b| { AccountBytes(e, b); }
    forall e, b ensures |PutReservation(e, b)| == RESERVATION_BYTES + |b| { ReservationBytes(e, b); }
    forall o, b ensures |PutOrder(o, b)| == ORDER_BYTES + |b| { OrderBytes(o, b); }
  }

  lemma {:induction false} LevelBytes(l: BookLevelState, rest: Octets)
    requires Counted(|l.orders|)
    ensures |PutLevel(l, rest)| == LEVEL_BYTES + ORDER_BYTES * |l.orders| + |rest|
  {
    hide ToBytes, PutOrder, PutList;
    ElementBytes();
    ListSize(PutOrder, ORDER_BYTES, l.orders, rest);
  }

  lemma {:induction false} LevelsBytes(list: seq<BookLevelState>, orders: nat, rest: Octets)
    requires CountedLevels(list) && forall i :: 0 <= i < |list| ==> |list[i].orders| <= orders
    ensures |PutLevels(list, rest)| <= LEVEL_BYTES * |list| + ORDER_BYTES * (|list| * orders) + |rest|
  {
    hide PutLevel;
    if list != [] {
      LevelBytes(list[0], PutLevels(list[1..], rest));
      LevelsBytes(list[1..], orders, rest);
      OneMore(|list| - 1, orders);
    }
  }

  lemma {:induction false} OneMore(n: nat, orders: nat)
    ensures (n + 1) * orders == n * orders + orders
  {
  }

  lemma {:induction false} FewerLevels(n: nat, levels: nat, orders: nat)
    requires n <= levels
    ensures n * orders <= levels * orders
  {
  }

  // The whole payload.

  /** Counts that fit the capacities fit their 32-bit fields. */
  lemma {:induction false} SizesCounted(r: GatewayRecords, shape: Shape, riskShape: R.RiskShape)
    requires Buildable(shape, riskShape) && shape.orders < U32_BOUND && SizesFit(r, shape, riskShape)
    ensures CountedState(r) && CapacitiesFit(shape, riskShape)
  {
    LevelsFit(shape.levels, shape.orders);
  }

  lemma {:induction false} LevelsFit(levels: nat, orders: nat)
    requires orders > 0
    ensures levels <= levels * orders
  {
  }

  /** The payload of a state within the capacities, with its header, fits 64 bits. */
  lemma {:induction false} PayloadFits(r: GatewayRecords, shape: Shape, riskShape: R.RiskShape)
    requires Buildable(shape, riskShape) && SizesFit(r, shape, riskShape) && CountedState(r)
    ensures HEADER_SIZE + |PutState(r)| < U64_BOUND
  {
    hide PutHead, PutAccount, PutReservation, PutList, PutLevels;
    var asks := PutLevels(r.book.asks, []);
    var bids := PutLevels(r.book.bids, asks);
    var reservations := PutList(PutReservation, r.risk.reservations, bids);
    LevelsBytes(r.book.asks, shape.orders, []);
    LevelsBytes(r.book.bids, shape.orders, asks);
    ElementBytes();
    ListSize(PutReservation, RESERVATION_BYTES, r.risk.reservations, bids);
    ListSize(PutAccount, ACCOUNT_BYTES, r.risk.accounts, reservations);
    HeadBytes(HeadOf(r), PutTables(r));
    FewerLevels(|r.book.asks|, shape.levels, shape.orders);
    FewerLevels(|r.book.bids|, shape.levels, shape.orders);
    LevelsFit(shape.levels, shape.orders);
  }

  /** Listing a map drops nothing and repeats nothing. */
  lemma {:induction false} ListingSize<V(!new)>(m: map<int, V>)
    requires KeysWithin(m)
    ensures |Listing(m)| == |m|
  {
    ListingRepresents(m);
    AscendingDistinct(Listing(m));
    TableIs(Listing(m));
    SameTable(Listing(m), m, Table(Listing(m)));
  }

  lemma {:induction false} SameTable<V(!new)>(list: seq<(int, V)>, m: map<int, V>, n: map<int, V>)
    requires Represents(list, m) && Represents(list, n)
    ensures |m| == |n|
  {
    assert m.Keys == n.Keys;
    KeysSize(m, n);
  }

  /** The export of a sound state is within the capacities. */
  lemma {:induction false} ExportSizes(cfg: Config, g: GatewayState)
    requires SoundGateway(cfg, g)
    ensures SizesFit(ExportGateway(cfg.instrument, g), cfg.book, cfg.risk)
  {
    hide Priority.Flatten, R.Accounted, Listing, Paired, Uncrossed;
    ListingSize(g.risk.accounts);
    ListingSize(g.risk.reservations);
    SideSizes(Buy, g.book.bids, cfg.book, g.expected);
    SideSizes(Sell, g.book.asks, cfg.book, g.expected);
  }

  lemma {:induction false} SideSizes(side: Side, levels: seq<Level>, shape: Shape, next: int)
    requires GoodSide(side, levels, shape, next)
    ensures var list := ExportSide(side, levels);
            |list| <= shape.levels && forall i :: 0 <= i < |list| ==> |list[i].orders| <= shape.orders
  {
    hide ExportSide, ExportOrders;
    forall i | 0 <= i < |levels| ensures |levels[i].orders| <= shape.orders {
      assert GoodLevel(levels[i], shape, next);
    }
  }

  /** Encoding the export of a sound state cannot overflow a length field. */
  lemma {:induction false} SoundEncodes(cfg: Config, g: GatewayState, sha: Octets -> Digest)
    requires SoundGateway(cfg, g) && Buildable(cfg.book, cfg.risk)
    ensures g.expected > 0
    ensures Encode(ExportGateway(cfg.instrument, g), g.expected - 1, cfg.book, cfg.risk, sha).Ok? <==> cfg.book.orders < U32_BOUND
    ensures cfg.book.orders < U32_BOUND ==>
              CountedState(ExportGateway(cfg.instrument, g)) && HEADER_SIZE + |PutState(ExportGateway(cfg.instrument, g))| < U64_BOUND
  {
    hide ExportBook, ExportRisk, PutState, CountedState, SizesFit, SoundBook, R.SoundRisk, Paired;
    ExportSizes(cfg, g);
    if cfg.book.orders < U32_BOUND {
      SizesCounted(ExportGateway(cfg.instrument, g), cfg.book, cfg.risk);
      PayloadFits(ExportGateway(cfg.instrument, g), cfg.book, cfg.risk);
    }
  }
}
