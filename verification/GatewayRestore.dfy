/** Rebuilding a gateway from exported state: exactly the exports of sound states whose
    resting orders respect their account limits are accepted. */
module GatewayRestore {
  import opened Types
  import opened Tables
  import opened PriceLevels
  import opened BookSpec
  import opened BookLaws
  import opened Priority
  import opened GatewaySpec
  import opened GatewayLaws
  import opened BookRestore
  import opened RiskRestore
  import B = OrderBooks
  import E = RiskEngines
  import G = Gateways
  import O = OrderIndexing
  import R = RiskSpec
  import S = RiskStore

  datatype GatewayRecords = GatewayRecords(
    instrument: InstrumentId,
    book: BookState,
    risk: RiskRecords,
    expected: Sequence,
    maximum: Option<OrderId>)

  datatype GatewayStateError =
    | BadBook(book: BookStateError)
    | BadRisk(risk: RiskStateError)
    | ExpectedSequence | OrderSequence | OrderWatermark | RiskWatermark
    | MissingReservation | ReservationMismatch | OrderLimit | OrphanReservation

  ghost function ExportGateway(instrument: InstrumentId, g: GatewayState): GatewayRecords {
    GatewayRecords(instrument, ExportBook(instrument, g.book), ExportRisk(g.risk), g.expected, g.maximum)
  }

  function ImportGateway(r: GatewayRecords): GatewayState {
    GatewayState(ImportBook(r.book), ImportRisk(r.risk), r.expected, r.maximum)
  }

  /** The per-order limits of an account, as restore enforces them. */
  predicate InLimits(l: R.RiskLimits, price: Price, quantity: Quantity) {
    quantity <= l.maxQuantity && l.minPrice <= price <= l.maxPrice && 0 <= price && price * quantity <= l.maxNotional
  }

  function OrdersOf(levels: seq<BookLevelState>): seq<BookOrderState> {
    if levels == [] then [] else levels[0].orders + OrdersOf(levels[1..])
  }

  /** First way one resting order contradicts sequence, watermark, reservation or limits. */
  function RestingDefect(r: GatewayRecords, o: BookOrderState): Option<GatewayStateError> {
    var reservations, accounts := Table(r.risk.reservations), Table(r.risk.accounts);
    if o.sequence >= r.expected then Some(OrderSequence)
    else if r.maximum.None? || r.maximum.value < o.id then Some(OrderWatermark)
    else if o.id !in reservations then Some(MissingReservation)
    else if reservations[o.id] != R.Reservation(o.account, o.side, o.quantity) then Some(ReservationMismatch)
    else if o.account !in accounts then Some(ReservationMismatch)
    else if !InLimits(accounts[o.account].limits, o.price, o.quantity) then Some(OrderLimit)
    else None
  }

  function OrdersDefect(r: GatewayRecords, orders: seq<BookOrderState>): Option<GatewayStateError> {
    if orders == [] then None
    else match RestingDefect(r, orders[0])
      case Some(e) => Some(e)
      case None => OrdersDefect(r, orders[1..])
  }

  function CrossDefect(r: GatewayRecords): Option<GatewayStateError> {
    var orders := OrdersOf(r.book.bids) + OrdersOf(r.book.asks);
    if r.expected == 0 then Some(ExpectedSequence)
    else if !AtMost(r.risk.maximum, r.maximum) then Some(RiskWatermark)
    else if OrdersDefect(r, orders).Some? then OrdersDefect(r, orders)
    else if |orders| != |r.risk.reservations| then Some(OrphanReservation)
    else None
  }

  /** First defect of an exported gateway. */
  function GatewayDefect(r: GatewayRecords, shape: Shape, riskShape: R.RiskShape): Option<GatewayStateError> {
    if r.book.instrument != r.instrument then Some(BadBook(WrongInstrument))
    else if StateError(r.book, shape).Some? then Some(BadBook(StateError(r.book, shape).value))
    else if RecordsDefect(r.risk, riskShape).Some? then Some(BadRisk(RecordsDefect(r.risk, riskShape).value))
    else CrossDefect(r)
  }

  // Acceptance, declaratively.

  /** What restore asks of one resting order. */
  ghost predicate Fitting(g: GatewayState, side: Side, t: Resting) {
    && t.order.sequence < g.expected && g.maximum.Some? && t.order.id <= g.maximum.value
    && t.order.id in g.risk.reservations
    && g.risk.reservations[t.order.id] == R.Reservation(t.order.account, side, t.order.quantity)
    && Bounded(g.risk, t)
  }

  ghost predicate Bounded(risk: R.RiskState, t: Resting) {
    t.order.account in risk.accounts && InLimits(risk.accounts[t.order.account].limits, t.price, t.order.quantity)
  }

  /** Every resting order respects its account's per-order limits. */
  ghost predicate WithinLimits(g: GatewayState) {
    BookWithin(g.book, g.risk)
  }

  ghost predicate BookWithin(b: Book, risk: R.RiskState) {
    && (forall t :: t in Flatten(b.bids) ==> Bounded(risk, t))
    && (forall t :: t in Flatten(b.asks) ==> Bounded(risk, t))
  }

  function StateOfResting(side: Side, t: Resting): BookOrderState {
    BookOrderState(t.order.id, t.order.account, side, t.price, t.order.quantity, t.order.sequence)
  }

  lemma {:induction false} ExportedOrders(side: Side, levels: seq<Level>)
    ensures |OrdersOf(ExportSide(side, levels))| == |Flatten(levels)|
    ensures forall k :: 0 <= k < |Flatten(levels)| ==> OrdersOf(ExportSide(side, levels))[k] == StateOfResting(side, Flatten(levels)[k])
  {
    if levels != [] {
      ExportedOrders(side, levels[1..]);
      assert ExportSide(side, levels)[1..] == ExportSide(side, levels[1..]);
    }
  }

  lemma {:induction false} OrdersDefectNone(r: GatewayRecords, orders: seq<BookOrderState>)
    ensures OrdersDefect(r, orders).None? <==> forall k :: 0 <= k < |orders| ==> RestingDefect(r, orders[k]).None?
  {
    hide RestingDefect;
    if orders != [] {
      OrdersDefectNone(r, orders[1..]);
      assert forall k :: 0 < k < |orders| ==> orders[k] == orders[1..][k - 1];
    }
  }

  lemma {:induction false} SideFits(r: GatewayRecords, side: Side, levels: seq<Level>)
    ensures (forall k :: 0 <= k < |Flatten(levels)| ==> RestingDefect(r, StateOfResting(side, Flatten(levels)[k])).None?) <==>
            forall t :: t in Flatten(levels) ==> Fitting(ImportGateway(r), side, t)
  {
    hide Flatten, InLimits, Table;
    forall t: Resting ensures RestingDefect(r, StateOfResting(side, t)).None? <==> Fitting(ImportGateway(r), side, t) {
    }
    hide RestingDefect, Fitting, StateOfResting;
  }

  lemma {:induction false} CrossNone(r: GatewayRecords, b: Book)
    requires r.book == ExportBook(r.instrument, b) && b == ImportBook(r.book)
    ensures CrossDefect(r).None? <==>
            && 0 < r.expected && AtMost(r.risk.maximum, r.maximum)
            && (forall t :: t in Flatten(b.bids) ==> Fitting(ImportGateway(r), Buy, t))
            && (forall t :: t in Flatten(b.asks) ==> Fitting(ImportGateway(r), Sell, t))
            && |Flatten(b.bids)| + |Flatten(b.asks)| == |r.risk.reservations|
  {
    ExportedOrders(Buy, b.bids);
    ExportedOrders(Sell, b.asks);
    SideFits(r, Buy, b.bids);
    SideFits(r, Sell, b.asks);
    var x, y := OrdersOf(r.book.bids), OrdersOf(r.book.asks);
    OrdersDefectNone(r, x + y);
    hide OrdersOf, Flatten, RestingDefect, Fitting, OrdersDefect, ImportGateway, StateOfResting;
    BothParts(r, x, y);
  }

  lemma {:induction false} BothParts(r: GatewayRecords, x: seq<BookOrderState>, y: seq<BookOrderState>)
    ensures (forall k :: 0 <= k < |x + y| ==> RestingDefect(r, (x + y)[k]).None?) <==>
            (forall k :: 0 <= k < |x| ==> RestingDefect(r, x[k]).None?) && (forall k :: 0 <= k < |y| ==> RestingDefect(r, y[k]).None?)
  {
    hide RestingDefect;
    var all := x + y;
    if forall k :: 0 <= k < |all| ==> RestingDefect(r, all[k]).None? {
      assert forall k :: 0 <= k < |x| ==> all[k] == x[k];
      forall k | 0 <= k < |y| ensures RestingDefect(r, y[k]).None? {
        assert all[|x| + k] == y[k];
      }
    }
  }

  /** Distinct listed ids are as many as the list is long. */
  lemma {:induction false} IdsCount(list: seq<Resting>)
    requires DistinctKeys(list)
    ensures |Ids(list)| == |list|
  {
    if list == [] {
      assert Ids(list) == {};
    } else {
      var rest := list[1..];
      IdsCount(rest);
      IdsWithout(list, 0);
      assert Without(list, 0) == rest;
      IdIn(list, 0);
    }
  }

  lemma {:induction false} DisjointCount(x: set<OrderId>, y: set<OrderId>)
    requires x !! y
    ensures |x + y| == |x| + |y|
  {
  }

  lemma {:induction false} SubsetSame(x: set<OrderId>, y: set<OrderId>)
    requires x <= y && |x| == |y|
    ensures x == y
  {
    assert y == x + (y - x);
  }

  lemma {:induction false} ApartIds(x: seq<Resting>, y: seq<Resting>)
    requires Apart(x, y)
    ensures Ids(x) !! Ids(y)
  {
    forall id | id in Ids(x) ensures id !in Ids(y) {
      var r :| r in x && r.order.id == id;
    }
  }

  /** As many orders as reservations, each with its own: a bijection. */
  lemma {:induction false} CountsPair(b: Book, m: map<OrderId, R.Reservation>)
    requires SoundKeys(b) && Matches(Flatten(b.bids), Buy, m) && Matches(Flatten(b.asks), Sell, m)
    ensures |Flatten(b.bids)| + |Flatten(b.asks)| == |m| <==> Paired(b, m, {})
  {
    hide Flatten;
    var x, y := Flatten(b.bids), Flatten(b.asks);
    IdsCount(x);
    IdsCount(y);
    ApartIds(x, y);
    DisjointCount(Ids(x), Ids(y));
    assert |m.Keys| == |m|;
    assert Ids(x) + Ids(y) <= m.Keys;
    if |x| + |y| == |m| {
      SubsetSame(Ids(x) + Ids(y), m.Keys);
    }
    assert Ids(x) + Ids(y) + {} == Ids(x) + Ids(y);
  }

  /** The sequence bound of a sound book can be tightened to what its orders show. */
  lemma {:induction false} SoundTighter(b: Book, shape: Shape, next: int, tight: int)
    requires SoundBook(b, shape, next)
    requires forall t :: t in Flatten(b.bids) || t in Flatten(b.asks) ==> t.order.sequence < tight
    ensures SoundBook(b, shape, tight)
  {
    hide Flatten, DistinctKeys, Apart;
    GoodTighter(Buy, b.bids, shape, next, tight);
    GoodTighter(Sell, b.asks, shape, next, tight);
  }

  lemma {:induction false} GoodTighter(side: Side, levels: seq<Level>, shape: Shape, next: int, tight: int)
    requires GoodSide(side, levels, shape, next) && forall t :: t in Flatten(levels) ==> t.order.sequence < tight
    ensures GoodSide(side, levels, shape, tight)
  {
    hide Flatten;
    forall i | 0 <= i < |levels| ensures GoodLevel(levels[i], shape, tight) {
      assert GoodLevel(levels[i], shape, next);
      forall j | 0 <= j < |levels[i].orders| ensures levels[i].orders[j].sequence < tight {
        FlattenAt(levels, i, j);
        assert Flatten(levels)[Offset(levels, i) + j] in Flatten(levels);
      }
    }
  }

  /** The cross-component part of acceptance: every order fits and no reservation is an orphan. */
  ghost predicate CrossConsistent(g: GatewayState) {
    && 0 < g.expected && AtMost(g.risk.maximum, g.maximum)
    && (forall t :: t in Flatten(g.book.bids) ==> Fitting(g, Buy, t))
    && (forall t :: t in Flatten(g.book.asks) ==> Fitting(g, Sell, t))
    && |Flatten(g.book.bids)| + |Flatten(g.book.asks)| == |g.risk.reservations|
  }

  /** All listed orders fit and none is missing: the state is sound and within limits. */
  lemma {:induction false} FittingIffSound(g: GatewayState, cfg: Config)
    requires SoundBook(g.book, cfg.book, U64_BOUND) && R.SoundRisk(g.risk, cfg.risk) && 0 < cfg.book.orders
    ensures CrossConsistent(g) <==> SoundGateway(cfg, g) && WithinLimits(g)
  {
    hide CrossConsistent, SoundGateway, WithinLimits;
    if CrossConsistent(g) {
      FittingSound(g, cfg);
    }
    if SoundGateway(cfg, g) && WithinLimits(g) {
      SoundCapacities(g, cfg);
    }
  }

  lemma {:induction false} FittingSound(g: GatewayState, cfg: Config)
    requires SoundBook(g.book, cfg.book, U64_BOUND) && R.SoundRisk(g.risk, cfg.risk) && 0 < cfg.book.orders && CrossConsistent(g)
    ensures SoundGateway(cfg, g) && WithinLimits(g)
  {
    hide Flatten, R.SoundRisk, Bounded, SoundKeys, Paired, Uncrossed, GoodSide, DistinctKeys, Apart;
    SoundTighter(g.book, cfg.book, U64_BOUND, g.expected);
    KeysOf(g.book, cfg.book, U64_BOUND);
    CountsPair(g.book, g.risk.reservations);
  }

  lemma {:induction false} SoundCapacities(g: GatewayState, cfg: Config)
    requires SoundGateway(cfg, g) && WithinLimits(g)
    ensures CrossConsistent(g)
  {
    hide Flatten, R.SoundRisk, Bounded, SoundKeys, SoundBook, Ids;
    KeysOf(g.book, cfg.book, g.expected);
    CountsPair(g.book, g.risk.reservations);
    BelowNext(g.book, cfg.book, g.expected);
    forall t | t in Flatten(g.book.bids) ensures Fitting(g, Buy, t) {
      ListedBelow(g, cfg, t.order.id);
    }
    forall t | t in Flatten(g.book.asks) ensures Fitting(g, Sell, t) {
      ListedBelow(g, cfg, t.order.id);
    }
  }

  lemma {:induction false} KeysOf(b: Book, shape: Shape, next: int)
    requires SoundBook(b, shape, next)
    ensures SoundKeys(b)
  {
    hide GoodSide, Flatten, DistinctKeys, Apart, Uncrossed;
  }

  /** A reserved id is within the gateway's watermark. */
  lemma {:induction false} ListedBelow(g: GatewayState, cfg: Config, id: OrderId)
    requires R.SoundRisk(g.risk, cfg.risk) && AtMost(g.risk.maximum, g.maximum) && id in g.risk.reservations
    ensures g.maximum.Some? && id <= g.maximum.value
  {
    hide R.Accounted;
  }

  lemma {:induction false} BelowNext(b: Book, shape: Shape, next: int)
    requires SoundBook(b, shape, next)
    ensures forall t :: t in Flatten(b.bids) || t in Flatten(b.asks) ==> t.order.sequence < next
  {
    hide Flatten, DistinctKeys, Apart, GoodSide;
    SequencesBelow(Buy, b.bids, shape, next);
    SequencesBelow(Sell, b.asks, shape, next);
  }

  /** Restore accepts exactly the exports of sound gateways within their limits. */
  lemma {:induction false} GatewayAcceptedIff(r: GatewayRecords, cfg: Config)
    requires 0 < cfg.book.orders
    ensures GatewayDefect(r, cfg.book, cfg.risk).None? <==>
            && r == ExportGateway(r.instrument, ImportGateway(r))
            && SoundGateway(cfg, ImportGateway(r)) && WithinLimits(ImportGateway(r))
  {
    hide StateError, RecordsDefect, CrossDefect, SoundBook, R.SoundRisk, Fitting, WithinLimits, ExportBook, ImportBook, ExportRisk, ImportRisk, Flatten, Paired;
    BookRestore.AcceptedIffExport(r.book, cfg.book);
    RiskRestore.AcceptedIffExport(r.risk, cfg.risk);
    var g := ImportGateway(r);
    ExportKeepsInstrument(r.instrument, g.book);
    if SoundGateway(cfg, g) {
      SoundLater(g.book, cfg.book, g.expected, U64_BOUND);
    }
    if r.book == ExportBook(r.instrument, g.book) && SoundBook(g.book, cfg.book, U64_BOUND) && R.SoundRisk(g.risk, cfg.risk) && r.risk == ExportRisk(g.risk) {
      CrossNone(r, g.book);
      FittingIffSound(g, cfg);
      ListedReservations(r.risk);
      assert r.risk.maximum == g.risk.maximum by {
        MaximumKept(r.risk);
      }
    }
  }

  lemma {:induction false} ExportKeepsInstrument(instrument: InstrumentId, b: Book)
    ensures ExportBook(instrument, b).instrument == instrument
  {
  }

  lemma {:induction false} MaximumKept(r: RiskRecords)
    ensures ImportRisk(r).maximum == r.maximum
  {
  }

  lemma {:induction false} ListedReservations(r: RiskRecords)
    requires r == ExportRisk(ImportRisk(r))
    ensures |r.reservations| == |ImportRisk(r).reservations|
  {
    CanonicalIffExport(r);
    AscendingDistinct(r.reservations);
    TableIs(r.reservations);
  }

  lemma {:induction false} ImportExportGateway(instrument: InstrumentId, g: GatewayState)
    ensures ImportGateway(ExportGateway(instrument, g)) == g
  {
    hide ExportRisk, ImportRisk, ImportBook, ExportBook;
    BookRestore.ImportExport(instrument, g.book);
    RiskRestore.ImportExport(g.risk);
  }

  /** A sound state is restorable if and only if its resting orders are within limits. */
  lemma {:induction false} RestorableIff(instrument: InstrumentId, g: GatewayState, cfg: Config)
    requires SoundGateway(cfg, g)
    ensures GatewayDefect(ExportGateway(instrument, g), cfg.book, cfg.risk).None? <==> WithinLimits(g)
  {
    ImportExportGateway(instrument, g);
    GatewayAcceptedIff(ExportGateway(instrument, g), cfg);
    hide GatewayDefect, ExportGateway, ImportGateway, WithinLimits;
  }

  /** Every part of a rebuilt gateway is new. */
  twostate predicate FreshParts(new g: G.Gateway) {
    && fresh(g) && fresh(g.book) && fresh(g.book.bidLevels) && fresh(g.book.askLevels) && fresh(g.book.index.slots)
    && fresh(g.risk) && fresh(g.risk.cells) && fresh(g.risk.seats) && fresh(g.risk.seatIndex.slots)
  }

  /** Rebuilds a gateway, or returns the first defect; nothing partial escapes. */
  method RestoreGateway(r: GatewayRecords, shape: Shape, riskShape: R.RiskShape) returns (g: Result<G.Gateway, GatewayStateError>)
    requires 0 < shape.orders < NIL && O.PLANES * (shape.levels * shape.orders) <= U32_BOUND
    requires S.RISK_PLANES * riskShape.accounts <= U32_BOUND && S.RISK_PLANES * riskShape.orders <= U32_BOUND
    ensures match GatewayDefect(r, shape, riskShape)
            case Some(e) => g == Err(e)
            case None => g.Ok?
    ensures g.Ok? ==>
              && fresh(g.value) && g.value.Valid() && g.value.Cfg() == Config(r.instrument, shape, riskShape)
              && ExportGateway(r.instrument, g.value.View()) == r
              && SoundGateway(g.value.Cfg(), g.value.View())
    ensures g.Ok? ==> FreshParts(g.value)
  {
    hide StateError, RecordsDefect, CrossDefect, B.OrderBook.Valid, B.OrderBook.View, E.RiskEngine.Valid, SoundGateway, SoundBook, ExportRisk, ExportBook, ImportBook, ImportRisk;
    GatewayAcceptedIff(r, Config(r.instrument, shape, riskShape));
    var book := RestoreBook(r.instrument, shape, r.book);
    if book.Err? {
      return Err(BadBook(book.error));
    }
    var risk := RestoreEngine(r.risk, riskShape);
    if risk.Err? {
      return Err(BadRisk(risk.error));
    }
    var cross := CrossDefect(r);
    if cross.Some? {
      return Err(cross.value);
    }
    BookRestore.ImportExport(r.instrument, book.value.View());
    RiskRestore.ImportExport(risk.value.state);
    book.value.ViewStocked();
    var gateway := new G.Gateway.Assemble(risk.value, book.value, r.expected, r.maximum);
    g := Ok(gateway);
  }
}
