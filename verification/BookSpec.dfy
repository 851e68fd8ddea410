/** The book as its exported state: per side, price levels from best to worst,
    each a FIFO of orders. Every operation of the slot-based book is proved to
    act on this state as the functions here do. */
module BookSpec {
  import opened Types
  import opened PriceLevels

  datatype Level = Level(price: Price, orders: seq<Order>)

  datatype Book = Book(bids: seq<Level>, asks: seq<Level>) {
    function At(side: Side): seq<Level> {
      if side == Buy then bids else asks
    }

    function With(side: Side, levels: seq<Level>): Book {
      if side == Buy then Book(levels, asks) else Book(bids, levels)
    }
  }

  /** Fixed capacities: levels per side and orders per level. */
  datatype Shape = Shape(levels: nat, orders: nat)

  datatype Fill = Fill(maker: OrderId, price: Price, quantity: Quantity)

  datatype Submitted = Submitted(book: Book, summary: MatchSummary, fills: seq<Fill>)

  /** The best level as market data shows it. */
  datatype TopLevel = TopLevel(price: Price, aggregate: nat, count: nat)

  function TopOf(levels: seq<Level>): Option<TopLevel> {
    if levels == [] then None else Some(TopLevel(levels[0].price, TotalQuantity(levels[0].orders), |levels[0].orders|))
  }

  /** Where an order rests: the `place`-th order of the `level`-th best level. */
  datatype Position = Position(side: Side, level: nat, place: nat)

  /** Is resting price `a` strictly ahead of `b` on `side`? */
  predicate Better(side: Side, a: Price, b: Price) {
    if side == Buy then a > b else a < b
  }

  /** Would a taker with this limit trade at a resting `price`? */
  predicate Crosses(taker: Side, limit: Price, price: Price) {
    if taker == Buy then price <= limit else price >= limit
  }

  predicate Sorted(side: Side, levels: seq<Level>) {
    forall i, j :: 0 <= i < j < |levels| ==> Better(side, levels[i].price, levels[j].price)
  }

  /** No level is empty and no resting quantity is zero. */
  predicate Stocked(levels: seq<Level>) {
    forall i :: 0 <= i < |levels| ==> StockedLevel(levels[i])
  }

  predicate StockedBook(b: Book) {
    Stocked(b.bids) && Stocked(b.asks)
  }

  predicate StockedLevel(l: Level) {
    l.orders != [] && forall j :: 0 <= j < |l.orders| ==> l.orders[j].quantity > 0
  }

  /** Index of the first level that is not better than `price`. */
  function Place(side: Side, levels: seq<Level>, price: Price): (p: nat)
    ensures p <= |levels|
    ensures forall i :: 0 <= i < p ==> Better(side, levels[i].price, price)
    ensures p < |levels| ==> !Better(side, levels[p].price, price)
  {
    if levels == [] || !Better(side, levels[0].price, price) then 0 else 1 + Place(side, levels[1..], price)
  }

  predicate HasPrice(side: Side, levels: seq<Level>, price: Price) {
    var p := Place(side, levels, price);
    p < |levels| && levels[p].price == price
  }

  /** Rests `order` behind every order at its price. */
  function AddOrder(side: Side, levels: seq<Level>, price: Price, order: Order): seq<Level> {
    var p := Place(side, levels, price);
    if HasPrice(side, levels, price) then levels[p := Level(price, levels[p].orders + [order])]
    else InsertAt(levels, p, Level(price, [order]))
  }

  predicate InLevels(levels: seq<Level>, i: nat, j: nat) {
    i < |levels| && j < |levels[i].orders|
  }

  /** Takes one order out; a level never outlives its last order. */
  function RemoveOrder(levels: seq<Level>, i: nat, j: nat): seq<Level>
    requires InLevels(levels, i, j)
  {
    if |levels[i].orders| == 1 then Without(levels, i)
    else levels[i := Level(levels[i].price, Without(levels[i].orders, j))]
  }

  function SetOrder(levels: seq<Level>, i: nat, j: nat, order: Order): seq<Level>
    requires InLevels(levels, i, j)
  {
    levels[i := Level(levels[i].price, levels[i].orders[j := order])]
  }

  function FindOrder(orders: seq<Order>, id: OrderId): (r: Option<nat>)
    ensures r.Some? ==> r.value < |orders| && orders[r.value].id == id
    ensures r.None? ==> forall j :: 0 <= j < |orders| ==> orders[j].id != id
  {
    if orders == [] then None
    else if orders[0].id == id then Some(0)
    else match FindOrder(orders[1..], id)
      case None => None
      case Some(j) => Some(j + 1)
  }

  function FindLevel(levels: seq<Level>, id: OrderId): (r: Option<(nat, nat)>)
    ensures r.Some? ==> InLevels(levels, r.value.0, r.value.1) && levels[r.value.0].orders[r.value.1].id == id
    ensures r.None? ==> forall i: nat, j: nat :: InLevels(levels, i, j) ==> levels[i].orders[j].id != id
  {
    if levels == [] then None
    else match FindOrder(levels[0].orders, id)
      case Some(j) => Some((0, j))
      case None =>
        match FindLevel(levels[1..], id)
        case None => None
        case Some(ij) => Some((ij.0 + 1, ij.1))
  }

  function Locate(b: Book, id: OrderId): (r: Option<Position>)
    ensures r.Some? ==> InLevels(b.At(r.value.side), r.value.level, r.value.place) && OrderOf(b, r.value).id == id
    ensures r.None? ==> forall side, i: nat, j: nat :: InLevels(b.At(side), i, j) ==> b.At(side)[i].orders[j].id != id
  {
    match FindLevel(b.bids, id)
    case Some(ij) => Some(Position(Buy, ij.0, ij.1))
    case None =>
      match FindLevel(b.asks, id)
      case Some(ij) => Some(Position(Sell, ij.0, ij.1))
      case None => None
  }

  function OrderOf(b: Book, p: Position): Order
    requires InLevels(b.At(p.side), p.level, p.place)
  {
    b.At(p.side)[p.level].orders[p.place]
  }

  /** One trade against the head order of the best level. */
  function FillHead(levels: seq<Level>, quantity: Quantity): seq<Level>
    requires InLevels(levels, 0, 0) && quantity <= levels[0].orders[0].quantity
  {
    var head := levels[0].orders[0];
    if quantity == head.quantity then RemoveOrder(levels, 0, 0)
    else SetOrder(levels, 0, 0, head.(quantity := head.quantity - quantity))
  }

  function Min(a: Quantity, b: Quantity): Quantity {
    if a < b then a else b
  }

  lemma {:induction false} FillHeadStocked(levels: seq<Level>, quantity: Quantity)
    requires Stocked(levels) && levels != [] && quantity <= levels[0].orders[0].quantity
    ensures Stocked(FillHead(levels, quantity))
  {
    var r := FillHead(levels, quantity);
    forall i | 0 <= i < |r| ensures StockedLevel(r[i]) {
      if quantity == levels[0].orders[0].quantity && |levels[0].orders| == 1 {
        assert r[i] == levels[i + 1];
      } else if i > 0 {
        assert r[i] == levels[i];
      } else {
        assert StockedLevel(levels[0]);
      }
    }
  }

  datatype Matched = Matched(makers: seq<Level>, fills: seq<Fill>, remaining: Quantity)

  /** Price-time matching: trade with the oldest order of the best level for as
      long as the limit crosses and quantity remains. */
  function Match(taker: Side, limit: Price, makers: seq<Level>, quantity: Quantity): (m: Matched)
    requires Stocked(makers)
    decreases quantity
  {
    if quantity == 0 || makers == [] || !Crosses(taker, limit, makers[0].price) then Matched(makers, [], quantity)
    else
      assert StockedLevel(makers[0]);
      var head := makers[0].orders[0];
      var traded := Min(quantity, head.quantity);
      FillHeadStocked(makers, traded);
      var rest := Match(taker, limit, FillHead(makers, traded), quantity - traded);
      rest.(fills := [Fill(head.id, makers[0].price, traded)] + rest.fills)
  }

  predicate Contains(b: Book, id: OrderId) {
    Locate(b, id).Some?
  }

  /** Every order is found where it rests: no id rests twice. */
  ghost predicate UniqueIds(b: Book) {
    forall side, i: nat, j: nat :: InLevels(b.At(side), i, j) ==> Locate(b, b.At(side)[i].orders[j].id) == Some(Position(side, i, j))
  }

  /** Admission checks, before either matching path looks at quantities. */
  function Validate(b: Book, instrument: InstrumentId, order: NewOrder): Option<RejectReason> {
    if order.instrument != instrument then Some(InvalidInstrument)
    else if order.price <= 0 then Some(InvalidPrice)
    else if order.quantity == 0 then Some(InvalidQuantity)
    else if Contains(b, order.orderId) then Some(DuplicateOrderId)
    else
      var makers := b.At(order.side.Opposite());
      if order.tif == PostOnly && makers != [] && Crosses(order.side, order.price, makers[0].price)
      then Some(PostOnlyWouldTrade) else None
  }

  /** Room for one more order at `price`? */
  function RestRejection(side: Side, levels: seq<Level>, price: Price, shape: Shape): Option<RejectReason> {
    if HasPrice(side, levels, price) then
      if |levels[Place(side, levels, price)].orders| == shape.orders then Some(PriceLevelOrderCapacity) else None
    else if |levels| == shape.levels then Some(PriceLevelCapacity) else None
  }

  function StateOf(filled: Quantity, quantity: Quantity): OrderState {
    if filled == quantity then Filled else if filled == 0 then Accepted else PartiallyFilled
  }

  predicate Rests(tif: TimeInForce) {
    tif == Gtc || tif == PostOnly
  }

  /** The whole submission: validate, match, check capacities, rest or discard.
      `room` is the space left in the caller's report buffer. */
  function SubmitOrder(b: Book, shape: Shape, instrument: InstrumentId, order: NewOrder, room: nat): Result<Submitted, RejectReason>
    requires Stocked(b.bids) && Stocked(b.asks)
  {
    match Validate(b, instrument, order)
    case Some(reason) => Err(reason)
    case None =>
      var maker := order.side.Opposite();
      var m := Match(order.side, order.price, b.At(maker), order.quantity);
      if |m.fills| > room then Err(ReportCapacity)
      else if order.tif == Fok && m.remaining > 0 then Err(InsufficientLiquidity)
      else if Rests(order.tif) && m.remaining > 0
              && RestRejection(order.side, b.At(order.side), order.price, shape).Some?
      then Err(RestRejection(order.side, b.At(order.side), order.price, shape).value)
      else
        var resting: Quantity := if Rests(order.tif) then m.remaining else 0;
        var discarded: Quantity := m.remaining - resting;
        MatchRemaining(order.side, order.price, b.At(maker), order.quantity);
        var filled: Quantity := order.quantity - m.remaining;
        var matched := b.With(maker, m.makers);
        var book := if resting == 0 then matched
                    else matched.With(order.side, AddOrder(order.side, matched.At(order.side), order.price,
                                                           Order(order.orderId, order.accountId, resting, order.sequence)));
        Ok(Submitted(book, MatchSummary(StateOf(filled, order.quantity), filled, resting, discarded, |m.fills|), m.fills))
  }

  lemma {:induction false} MatchRemaining(taker: Side, limit: Price, makers: seq<Level>, quantity: Quantity)
    requires Stocked(makers)
    ensures Match(taker, limit, makers, quantity).remaining <= quantity
    decreases quantity
  {
    if !(quantity == 0 || makers == [] || !Crosses(taker, limit, makers[0].price)) {
      assert StockedLevel(makers[0]);
      var traded := Min(quantity, makers[0].orders[0].quantity);
      FillHeadStocked(makers, traded);
      MatchRemaining(taker, limit, FillHead(makers, traded), quantity - traded);
    }
  }

  function CancelResting(b: Book, instrument: InstrumentId, cancel: CancelOrder): Result<(Book, CancelledOrder), RejectReason> {
    if cancel.instrument != instrument then Err(InvalidInstrument)
    else match Locate(b, cancel.orderId)
      case None => Err(UnknownOrder)
      case Some(p) =>
        var order := OrderOf(b, p);
        if order.account != cancel.accountId then Err(NotOrderOwner)
        else Ok((b.With(p.side, RemoveOrder(b.At(p.side), p.level, p.place)),
                 CancelledOrder(order.id, order.account, order.quantity)))
  }

  /** Why the destination of a moved order has no room for it. */
  function DestinationRejection(levels: seq<Level>, side: Side, source: nat, price: Price, shape: Shape): Option<RejectReason>
    requires source < |levels|
  {
    if HasPrice(side, levels, price) then
      var dest := Place(side, levels, price);
      if |levels[dest].orders| == shape.orders && !(dest == source && price == levels[source].price)
      then Some(PriceLevelOrderCapacity) else None
    else if |levels| == shape.levels && |levels[source].orders| != 1 then Some(PriceLevelCapacity)
    else None
  }

  /** Why a replace that loses priority cannot move to its destination. */
  function MoveRejection(b: Book, p: Position, price: Price, shape: Shape): Option<RejectReason>
    requires InLevels(b.At(p.side), p.level, p.place)
  {
    var levels := b.At(p.side);
    var opposing := b.At(p.side.Opposite());
    if price != levels[p.level].price && opposing != [] && Crosses(p.side, price, opposing[0].price)
    then Some(ReplaceWouldCross)
    else DestinationRejection(levels, p.side, p.level, price, shape)
  }

  function ReplaceResting(b: Book, shape: Shape, instrument: InstrumentId, replace: ReplaceOrder): Result<(Book, ReplacedOrder), RejectReason> {
    if replace.instrument != instrument then Err(InvalidInstrument)
    else match Locate(b, replace.orderId)
      case None => Err(UnknownOrder)
      case Some(p) =>
        var levels := b.At(p.side);
        var order := OrderOf(b, p);
        if order.account != replace.accountId then Err(NotOrderOwner)
        else if replace.price <= 0 then Err(InvalidPrice)
        else if replace.quantity == 0 then Err(InvalidQuantity)
        else
          var kept := replace.price == levels[p.level].price && replace.quantity < order.quantity;
          var outcome := ReplacedOrder(replace.orderId, replace.accountId, order.quantity, replace.quantity, replace.price, !kept);
          if kept then
            Ok((b.With(p.side, SetOrder(levels, p.level, p.place, order.(quantity := replace.quantity))), outcome))
          else match MoveRejection(b, p, replace.price, shape)
            case Some(reason) => Err(reason)
            case None =>
              var moved := Order(replace.orderId, replace.accountId, replace.quantity, replace.sequence);
              Ok((b.With(p.side, AddOrder(p.side, RemoveOrder(levels, p.level, p.place), replace.price, moved)), outcome))
  }

  /** A side's view respects its capacities. */
  ghost predicate Fits(side: Side, levels: seq<Level>, shape: Shape) {
    && Sorted(side, levels) && |levels| <= shape.levels
    && forall i :: 0 <= i < |levels| ==> 0 < |levels[i].orders| <= shape.orders
  }

  lemma {:induction false} PlaceOf(side: Side, levels: seq<Level>, i: nat)
    requires Sorted(side, levels) && i < |levels|
    ensures Place(side, levels, levels[i].price) == i && HasPrice(side, levels, levels[i].price)
  {
    var p := Place(side, levels, levels[i].price);
    assert p <= i;
  }

  /** A move that passes its checks leaves room at the destination once it has left. */
  lemma {:induction false} MoveFits(b: Book, p: Position, price: Price, shape: Shape)
    requires Fits(p.side, b.At(p.side), shape) && InLevels(b.At(p.side), p.level, p.place)
    requires MoveRejection(b, p, price, shape).None?
    ensures RestRejection(p.side, RemoveOrder(b.At(p.side), p.level, p.place), price, shape).None?
  {
    var levels := b.At(p.side);
    var r := RemoveOrder(levels, p.level, p.place);
    RemoveSortedLevels(p.side, levels, p.level, p.place);
    if HasPrice(p.side, r, price) {
      var d := Place(p.side, r, price);
      var e := if |levels[p.level].orders| == 1 && d >= p.level then d + 1 else d;
      assert r[d].price == levels[e].price;
      PlaceOf(p.side, levels, e);
    }
  }

  lemma {:induction false} RemoveSortedLevels(side: Side, levels: seq<Level>, k: nat, j: nat)
    requires Sorted(side, levels) && InLevels(levels, k, j)
    ensures Sorted(side, RemoveOrder(levels, k, j))
    ensures var r := RemoveOrder(levels, k, j);
            if |levels[k].orders| == 1 then |r| == |levels| - 1 && forall i :: 0 <= i < |r| ==> r[i] == levels[if i < k then i else i + 1]
            else |r| == |levels| && (forall i :: 0 <= i < |r| ==> r[i].price == levels[i].price)
                   && (forall i :: 0 <= i < |r| && i != k ==> r[i] == levels[i]) && |r[k].orders| == |levels[k].orders| - 1
  {
  }
}
