/** The book's decisions as a rulebook over its two priority lists: what it accepts, which
    refusal comes first, and what becomes of both lists. Nothing here says how the book
    finds out. */
module BookRules {
  import opened Types
  import opened Decisions
  import opened PriceLevels
  import opened BookSpec
  import opened BookIds
  import opened Priority
  import opened PriceTime
  import opened Reports
  import L = BookLaws

  // Vocabulary.

  /** The list an order of `side` rests in, and the one it trades against. */
  function Own(b: Book, side: Side): seq<Resting> {
    Flatten(if side == Buy then b.bids else b.asks)
  }

  function Facing(b: Book, side: Side): seq<Resting> {
    Flatten(if side == Buy then b.asks else b.bids)
  }

  /** A resting `price` is within the taker's limit. */
  predicate Meets(taker: Side, limit: Price, price: Price) {
    (taker == Buy && price <= limit) || (taker == Sell && price >= limit)
  }

  /** Price `a` has priority over price `b`. */
  predicate Ahead(side: Side, a: Price, b: Price) {
    (side == Buy && a > b) || (side == Sell && a < b)
  }

  ghost predicate Lists(list: seq<Resting>, id: OrderId) {
    exists r :: r in list && r.order.id == id
  }

  ghost predicate NoneMeets(taker: Side, limit: Price, list: seq<Resting>) {
    forall r :: r in list ==> !Meets(taker, limit, r.price)
  }

  /** What the orders within a limit hold together. */
  function MeetingVolume(taker: Side, limit: Price, list: seq<Resting>): nat {
    if list == [] then 0
    else (if Meets(taker, limit, list[0].price) then list[0].order.quantity else 0) + MeetingVolume(taker, limit, list[1..])
  }

  /** The `k`-th order in priority trades: it is within the limit, and those before it
      leave something to trade. */
  predicate Reached(taker: Side, limit: Price, quantity: Quantity, list: seq<Resting>, k: nat) {
    k < |list| && Meets(taker, limit, list[k].price) && Volume(list[..k]) < quantity
  }

  function CountAt(list: seq<Resting>, price: Price): nat {
    if list == [] then 0 else (if list[0].price == price then 1 else 0) + CountAt(list[1..], price)
  }

  ghost function Prices(list: seq<Resting>): set<Price> {
    set r | r in list :: r.price
  }

  /** A book within its capacities, best prices first, no empty level and no empty order. */
  ghost predicate Shaped(b: Book, shape: Shape) {
    Fits(Buy, b.bids, shape) && Fits(Sell, b.asks, shape) && StockedBook(b)
  }

  /** Position `m` is behind everything at `price` or better and ahead of everything worse. */
  ghost predicate Behind(side: Side, list: seq<Resting>, price: Price, m: nat) {
    && m <= |list|
    && (forall i :: 0 <= i < m ==> list[i].price == price || Ahead(side, list[i].price, price))
    && (forall i :: m <= i < |list| ==> Ahead(side, price, list[i].price))
  }

  /** `after` is `list` with `r` queued last at its price. */
  ghost predicate Queued(side: Side, list: seq<Resting>, r: Resting, after: seq<Resting>) {
    exists m: nat :: Behind(side, list, r.price, m) && after == list[..m] + [r] + list[m..]
  }

  // Lists and levels.

  predicate Ranked(side: Side, list: seq<Resting>) {
    forall i, j :: 0 <= i < j < |list| ==> !Ahead(side, list[j].price, list[i].price)
  }

  lemma {:induction false} SameWords(side: Side, a: Price, b: Price)
    ensures Meets(side, a, b) <==> Crosses(side, a, b)
    ensures Ahead(side, a, b) <==> Better(side, a, b)
  {
  }

  lemma {:induction false} SortedTail(side: Side, levels: seq<Level>)
    requires Sorted(side, levels) && levels != []
    ensures Sorted(side, levels[1..])
    ensures forall i :: 0 <= i < |levels[1..]| ==> Better(side, levels[0].price, levels[1..][i].price)
  {
  }

  /** Every listed price is that of a level. */
  lemma {:induction false} ListedPrice(levels: seq<Level>, k: nat) returns (i: nat)
    requires k < |Flatten(levels)|
    ensures i < |levels| && Flatten(levels)[k].price == levels[i].price
  {
    hide Flatten;
    var j;
    i, j := FlattenIndex(levels, k);
    FlattenAt(levels, i, j);
  }

  lemma {:induction false} FlattenRanked(side: Side, levels: seq<Level>)
    requires Sorted(side, levels)
    ensures Ranked(side, Flatten(levels))
  {
    if levels != [] {
      var front, rest := AtPrice(levels[0].price, levels[0].orders), Flatten(levels[1..]);
      SortedTail(side, levels);
      FlattenRanked(side, levels[1..]);
      var list: seq<Resting> := front + rest;
      forall i, j | 0 <= i < j < |list| ensures !Ahead(side, list[j].price, list[i].price) {
        if j >= |front| {
          var k := ListedPrice(levels[1..], j - |front|);
          if i >= |front| {
            assert !Ahead(side, rest[j - |front|].price, rest[i - |front|].price);
          }
        }
      }
    }
  }

  lemma {:induction false} RankedTail(side: Side, list: seq<Resting>)
    requires Ranked(side, list) && list != []
    ensures Ranked(side, list[1..])
  {
  }

  lemma {:induction false} CountAppend(a: seq<Resting>, b: seq<Resting>, price: Price)
    ensures CountAt(a + b, price) == CountAt(a, price) + CountAt(b, price)
  {
    if a == [] {
      assert a + b == b;
    } else {
      CountAppend(a[1..], b, price);
      assert (a + b)[1..] == a[1..] + b;
    }
  }

  lemma {:induction false} CountLevel(level: Price, orders: seq<Order>, price: Price)
    ensures CountAt(AtPrice(level, orders), price) == if level == price then |orders| else 0
  {
    if orders != [] {
      CountLevel(level, orders[1..], price);
      assert AtPrice(level, orders)[1..] == AtPrice(level, orders[1..]);
    }
  }

  /** The orders at a price are those of its level. */
  lemma {:induction false} CountIs(side: Side, levels: seq<Level>, price: Price)
    requires Sorted(side, levels)
    ensures CountAt(Flatten(levels), price) ==
            if HasPrice(side, levels, price) then |levels[Place(side, levels, price)].orders| else 0
  {
    if levels != [] {
      hide HasPrice, CountAt, Place;
      SortedTail(side, levels);
      CountIs(side, levels[1..], price);
      CountLevel(levels[0].price, levels[0].orders, price);
      CountAppend(AtPrice(levels[0].price, levels[0].orders), Flatten(levels[1..]), price);
      if Better(side, levels[0].price, price) {
        PlaceBehind(side, levels, price);
      } else {
        PlaceFirst(side, levels, price);
        PlaceNone(side, levels[1..], price);
      }
    }
  }

  lemma {:induction false} PlaceFirst(side: Side, levels: seq<Level>, price: Price)
    requires levels != [] && !Better(side, levels[0].price, price)
    ensures Place(side, levels, price) == 0 && (HasPrice(side, levels, price) <==> levels[0].price == price)
  {
  }

  lemma {:induction false} PlaceNone(side: Side, levels: seq<Level>, price: Price)
    requires forall i :: 0 <= i < |levels| ==> levels[i].price != price
    ensures !HasPrice(side, levels, price)
  {
  }

  /** There are as many prices as levels. */
  lemma {:induction false} PricesCount(side: Side, levels: seq<Level>)
    requires Sorted(side, levels) && forall i :: 0 <= i < |levels| ==> levels[i].orders != []
    ensures |Prices(Flatten(levels))| == |levels|
  {
    if levels == [] {
      assert Prices([]) == {};
    } else {
      var front, rest := AtPrice(levels[0].price, levels[0].orders), Flatten(levels[1..]);
      SortedTail(side, levels);
      PricesCount(side, levels[1..]);
      assert front[0] in front + rest;
      assert Prices(front + rest) == {levels[0].price} + Prices(rest);
      if levels[0].price in Prices(rest) {
        var k :| 0 <= k < |rest| && rest[k].price == levels[0].price;
        var i := ListedPrice(levels[1..], k);
      }
    }
  }

  lemma {:induction false} RankBehind(side: Side, levels: seq<Level>, price: Price)
    requires Sorted(side, levels)
    ensures Behind(side, Flatten(levels), price, Rank(side, levels, price))
  {
    if levels != [] {
      var front, rest := AtPrice(levels[0].price, levels[0].orders), Flatten(levels[1..]);
      SortedTail(side, levels);
      RankBehind(side, levels[1..], price);
      var r := Rank(side, levels[1..], price);
      forall i | 0 <= i < |rest| ensures Better(side, levels[0].price, rest[i].price) {
        var k := ListedPrice(levels[1..], i);
      }
      hide Flatten, Rank;
      RankHere(side, levels, price);
      FlattenSplit(levels, levels[0], levels[1..]);
      assert levels == [levels[0]] + levels[1..];
    }
  }

  /** Adding an order queues it last at its price. */
  lemma {:induction false} AddQueues(side: Side, levels: seq<Level>, price: Price, order: Order)
    requires Sorted(side, levels)
    ensures Queued(side, Flatten(levels), Resting(price, order), Flatten(AddOrder(side, levels, price, order)))
  {
    hide Flatten, AddOrder, Rank, Behind;
    RankBehind(side, levels, price);
    FlattenAdd(side, levels, price, order);
    var m := Rank(side, levels, price);
    var list := Flatten(levels);
    assert Behind(side, list, price, m) && Flatten(AddOrder(side, levels, price, order)) == list[..m] + [Resting(price, order)] + list[m..];
  }

  // Walking the facing list.

  /** Orders trade one after another for as long as they are reached. */
  lemma {:induction false} TradesReach(taker: Side, limit: Price, list: seq<Resting>, quantity: Quantity, k: nat)
    requires Ranked(taker.Opposite(), list)
    ensures k < |Trades(taker, limit, list, quantity)| <==> Reached(taker, limit, quantity, list, k)
    decreases |list|
  {
    if quantity > 0 && list != [] {
      SameWords(taker, limit, list[0].price);
      if !Meets(taker, limit, list[0].price) {
        assert k < |list| && k > 0 ==> !Ahead(taker.Opposite(), list[k].price, list[0].price);
      } else if k == 0 {
        assert list[..0] == [];
      } else {
        RankedTail(taker.Opposite(), list);
        TradesReach(taker, limit, list[1..], quantity - Min(quantity, list[0].order.quantity), k - 1);
        if k < |list| {
          assert list[..k][0] == list[0] && list[..k][1..] == list[1..][..k - 1];
        }
      }
    }
  }

  function Lesser(a: nat, b: nat): nat {
    if a < b then a else b
  }

  /** What each of them trades. */
  lemma {:induction false} TradesAre(taker: Side, limit: Price, list: seq<Resting>, quantity: Quantity, k: nat)
    requires k < |Trades(taker, limit, list, quantity)|
    ensures k < |list| && Volume(list[..k]) <= quantity
    ensures var f := Trades(taker, limit, list, quantity)[k];
            && f.maker == list[k].order.id && f.price == list[k].price
            && f.quantity == Lesser(list[k].order.quantity, quantity - Volume(list[..k]))
    decreases |list|
  {
    if k == 0 {
      assert list[..0] == [];
    } else {
      TradesAre(taker, limit, list[1..], quantity - Min(quantity, list[0].order.quantity), k - 1);
      assert list[..k][0] == list[0] && list[..k][1..] == list[1..][..k - 1];
    }
  }

  lemma {:induction false} NothingMeets(taker: Side, limit: Price, list: seq<Resting>)
    requires NoneMeets(taker, limit, list)
    ensures MeetingVolume(taker, limit, list) == 0
  {
    if list != [] {
      assert list[0] in list;
      NothingMeets(taker, limit, list[1..]);
    }
  }

  lemma {:induction false} HeadDecides(taker: Side, limit: Price, list: seq<Resting>)
    requires Ranked(taker.Opposite(), list)
    ensures NoneMeets(taker, limit, list) <==> list == [] || !Meets(taker, limit, list[0].price)
  {
    if list != [] {
      assert list[0] in list;
      if !Meets(taker, limit, list[0].price) {
        forall r | r in list ensures !Meets(taker, limit, r.price) {
          var i :| 0 <= i < |list| && list[i] == r;
          assert i > 0 ==> !Ahead(taker.Opposite(), list[i].price, list[0].price);
        }
      }
    }
  }

  /** Together they trade all that is within the limit, or all that is wanted. */
  lemma {:induction false} TradedIs(taker: Side, limit: Price, list: seq<Resting>, quantity: Quantity)
    requires Ranked(taker.Opposite(), list)
    ensures Traded(Trades(taker, limit, list, quantity)) == Lesser(MeetingVolume(taker, limit, list), quantity)
    decreases |list|
  {
    if list != [] {
      SameWords(taker, limit, list[0].price);
      HeadDecides(taker, limit, list);
      if !Meets(taker, limit, list[0].price) {
        NothingMeets(taker, limit, list);
      } else if quantity > 0 {
        var traded := Min(quantity, list[0].order.quantity);
        RankedTail(taker.Opposite(), list);
        TradedIs(taker, limit, list[1..], quantity - traded);
        TradedAppend(Trades(taker, limit, list[1..], quantity - traded), Fill(list[0].order.id, list[0].price, traded));
      }
    }
  }

  /** What `n` trades of `quantity` leave of the list: the last maker may keep a remainder. */
  function Leftover(list: seq<Resting>, n: nat, quantity: Quantity): seq<Resting>
    requires n <= |list|
  {
    if n == 0 || Volume(list[..n]) <= quantity then list[n..]
    else
      var last := list[n - 1];
      var left := Volume(list[..n]) - quantity;
      if left > last.order.quantity then list[n..]
      else [Resting(last.price, last.order.(quantity := left))] + list[n..]
  }

  /** What a walk leaves of the list. */
  function Walked(taker: Side, limit: Price, list: seq<Resting>, quantity: Quantity): seq<Resting> {
    if quantity == 0 || list == [] || !Crosses(taker, limit, list[0].price) then list
    else if quantity < list[0].order.quantity then
      [Resting(list[0].price, list[0].order.(quantity := list[0].order.quantity - quantity))] + list[1..]
    else Walked(taker, limit, list[1..], quantity - list[0].order.quantity)
  }

  /** Matching leaves of the book what the walk leaves of its list. */
  lemma {:induction false} MatchLeaves(taker: Side, limit: Price, makers: seq<Level>, quantity: Quantity)
    requires Stocked(makers)
    ensures Flatten(Match(taker, limit, makers, quantity).makers) == Walked(taker, limit, Flatten(makers), quantity)
    decreases quantity
  {
    hide FillHead, Flatten;
    if quantity == 0 || makers == [] {
      NothingListed(makers);
    } else {
      assert StockedLevel(makers[0]);
      FlattenAt(makers, 0, 0);
      if Crosses(taker, limit, makers[0].price) {
        var head := makers[0].orders[0];
        var traded := Min(quantity, head.quantity);
        FillHeadStocked(makers, traded);
        MatchLeaves(taker, limit, FillHead(makers, traded), quantity - traded);
        if traded == head.quantity {
          FillHeadPops(makers);
        } else {
          HeadReduced(makers, traded);
        }
      }
    }
  }

  lemma {:induction false} HeadReduced(makers: seq<Level>, traded: Quantity)
    requires InLevels(makers, 0, 0) && traded < makers[0].orders[0].quantity
    ensures var head := makers[0].orders[0];
            Flatten(FillHead(makers, traded)) == [Resting(makers[0].price, head.(quantity := head.quantity - traded))] + Flatten(makers)[1..]
  {
    hide Flatten;
    FlattenAt(makers, 0, 0);
    FlattenSet(makers, 0, 0, makers[0].orders[0].(quantity := makers[0].orders[0].quantity - traded));
  }

  lemma {:induction false} LeftoverStep(list: seq<Resting>, n: nat, quantity: Quantity)
    requires 0 < n <= |list| && list[0].order.quantity <= quantity
    ensures Leftover(list, n, quantity) == Leftover(list[1..], n - 1, quantity - list[0].order.quantity)
  {
    var tail := list[1..];
    assert list[..n][0] == list[0] && list[..n][1..] == tail[..n - 1];
    assert list[n..] == tail[n - 1..];
    assert tail[..0] == [];
  }

  lemma {:induction false} LeftoverHead(list: seq<Resting>, quantity: Quantity)
    requires list != [] && quantity < list[0].order.quantity
    ensures Leftover(list, 1, quantity) ==
            [Resting(list[0].price, list[0].order.(quantity := list[0].order.quantity - quantity))] + list[1..]
  {
    VolumeOne(list[0]);
    assert list[..1] == [list[0]];
  }

  lemma {:induction false} WalkedIs(taker: Side, limit: Price, list: seq<Resting>, quantity: Quantity)
    requires Positive(list)
    ensures var n := |Trades(taker, limit, list, quantity)|;
            n <= |list| && Walked(taker, limit, list, quantity) == Leftover(list, n, quantity)
    decreases |list|
  {
    hide Leftover, Volume, Positive;
    if quantity > 0 && list != [] && Crosses(taker, limit, list[0].price) {
      TradesFirst(taker, limit, list, quantity);
      PositiveTail(list);
      if quantity < list[0].order.quantity {
        LeftoverHead(list, quantity);
      } else {
        WalkedIs(taker, limit, list[1..], quantity - list[0].order.quantity);
        LeftoverStep(list, |Trades(taker, limit, list, quantity)|, quantity);
      }
    } else {
      LeftoverNone(list, quantity);
    }
  }

  lemma {:induction false} LeftoverNone(list: seq<Resting>, quantity: Quantity)
    ensures Leftover(list, 0, quantity) == list
  {
  }

  lemma {:induction false} VolumeOne(r: Resting)
    ensures Volume([r]) == r.order.quantity
  {
    assert [r][1..] == [];
  }

  // New orders.

  ghost function AdmissionClauses(b: Book, instrument: InstrumentId, order: NewOrder): seq<Clause<RejectReason>> {
    [Clause(order.instrument == instrument, InvalidInstrument),
     Clause(order.price > 0, InvalidPrice),
     Clause(order.quantity > 0, InvalidQuantity),
     Clause(!Lists(Own(b, order.side), order.orderId) && !Lists(Facing(b, order.side), order.orderId), DuplicateOrderId),
     Clause(order.tif == PostOnly ==> NoneMeets(order.side, order.price, Facing(b, order.side)), PostOnlyWouldTrade)]
  }

  /** Room for one more order at `price`, where it is needed at all. */
  ghost function RoomClauses(list: seq<Resting>, price: Price, shape: Shape, needed: bool): seq<Clause<RejectReason>> {
    [Clause(needed && CountAt(list, price) > 0 ==> CountAt(list, price) < shape.orders, PriceLevelOrderCapacity),
     Clause(needed && CountAt(list, price) == 0 ==> |Prices(list)| < shape.levels, PriceLevelCapacity)]
  }

  ghost function ExecutionClauses(b: Book, shape: Shape, order: NewOrder, room: nat): seq<Clause<RejectReason>> {
    var volume := MeetingVolume(order.side, order.price, Facing(b, order.side));
    [Clause(!Reached(order.side, order.price, order.quantity, Facing(b, order.side), room), ReportCapacity),
     Clause(order.tif == Fok ==> volume >= order.quantity, InsufficientLiquidity)]
    + RoomClauses(Own(b, order.side), order.price, shape, (order.tif == Gtc || order.tif == PostOnly) && volume < order.quantity)
  }

  /** All that the book asks of a new order. */
  ghost function SubmitClauses(b: Book, shape: Shape, instrument: InstrumentId, order: NewOrder, room: nat): seq<Clause<RejectReason>> {
    AdmissionClauses(b, instrument, order) + ExecutionClauses(b, shape, order, room)
  }

  lemma {:induction false} ContainsIs(b: Book, side: Side, id: OrderId)
    ensures Contains(b, id) <==> Lists(Own(b, side), id) || Lists(Facing(b, side), id)
  {
    ContainsIffHasId(b, id);
    hide Contains, Flatten;
  }

  lemma {:induction false} BestMeets(b: Book, shape: Shape, side: Side, price: Price)
    requires Shaped(b, shape)
    ensures var makers := b.At(side.Opposite());
            NoneMeets(side, price, Facing(b, side)) <==> makers == [] || !Crosses(side, price, makers[0].price)
  {
    var makers := b.At(side.Opposite());
    FlattenRanked(side.Opposite(), makers);
    HeadDecides(side, price, Flatten(makers));
    if makers != [] {
      assert StockedLevel(makers[0]);
      FlattenAt(makers, 0, 0);
    } else {
      NothingListed(makers);
    }
    hide Flatten;
  }

  lemma {:induction false} AdmissionIs(b: Book, shape: Shape, instrument: InstrumentId, order: NewOrder)
    requires Shaped(b, shape)
    ensures Verdict(AdmissionClauses(b, instrument, order)) == Validate(b, instrument, order)
  {
    hide Shaped, Contains, Lists, NoneMeets, Own, Facing, Crosses, Verdict;
    ContainsIs(b, order.side, order.orderId);
    BestMeets(b, shape, order.side, order.price);
    var clauses := AdmissionClauses(b, instrument, order);
    FiveClauses(clauses[0], clauses[1], clauses[2], clauses[3], clauses[4]);
  }

  lemma {:induction false} RoomIs(side: Side, levels: seq<Level>, price: Price, shape: Shape, needed: bool)
    requires Fits(side, levels, shape)
    ensures Verdict(RoomClauses(Flatten(levels), price, shape, needed)) ==
            if needed then RestRejection(side, levels, price, shape) else None
  {
    CountIs(side, levels, price);
    PricesCount(side, levels);
    hide Flatten, CountAt, Prices, HasPrice, Place, Verdict;
    var clauses := RoomClauses(Flatten(levels), price, shape, needed);
    TwoClauses(clauses[0], clauses[1]);
  }

  /** The refusals left once an order is admitted, from what matching would do. */
  lemma {:induction false} AdmittedRefusal(b: Book, shape: Shape, instrument: InstrumentId, order: NewOrder, room: nat)
    requires StockedBook(b) && Validate(b, instrument, order).None?
    ensures var m := Match(order.side, order.price, b.At(order.side.Opposite()), order.quantity);
            var rested := if (order.tif == Gtc || order.tif == PostOnly) && m.remaining > 0
                          then RestRejection(order.side, b.At(order.side), order.price, shape) else None;
            match SubmitOrder(b, shape, instrument, order, room)
            case Err(e) => if |m.fills| > room then e == ReportCapacity
                           else if order.tif == Fok && m.remaining > 0 then e == InsufficientLiquidity
                           else rested == Some(e)
            case Ok(_) => |m.fills| <= room && !(order.tif == Fok && m.remaining > 0) && rested.None?
  {
    hide Match, Validate, RestRejection, AddOrder, Stocked;
  }

  lemma {:induction false} ExecutionIs(b: Book, shape: Shape, instrument: InstrumentId, order: NewOrder, room: nat)
    requires Shaped(b, shape) && Validate(b, instrument, order).None?
    ensures Verdict(ExecutionClauses(b, shape, order, room)) ==
            match SubmitOrder(b, shape, instrument, order, room)
            case Err(e) => Some(e)
            case Ok(_) => None
  {
    hide Flatten, Match, Validate, RestRejection, SubmitOrder, Fits, Stocked, Verdict, RoomClauses, Reached, MeetingVolume;
    var makers, own := b.At(order.side.Opposite()), b.At(order.side);
    ShapedSides(b, shape, order.side);
    AdmittedRefusal(b, shape, instrument, order, room);
    Walks(order.side, order.price, makers, order.quantity, room);
    var volume := MeetingVolume(order.side, order.price, Flatten(makers));
    var needed := (order.tif == Gtc || order.tif == PostOnly) && volume < order.quantity;
    RoomIs(order.side, own, order.price, shape, needed);
    var reports := Clause(!Reached(order.side, order.price, order.quantity, Flatten(makers), room), ReportCapacity);
    var liquidity := Clause(order.tif == Fok ==> volume >= order.quantity, InsufficientLiquidity);
    assert ExecutionClauses(b, shape, order, room) == [reports, liquidity] + RoomClauses(Flatten(own), order.price, shape, needed);
    TwoClauses(reports, liquidity);
    VerdictThen([reports, liquidity], RoomClauses(Flatten(own), order.price, shape, needed));
  }

  lemma {:induction false} ShapedSides(b: Book, shape: Shape, side: Side)
    requires Shaped(b, shape)
    ensures Fits(side, b.At(side), shape) && Fits(side.Opposite(), b.At(side.Opposite()), shape)
    ensures StockedBook(b) && Stocked(b.At(side)) && Stocked(b.At(side.Opposite()))
    ensures Sorted(side, b.At(side)) && Sorted(side.Opposite(), b.At(side.Opposite()))
    ensures Own(b, side) == Flatten(b.At(side)) && Facing(b, side) == Flatten(b.At(side.Opposite()))
  {
    hide Flatten, Sorted, Stocked;
  }

  /** Matching, in terms of the list alone. */
  lemma {:induction false} Walks(taker: Side, limit: Price, makers: seq<Level>, quantity: Quantity, room: nat)
    requires Stocked(makers) && Sorted(taker.Opposite(), makers)
    ensures var m := Match(taker, limit, makers, quantity);
            && m.remaining == quantity - Lesser(MeetingVolume(taker, limit, Flatten(makers)), quantity)
            && (|m.fills| <= room <==> !Reached(taker, limit, quantity, Flatten(makers), room))
  {
    hide Flatten, Match, Reached, Stocked;
    MatchIsWalk(taker, limit, makers, quantity);
    FlattenRanked(taker.Opposite(), makers);
    TradedIs(taker, limit, Flatten(makers), quantity);
    TradesReach(taker, limit, Flatten(makers), quantity, room);
  }

  /** The book accepts an order if and only if every clause holds, and otherwise gives the
      refusal of the first that fails. */
  lemma {:induction false} SubmitDecided(b: Book, shape: Shape, instrument: InstrumentId, order: NewOrder, room: nat)
    requires Shaped(b, shape)
    ensures StockedBook(b)
    ensures SubmitOrder(b, shape, instrument, order, room).Ok? <==> AllHold(SubmitClauses(b, shape, instrument, order, room))
    ensures SubmitOrder(b, shape, instrument, order, room).Err? ==>
              Verdict(SubmitClauses(b, shape, instrument, order, room)) == Some(SubmitOrder(b, shape, instrument, order, room).error)
  {
    hide AdmissionClauses, ExecutionClauses, Verdict, AllHold, Match, RestRejection, Fits;
    ShapedSides(b, shape, Buy);
    hide StockedBook;
    AdmissionIs(b, shape, instrument, order);
    RefusedAdmission(b, shape, instrument, order, room);
    if Validate(b, instrument, order).None? {
      ExecutionIs(b, shape, instrument, order, room);
    }
    VerdictThen(AdmissionClauses(b, instrument, order), ExecutionClauses(b, shape, order, room));
    VerdictIff(SubmitClauses(b, shape, instrument, order, room));
    hide Validate, SubmitOrder;
  }

  lemma {:induction false} RefusedAdmission(b: Book, shape: Shape, instrument: InstrumentId, order: NewOrder, room: nat)
    requires StockedBook(b)
    ensures Validate(b, instrument, order).Some? ==>
              SubmitOrder(b, shape, instrument, order, room) == Err(Validate(b, instrument, order).value)
  {
    hide Validate, Match, RestRejection, AddOrder, Stocked;
  }

  /** Exactly the reached orders trade, in priority order, each all it can. */
  ghost predicate TradedInTurn(taker: Side, limit: Price, quantity: Quantity, list: seq<Resting>, fills: seq<Fill>) {
    && |fills| <= |list|
    && (forall k: nat :: k < |fills| <==> Reached(taker, limit, quantity, list, k))
    && (forall k :: 0 <= k < |fills| ==>
          && fills[k].maker == list[k].order.id && fills[k].price == list[k].price
          && Volume(list[..k]) <= quantity
          && fills[k].quantity == Lesser(list[k].order.quantity, quantity - Volume(list[..k])))
  }

  /** The summary accounts for the whole quantity. */
  predicate AddsUp(order: NewOrder, volume: nat, trades: nat, s: MatchSummary) {
    && s.filled == Lesser(volume, order.quantity)
    && s.resting == (if order.tif == Gtc || order.tif == PostOnly then order.quantity - s.filled else 0)
    && s.discarded == order.quantity - s.filled - s.resting && s.reportCount == trades
    && (s.state == OrderState.Filled <==> s.filled == order.quantity)
    && (s.state == OrderState.Accepted <==> s.filled == 0)
  }

  /** What rests queues last at its price. */
  ghost predicate RestsLast(order: NewOrder, own: seq<Resting>, resting: Quantity, after: seq<Resting>) {
    if resting == 0 then after == own
    else Queued(order.side, own, Resting(order.price, Order(order.orderId, order.accountId, resting, order.sequence)), after)
  }

  /** What an accepted order does, told over the two lists. */
  ghost predicate Executed(b: Book, order: NewOrder, done: Submitted) {
    var facing := Facing(b, order.side);
    && TradedInTurn(order.side, order.price, order.quantity, facing, done.fills)
    && Facing(done.book, order.side) == Leftover(facing, |done.fills|, order.quantity)
    && AddsUp(order, MeetingVolume(order.side, order.price, facing), |done.fills|, done.summary)
    && RestsLast(order, Own(b, order.side), done.summary.resting, Own(done.book, order.side))
  }

  /** The fills of a match, one by one. */
  lemma {:induction false} FillsAre(taker: Side, limit: Price, makers: seq<Level>, quantity: Quantity)
    requires Stocked(makers) && Sorted(taker.Opposite(), makers)
    ensures TradedInTurn(taker, limit, quantity, Flatten(makers), Match(taker, limit, makers, quantity).fills)
  {
    hide Match, Flatten, Stocked, Volume, Trades, Reached;
    MatchIsWalk(taker, limit, makers, quantity);
    FlattenRanked(taker.Opposite(), makers);
    var list := Flatten(makers);
    var fills := Trades(taker, limit, list, quantity);
    forall k: nat ensures k < |fills| <==> Reached(taker, limit, quantity, list, k) {
      TradesReach(taker, limit, list, quantity, k);
    }
    forall k | 0 <= k < |fills|
      ensures k < |list| && Volume(list[..k]) <= quantity
      ensures fills[k].maker == list[k].order.id && fills[k].price == list[k].price
      ensures fills[k].quantity == Lesser(list[k].order.quantity, quantity - Volume(list[..k]))
    {
      TradesAre(taker, limit, list, quantity, k);
    }
    if |fills| > 0 {
      TradesAre(taker, limit, list, quantity, |fills| - 1);
    }
  }

  lemma {:induction false} MakersLeft(taker: Side, limit: Price, makers: seq<Level>, quantity: Quantity)
    requires Stocked(makers)
    ensures var m := Match(taker, limit, makers, quantity);
            |m.fills| <= |Flatten(makers)| && Flatten(m.makers) == Leftover(Flatten(makers), |m.fills|, quantity)
  {
    hide Match, Flatten, Stocked, Leftover, Trades, Positive;
    StockedPositive(makers);
    MatchIsWalk(taker, limit, makers, quantity);
    MatchLeaves(taker, limit, makers, quantity);
    WalkedIs(taker, limit, Flatten(makers), quantity);
  }

  lemma {:induction false} SubmitExecutes(b: Book, shape: Shape, instrument: InstrumentId, order: NewOrder, room: nat)
    requires Shaped(b, shape)
    ensures StockedBook(b)
    ensures SubmitOrder(b, shape, instrument, order, room).Ok? ==>
              Executed(b, order, SubmitOrder(b, shape, instrument, order, room).value)
  {
    ShapedSides(b, shape, order.side);
    if SubmitOrder(b, shape, instrument, order, room).Ok? {
      hide SubmitOrder, Match, Flatten, Fits, Stocked, Sorted, Leftover, MeetingVolume, TradedInTurn, AddsUp, RestsLast, Validate, RestRejection, AddOrder;
      var makers := b.At(order.side.Opposite());
      L.AcceptedShape(b, shape, instrument, order, room);
      FillsAre(order.side, order.price, makers, order.quantity);
      MakersLeft(order.side, order.price, makers, order.quantity);
      SummaryIs(b, shape, instrument, order, room);
      BookAfter(b, shape, instrument, order, room);
    }
  }

  lemma {:induction false} SummaryIs(b: Book, shape: Shape, instrument: InstrumentId, order: NewOrder, room: nat)
    requires Shaped(b, shape) && StockedBook(b) && SubmitOrder(b, shape, instrument, order, room).Ok?
    ensures var done := SubmitOrder(b, shape, instrument, order, room).value;
            AddsUp(order, MeetingVolume(order.side, order.price, Facing(b, order.side)), |done.fills|, done.summary)
  {
    ShapedSides(b, shape, order.side);
    hide SubmitOrder, Match, Flatten, Fits, Stocked, Sorted, MeetingVolume, Validate, RestRejection, AddOrder, Reached, L.AfterMatch, L.AfterRest, Shaped, AddsUp, Lesser;
    L.AcceptedShape(b, shape, instrument, order, room);
    AcceptedState(b, shape, instrument, order, room);
    Walks(order.side, order.price, b.At(order.side.Opposite()), order.quantity, 0);
    var done := SubmitOrder(b, shape, instrument, order, room).value;
    var m := Match(order.side, order.price, b.At(order.side.Opposite()), order.quantity);
    AddsUpFrom(order, MeetingVolume(order.side, order.price, Facing(b, order.side)), |m.fills|, m.remaining, done.summary);
  }

  lemma {:induction false} AddsUpFrom(order: NewOrder, volume: nat, trades: nat, remaining: Quantity, s: MatchSummary)
    requires remaining == order.quantity - Lesser(volume, order.quantity)
    requires s.filled == order.quantity - remaining && s.reportCount == trades
    requires s.resting == (if remaining > 0 && Rests(order.tif) then remaining else 0) && s.discarded == remaining - s.resting
    requires (s.state == OrderState.Filled <==> s.filled == order.quantity) && (s.state == OrderState.Accepted <==> s.filled == 0)
    ensures AddsUp(order, volume, trades, s)
  {
  }

  lemma {:induction false} BookAfter(b: Book, shape: Shape, instrument: InstrumentId, order: NewOrder, room: nat)
    requires Shaped(b, shape) && StockedBook(b) && SubmitOrder(b, shape, instrument, order, room).Ok?
    ensures var done := SubmitOrder(b, shape, instrument, order, room).value;
            && Facing(done.book, order.side) == Flatten(Match(order.side, order.price, b.At(order.side.Opposite()), order.quantity).makers)
            && RestsLast(order, Own(b, order.side), done.summary.resting, Own(done.book, order.side))
  {
    ShapedSides(b, shape, order.side);
    hide SubmitOrder, Match, Flatten, Fits, Stocked, Sorted, Validate, RestRejection, AddOrder, Queued;
    L.AcceptedShape(b, shape, instrument, order, room);
    var own, rest := b.At(order.side), Match(order.side, order.price, b.At(order.side.Opposite()), order.quantity).remaining;
    AddQueues(order.side, own, order.price, Order(order.orderId, order.accountId, rest, order.sequence));
    SidesAfter(SubmitOrder(b, shape, instrument, order, room).value.book, order.side);
  }

  lemma {:induction false} SidesAfter(b: Book, side: Side)
    ensures Own(b, side) == Flatten(b.At(side)) && Facing(b, side) == Flatten(b.At(side.Opposite()))
  {
    hide Flatten;
  }

  lemma {:induction false} AcceptedState(b: Book, shape: Shape, instrument: InstrumentId, order: NewOrder, room: nat)
    requires StockedBook(b) && SubmitOrder(b, shape, instrument, order, room).Ok?
    ensures var s := SubmitOrder(b, shape, instrument, order, room).value.summary;
            && order.quantity > 0
            && (s.state == OrderState.Filled <==> s.filled == order.quantity)
            && (s.state == OrderState.Accepted <==> s.filled == 0)
  {
    MatchRemaining(order.side, order.price, b.At(order.side.Opposite()), order.quantity);
    hide Contains, Match, RestRejection, AddOrder, Stocked;
  }

  /** A post-only order never trades: it is accepted only where nothing meets its price. */
  lemma {:induction false} PostOnlyRests(b: Book, shape: Shape, instrument: InstrumentId, order: NewOrder, room: nat)
    requires Shaped(b, shape) && order.tif == PostOnly
    ensures StockedBook(b)
    ensures SubmitOrder(b, shape, instrument, order, room).Ok? ==>
              && NoneMeets(order.side, order.price, Facing(b, order.side))
              && SubmitOrder(b, shape, instrument, order, room).value.fills == []
  {
    hide SubmitOrder, Fits, Stocked, ExecutionClauses, Volume, AddsUp, RestsLast, Leftover, NoneMeets, MeetingVolume;
    SubmitDecided(b, shape, instrument, order, room);
    SubmitExecutes(b, shape, instrument, order, room);
    if SubmitOrder(b, shape, instrument, order, room).Ok? {
      assert SubmitClauses(b, shape, instrument, order, room)[4].holds;
      NobodyReached(order.side, order.price, order.quantity, Facing(b, order.side));
    }
  }

  lemma {:induction false} NobodyReached(taker: Side, limit: Price, quantity: Quantity, list: seq<Resting>)
    requires NoneMeets(taker, limit, list)
    ensures !Reached(taker, limit, quantity, list, 0)
  {
    if list != [] {
      assert list[0] in list;
    }
  }

  /** Each report tells one fill: who made, who took, and the order's own identity. */
  lemma {:induction false} ReportsTell(order: NewOrder, fills: seq<Fill>, k: nat)
    requires k < |fills|
    ensures |ReportsOf(order, fills)| == |fills|
    ensures var r := ReportsOf(order, fills)[k];
            && r.makerOrderId == fills[k].maker && r.takerOrderId == order.orderId && r.instrument == order.instrument
            && r.price == fills[k].price && r.quantity == fills[k].quantity && r.sequence == order.sequence
  {
  }

  // Cancels and replaces.

  /** Order `id` is the `k`-th of its side. */
  ghost predicate RestsAt(b: Book, side: Side, k: nat, id: OrderId) {
    k < |Own(b, side)| && Own(b, side)[k].order.id == id
  }

  ghost predicate Known(b: Book, id: OrderId) {
    exists side, k: nat :: RestsAt(b, side, k, id)
  }

  ghost function PlaceHeld(b: Book, id: OrderId): (at: (Side, nat))
    requires Known(b, id)
    ensures RestsAt(b, at.0, at.1, id)
  {
    var side, k: nat :| RestsAt(b, side, k, id);
    (side, k)
  }

  function Dropped(list: seq<Resting>, k: nat): seq<Resting>
    requires k < |list|
  {
    list[..k] + list[k + 1..]
  }

  ghost function IdentityClauses(b: Book, instrument: InstrumentId, named: InstrumentId, id: OrderId, account: AccountId): seq<Clause<RejectReason>> {
    [Clause(named == instrument, InvalidInstrument),
     Clause(Known(b, id), UnknownOrder),
     Clause(Known(b, id) ==> Own(b, PlaceHeld(b, id).0)[PlaceHeld(b, id).1].order.account == account, NotOrderOwner)]
  }

  /** All that the book asks of a repriced order, once identity and values are right. An
      order that keeps its price and shrinks keeps its place; any other must not meet the
      other side at a new price, and must find room without itself. */
  ghost function MoveClauses(b: Book, shape: Shape, replace: ReplaceOrder, side: Side, k: nat): seq<Clause<RejectReason>>
    requires k < |Own(b, side)|
  {
    var was := Own(b, side)[k];
    [Clause(replace.price == was.price || NoneMeets(side, replace.price, Facing(b, side)), ReplaceWouldCross)]
    + RoomClauses(Dropped(Own(b, side), k), replace.price, shape, replace.price != was.price || replace.quantity >= was.order.quantity)
  }

  ghost function ValueClauses(replace: ReplaceOrder): seq<Clause<RejectReason>> {
    [Clause(replace.price > 0, InvalidPrice), Clause(replace.quantity > 0, InvalidQuantity)]
  }

  ghost function ReplaceClauses(b: Book, shape: Shape, instrument: InstrumentId, replace: ReplaceOrder): seq<Clause<RejectReason>> {
    IdentityClauses(b, instrument, replace.instrument, replace.orderId, replace.accountId) + ValueClauses(replace)
    + if Known(b, replace.orderId) then MoveClauses(b, shape, replace, PlaceHeld(b, replace.orderId).0, PlaceHeld(b, replace.orderId).1) else []
  }

  /** What locating an id finds, on the lists. */
  lemma {:induction false} LocateOnList(b: Book, id: OrderId)
    requires Locate(b, id).Some?
    ensures var p := Locate(b, id).value;
            && InLevels(b.At(p.side), p.level, p.place)
            && var k := Offset(b.At(p.side), p.level) + p.place;
            && RestsAt(b, p.side, k, id) && Own(b, p.side)[k] == Resting(b.At(p.side)[p.level].price, OrderOf(b, p))
  {
    L.LocatedIn(b, id);
    hide Locate, Flatten;
    var p := Locate(b, id).value;
    FlattenAt(b.At(p.side), p.level, p.place);
  }

  /** Locating finds the one place where the id rests. */
  lemma {:induction false} HeldIs(b: Book, id: OrderId)
    requires UniqueIds(b)
    ensures Known(b, id) <==> Locate(b, id).Some?
    ensures Known(b, id) ==>
              var p := Locate(b, id).value;
              && InLevels(b.At(p.side), p.level, p.place)
              && PlaceHeld(b, id) == (p.side, Offset(b.At(p.side), p.level) + p.place)
  {
    hide Locate, Flatten;
    if Locate(b, id).Some? {
      LocateOnList(b, id);
    }
    if Known(b, id) {
      var (side, k) := PlaceHeld(b, id);
      var i, j := FlattenIndex(b.At(side), k);
      FlattenAt(b.At(side), i, j);
      assert InLevels(b.At(side), i, j);
    }
  }

  lemma {:induction false} IdentityIs(b: Book, instrument: InstrumentId, named: InstrumentId, id: OrderId, account: AccountId)
    requires UniqueIds(b)
    ensures Known(b, id) <==> Locate(b, id).Some?
    ensures Verdict(IdentityClauses(b, instrument, named, id, account)) ==
            if named != instrument then Some(InvalidInstrument)
            else match Locate(b, id)
              case None => Some(UnknownOrder)
              case Some(p) => if !InLevels(b.At(p.side), p.level, p.place) || OrderOf(b, p).account != account then Some(NotOrderOwner) else None
  {
    hide Locate, UniqueIds, Verdict, Known, PlaceHeld, Own;
    HeldIs(b, id);
    if Locate(b, id).Some? {
      LocateOnList(b, id);
    }
    var clauses := IdentityClauses(b, instrument, named, id, account);
    ThreeClauses(clauses[0], clauses[1], clauses[2]);
  }

  ghost function CancelClauses(b: Book, instrument: InstrumentId, cancel: CancelOrder): seq<Clause<RejectReason>> {
    IdentityClauses(b, instrument, cancel.instrument, cancel.orderId, cancel.accountId)
  }

  /** A cancel leaves a side without one order and the other side alone, and answers with
      what rested. */
  ghost predicate Withdrawn(b: Book, cancel: CancelOrder, c: Book, answer: CancelledOrder) {
    && Known(b, cancel.orderId)
    && var (side, k) := PlaceHeld(b, cancel.orderId);
    && Own(c, side) == Dropped(Own(b, side), k) && Facing(c, side) == Facing(b, side)
    && answer.orderId == cancel.orderId && answer.accountId == cancel.accountId && answer.quantity == Own(b, side)[k].order.quantity
  }

  /** A cancel is accepted if and only if it names the instrument and an order that rests
      and is the account's. */
  lemma {:induction false} CancelDecided(b: Book, instrument: InstrumentId, cancel: CancelOrder)
    requires UniqueIds(b)
    ensures match CancelResting(b, instrument, cancel)
            case Err(e) => Verdict(CancelClauses(b, instrument, cancel)) == Some(e)
            case Ok(done) => AllHold(CancelClauses(b, instrument, cancel)) && Withdrawn(b, cancel, done.0, done.1)
  {
    hide Locate, UniqueIds, Verdict, IdentityClauses, RemoveOrder, Flatten, Known, PlaceHeld;
    IdentityIs(b, instrument, cancel.instrument, cancel.orderId, cancel.accountId);
    VerdictIff(CancelClauses(b, instrument, cancel));
    HeldIs(b, cancel.orderId);
    if CancelResting(b, instrument, cancel).Ok? {
      LocateOnList(b, cancel.orderId);
      var p := Locate(b, cancel.orderId).value;
      FlattenRemove(b.At(p.side), p.level, p.place);
    }
  }

  // Replaces.

  lemma {:induction false} RemovedFits(side: Side, levels: seq<Level>, i: nat, j: nat, shape: Shape)
    requires Fits(side, levels, shape) && InLevels(levels, i, j)
    ensures Fits(side, RemoveOrder(levels, i, j), shape)
  {
    RemoveSortedLevels(side, levels, i, j);
  }

  /** Where another level's price stands once an order has left. */
  lemma {:induction false} OtherLevel(side: Side, levels: seq<Level>, i: nat, j: nat, d: nat)
    requires Sorted(side, levels) && InLevels(levels, i, j) && d < |levels| && d != i
    ensures var r := RemoveOrder(levels, i, j);
            && HasPrice(side, r, levels[d].price) && r[Place(side, r, levels[d].price)] == levels[d]
  {
    hide HasPrice, Place;
    var r := RemoveOrder(levels, i, j);
    RemoveSortedLevels(side, levels, i, j);
    var e := if |levels[i].orders| == 1 && d > i then d - 1 else d;
    assert r[e] == levels[d];
    PlaceOf(side, r, e);
  }

  lemma {:induction false} NewPrice(side: Side, levels: seq<Level>, i: nat, j: nat, price: Price)
    requires Sorted(side, levels) && InLevels(levels, i, j) && !HasPrice(side, levels, price)
    ensures var r := RemoveOrder(levels, i, j);
            && !HasPrice(side, r, price) && |r| == if |levels[i].orders| == 1 then |levels| - 1 else |levels|
  {
    hide Place;
    var r := RemoveOrder(levels, i, j);
    RemoveSortedLevels(side, levels, i, j);
    if HasPrice(side, r, price) {
      var d := Place(side, r, price);
      PlaceOf(side, levels, if |levels[i].orders| == 1 && d >= i then d + 1 else d);
    }
  }

  /** The checks of a move against the unchanged side are those of resting on the side
      without the order. */
  lemma {:induction false} DestinationIs(side: Side, levels: seq<Level>, i: nat, j: nat, price: Price, shape: Shape)
    requires Fits(side, levels, shape) && InLevels(levels, i, j)
    ensures DestinationRejection(levels, side, i, price, shape) == RestRejection(side, RemoveOrder(levels, i, j), price, shape)
  {
    hide HasPrice, Place, RemoveOrder, Sorted;
    PriceThere(side, levels, price);
    if HasPrice(side, levels, price) {
      var d := Place(side, levels, price);
      if d == i {
        OwnLevel(side, levels, i, j, price);
      } else {
        OtherLevel(side, levels, i, j, d);
      }
    } else {
      NewPrice(side, levels, i, j, price);
    }
  }

  lemma {:induction false} PriceThere(side: Side, levels: seq<Level>, price: Price)
    ensures HasPrice(side, levels, price) ==> Place(side, levels, price) < |levels| && levels[Place(side, levels, price)].price == price
  {
    hide Place;
  }

  lemma {:induction false} OwnLevel(side: Side, levels: seq<Level>, i: nat, j: nat, price: Price)
    requires Sorted(side, levels) && InLevels(levels, i, j) && levels[i].price == price
    ensures var r := RemoveOrder(levels, i, j);
            && (|levels[i].orders| == 1 ==> !HasPrice(side, r, price) && |r| < |levels|)
            && (|levels[i].orders| != 1 ==> HasPrice(side, r, price) && Place(side, r, price) == i && |r[i].orders| < |levels[i].orders|)
  {
    var r := RemoveOrder(levels, i, j);
    RemoveSortedLevels(side, levels, i, j);
    if |levels[i].orders| != 1 {
      PlaceOf(side, r, i);
    } else {
      PlaceNone(side, r, price);
    }
  }

  lemma {:induction false} MoveIs(b: Book, shape: Shape, replace: ReplaceOrder, p: Position)
    requires Shaped(b, shape) && InLevels(b.At(p.side), p.level, p.place)
    ensures var levels := b.At(p.side);
            var k := Offset(levels, p.level) + p.place;
            && k < |Own(b, p.side)|
            && Verdict(MoveClauses(b, shape, replace, p.side, k)) ==
               if replace.price == levels[p.level].price && replace.quantity < OrderOf(b, p).quantity then None
               else MoveRejection(b, p, replace.price, shape)
  {
    hide Flatten, RemoveOrder, Fits, StockedBook, DestinationRejection, RestRejection, RoomClauses, Verdict, Crosses;
    var levels := b.At(p.side);
    var k := Offset(levels, p.level) + p.place;
    ShapedSides(b, shape, p.side);
    FlattenAt(levels, p.level, p.place);
    FlattenRemove(levels, p.level, p.place);
    BestMeets(b, shape, p.side, replace.price);
    RemovedFits(p.side, levels, p.level, p.place, shape);
    DestinationIs(p.side, levels, p.level, p.place, replace.price, shape);
    var was := Own(b, p.side)[k];
    var needed := replace.price != was.price || replace.quantity >= was.order.quantity;
    RoomIs(p.side, RemoveOrder(levels, p.level, p.place), replace.price, shape, needed);
    var crossing := Clause(replace.price == was.price || NoneMeets(p.side, replace.price, Facing(b, p.side)), ReplaceWouldCross);
    OneClause(crossing);
    assert Without(Flatten(levels), k) == Dropped(Flatten(levels), k);
    VerdictThen([crossing], RoomClauses(Dropped(Own(b, p.side), k), replace.price, shape, needed));
  }

  /** What an accepted replace does: a reduction at the same price stays in place, anything
      else leaves its place and queues last at its price; the other side is untouched. */
  ghost predicate Repriced(b: Book, replace: ReplaceOrder, c: Book, answer: ReplacedOrder) {
    && Known(b, replace.orderId)
    && var (side, k) := PlaceHeld(b, replace.orderId);
    var list := Own(b, side);
    var was := list[k];
    var kept := replace.price == was.price && replace.quantity < was.order.quantity;
    && Facing(c, side) == Facing(b, side)
    && (if kept then Own(c, side) == list[k := Resting(was.price, was.order.(quantity := replace.quantity))]
        else Queued(side, Dropped(list, k), Resting(replace.price, Order(replace.orderId, replace.accountId, replace.quantity, replace.sequence)),
                    Own(c, side)))
    && answer.orderId == replace.orderId && answer.accountId == replace.accountId
    && answer.oldQuantity == was.order.quantity && answer.newQuantity == replace.quantity && answer.price == replace.price
    && (answer.priorityLost <==> !kept)
  }

  /** A replace is accepted if and only if every clause holds, and otherwise gives the
      refusal of the first that fails. */
  lemma {:induction false} ReplaceDecided(b: Book, shape: Shape, instrument: InstrumentId, replace: ReplaceOrder)
    requires Shaped(b, shape) && UniqueIds(b)
    ensures match ReplaceResting(b, shape, instrument, replace)
            case Err(e) => Verdict(ReplaceClauses(b, shape, instrument, replace)) == Some(e)
            case Ok(done) => AllHold(ReplaceClauses(b, shape, instrument, replace)) && Repriced(b, replace, done.0, done.1)
  {
    hide Locate, UniqueIds, Verdict, IdentityClauses, MoveClauses, RemoveOrder, AddOrder, SetOrder, Flatten, Known, PlaceHeld, Shaped, MoveRejection, AllHold, Repriced;
    var id := replace.orderId;
    var identity := IdentityClauses(b, instrument, replace.instrument, id, replace.accountId);
    var move := if Known(b, id) then MoveClauses(b, shape, replace, PlaceHeld(b, id).0, PlaceHeld(b, id).1) else [];
    IdentityIs(b, instrument, replace.instrument, id, replace.accountId);
    HeldIs(b, id);
    TwoClauses(ValueClauses(replace)[0], ValueClauses(replace)[1]);
    VerdictThen(identity, ValueClauses(replace));
    VerdictThen(identity + ValueClauses(replace), move);
    VerdictIff(ReplaceClauses(b, shape, instrument, replace));
    if Locate(b, id).Some? {
      MoveIs(b, shape, replace, Locate(b, id).value);
    }
    if ReplaceResting(b, shape, instrument, replace).Ok? {
      ReplaceEffect(b, shape, instrument, replace);
    }
  }

  lemma {:induction false} ReplaceEffect(b: Book, shape: Shape, instrument: InstrumentId, replace: ReplaceOrder)
    requires Shaped(b, shape) && UniqueIds(b) && ReplaceResting(b, shape, instrument, replace).Ok?
    ensures var done := ReplaceResting(b, shape, instrument, replace).value; Repriced(b, replace, done.0, done.1)
  {
    hide Locate, UniqueIds, RemoveOrder, AddOrder, SetOrder, Flatten, Known, PlaceHeld, MoveRejection, Fits, StockedBook, Queued;
    HeldIs(b, replace.orderId);
    LocateOnList(b, replace.orderId);
    var p := Locate(b, replace.orderId).value;
    var levels := b.At(p.side);
    var order := OrderOf(b, p);
    ShapedSides(b, shape, p.side);
    FlattenSet(levels, p.level, p.place, order.(quantity := replace.quantity));
    FlattenRemove(levels, p.level, p.place);
    RemovedFits(p.side, levels, p.level, p.place, shape);
    RemovedSorted(p.side, RemoveOrder(levels, p.level, p.place), shape);
    AddQueues(p.side, RemoveOrder(levels, p.level, p.place), replace.price,
              Order(replace.orderId, replace.accountId, replace.quantity, replace.sequence));
    SidesAfter(ReplaceResting(b, shape, instrument, replace).value.0, p.side);
  }

  lemma {:induction false} RemovedSorted(side: Side, levels: seq<Level>, shape: Shape)
    requires Fits(side, levels, shape)
    ensures Sorted(side, levels)
  {
  }
}
