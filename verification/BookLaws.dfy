/** What every book operation keeps: sorted uncrossed sides within capacity, FIFO
    order by age, and ids and sequences that never repeat. */
module BookLaws {
  import opened Types
  import opened PriceLevels
  import opened BookSpec
  import opened Priority
  import opened BookIds

  predicate Young(orders: seq<Order>, next: int) {
    && (forall j :: 0 <= j < |orders| ==> orders[j].quantity > 0 && 0 < orders[j].sequence < next)
    && (forall i, j :: 0 <= i < j < |orders| ==> orders[i].sequence < orders[j].sequence)
  }

  /** A level within capacity, oldest order first. */
  predicate GoodLevel(l: Level, shape: Shape, next: int) {
    0 < |l.orders| <= shape.orders && l.price > 0 && Young(l.orders, next)
  }

  predicate GoodSide(side: Side, levels: seq<Level>, shape: Shape, next: int) {
    && Sorted(side, levels) && |levels| <= shape.levels
    && (forall i :: 0 <= i < |levels| ==> GoodLevel(levels[i], shape, next))
  }

  predicate Uncrossed(b: Book) {
    b.bids != [] && b.asks != [] ==> b.bids[0].price < b.asks[0].price
  }

  ghost predicate DistinctKeys(list: seq<Resting>) {
    forall i, j :: 0 <= i < j < |list| ==>
      list[i].order.id != list[j].order.id && list[i].order.sequence != list[j].order.sequence
  }

  ghost predicate Apart(x: seq<Resting>, y: seq<Resting>) {
    forall r, t :: r in x && t in y ==> r.order.id != t.order.id && r.order.sequence != t.order.sequence
  }

  /** Everything a reachable book satisfies when `next` is the next sequence number. */
  ghost predicate SoundBook(b: Book, shape: Shape, next: int) {
    && GoodSide(Buy, b.bids, shape, next) && GoodSide(Sell, b.asks, shape, next)
    && Uncrossed(b)
    && DistinctKeys(Flatten(b.bids)) && DistinctKeys(Flatten(b.asks)) && Apart(Flatten(b.bids), Flatten(b.asks))
  }

  lemma {:induction false} GoodStocked(side: Side, levels: seq<Level>, shape: Shape, next: int)
    requires GoodSide(side, levels, shape, next)
    ensures Stocked(levels)
  {
    forall i | 0 <= i < |levels| ensures StockedLevel(levels[i]) {
      assert GoodLevel(levels[i], shape, next);
    }
  }

  lemma {:induction false} GoodLater(side: Side, levels: seq<Level>, shape: Shape, next: int, later: int)
    requires GoodSide(side, levels, shape, next) && next <= later
    ensures GoodSide(side, levels, shape, later)
  {
    forall i | 0 <= i < |levels| ensures GoodLevel(levels[i], shape, later) {
      assert GoodLevel(levels[i], shape, next);
    }
  }

  lemma {:induction false} YoungWithout(orders: seq<Order>, j: nat, next: int)
    requires Young(orders, next) && j < |orders|
    ensures Young(Without(orders, j), next)
  {
  }

  lemma {:induction false} RemoveGood(side: Side, levels: seq<Level>, i: nat, j: nat, shape: Shape, next: int)
    requires GoodSide(side, levels, shape, next) && InLevels(levels, i, j)
    ensures GoodSide(side, RemoveOrder(levels, i, j), shape, next)
  {
    var r := RemoveOrder(levels, i, j);
    assert GoodLevel(levels[i], shape, next);
    YoungWithout(levels[i].orders, j, next);
    hide Young;
    forall k | 0 <= k < |r| ensures GoodLevel(r[k], shape, next) {
      if |levels[i].orders| == 1 {
        assert GoodLevel(levels[if k < i then k else k + 1], shape, next);
      } else {
        assert GoodLevel(levels[k], shape, next);
      }
    }
  }

  lemma {:induction false} SetGood(side: Side, levels: seq<Level>, i: nat, j: nat, quantity: Quantity, shape: Shape, next: int)
    requires GoodSide(side, levels, shape, next) && InLevels(levels, i, j) && quantity > 0
    ensures GoodSide(side, SetOrder(levels, i, j, levels[i].orders[j].(quantity := quantity)), shape, next)
  {
    var r := SetOrder(levels, i, j, levels[i].orders[j].(quantity := quantity));
    assert GoodLevel(levels[i], shape, next);
    forall k | 0 <= k < |r| ensures GoodLevel(r[k], shape, next) {
      assert GoodLevel(levels[k], shape, next);
    }
  }

  lemma {:induction false} AddGood(side: Side, levels: seq<Level>, price: Price, order: Order, shape: Shape, next: int, later: int)
    requires GoodSide(side, levels, shape, next) && price > 0 && order.quantity > 0 && shape.orders > 0
    requires 0 < next <= order.sequence < later
    requires RestRejection(side, levels, price, shape).None?
    ensures GoodSide(side, AddOrder(side, levels, price, order), shape, later)
  {
    GoodLater(side, levels, shape, next, later);
    var r := AddOrder(side, levels, price, order);
    var p := Place(side, levels, price);
    AddSorted(side, levels, price, order);
    hide Place, Young;
    forall k | 0 <= k < |r| ensures GoodLevel(r[k], shape, later) {
      if HasPrice(side, levels, price) {
        assert GoodLevel(levels[k], shape, later) && GoodLevel(levels[p], shape, next);
        YoungAppend(levels[p].orders, order, next, later);
      } else if k == p {
        YoungAppend([], order, next, later);
        assert [] + [order] == [order];
      } else {
        assert GoodLevel(levels[if k < p then k else k - 1], shape, later);
      }
    }
  }

  lemma {:induction false} YoungAppend(orders: seq<Order>, order: Order, next: int, later: int)
    requires (orders == [] || Young(orders, next)) && order.quantity > 0 && 0 < next <= order.sequence < later
    ensures Young(orders + [order], later)
  {
  }

  lemma {:induction false} AddSorted(side: Side, levels: seq<Level>, price: Price, order: Order)
    requires Sorted(side, levels)
    ensures Sorted(side, AddOrder(side, levels, price, order))
  {
    var p := Place(side, levels, price);
    assert forall i :: p <= i < |levels| ==> !Better(side, levels[i].price, price);
  }

  lemma {:induction false} FillHeadGood(side: Side, levels: seq<Level>, quantity: Quantity, shape: Shape, next: int)
    requires GoodSide(side, levels, shape, next) && levels != []
    requires InLevels(levels, 0, 0) && quantity <= levels[0].orders[0].quantity
    ensures GoodSide(side, FillHead(levels, quantity), shape, next)
    ensures FillHead(levels, quantity) != [] ==> !Better(side, FillHead(levels, quantity)[0].price, levels[0].price)
  {
    hide GoodSide;
    var head := levels[0].orders[0];
    if quantity == head.quantity {
      RemoveGood(side, levels, 0, 0, shape, next);
    } else {
      SetGood(side, levels, 0, 0, head.quantity - quantity, shape, next);
    }
    FirstPrice(side, levels, shape, next);
  }

  lemma {:induction false} FirstPrice(side: Side, levels: seq<Level>, shape: Shape, next: int)
    requires GoodSide(side, levels, shape, next)
    ensures Sorted(side, levels)
  {
  }

  /** Matching keeps the maker side good, never improves its best price, and stops
      only when the taker is done or nothing crosses. */
  lemma {:induction false} MatchGood(taker: Side, limit: Price, makers: seq<Level>, quantity: Quantity, shape: Shape, next: int)
    requires GoodSide(taker.Opposite(), makers, shape, next) && Stocked(makers)
    ensures var m := Match(taker, limit, makers, quantity);
            && GoodSide(taker.Opposite(), m.makers, shape, next)
            && (m.makers != [] ==> makers != [] && !Better(taker.Opposite(), m.makers[0].price, makers[0].price))
            && (m.remaining == 0 || m.makers == [] || !Crosses(taker, limit, m.makers[0].price))
    decreases quantity
  {
    hide GoodSide, FillHead;
    if quantity != 0 && makers != [] && Crosses(taker, limit, makers[0].price) {
      assert StockedLevel(makers[0]);
      var traded := Min(quantity, makers[0].orders[0].quantity);
      FillHeadStocked(makers, traded);
      FillHeadGood(taker.Opposite(), makers, traded, shape, next);
      MatchGood(taker, limit, FillHead(makers, traded), quantity - traded, shape, next);
    }
  }

  // Keys.

  /** Every entry of `x` carries the id and sequence of some entry of `y`. */
  ghost predicate KeysAmong(x: seq<Resting>, y: seq<Resting>) {
    forall r :: r in x ==> exists t :: t in y && t.order.id == r.order.id && t.order.sequence == r.order.sequence
  }

  ghost predicate Narrower(x: seq<Resting>, y: seq<Resting>) {
    KeysAmong(x, y) && (DistinctKeys(y) ==> DistinctKeys(x))
  }

  lemma {:induction false} ApartNarrower(x: seq<Resting>, y: seq<Resting>, z: seq<Resting>)
    requires KeysAmong(x, y)
    ensures Apart(y, z) ==> Apart(x, z)
    ensures Apart(z, y) ==> Apart(z, x)
  {
  }

  lemma {:induction false} NarrowerTrans(x: seq<Resting>, y: seq<Resting>, z: seq<Resting>)
    requires Narrower(x, y) && Narrower(y, z)
    ensures Narrower(x, z)
  {
    forall r | r in x ensures exists t :: t in z && t.order.id == r.order.id && t.order.sequence == r.order.sequence {
      var u :| u in y && u.order.id == r.order.id && u.order.sequence == r.order.sequence;
    }
  }

  lemma {:induction false} WithoutNarrower(y: seq<Resting>, p: nat)
    requires p < |y|
    ensures Narrower(Without(y, p), y)
  {
    var x := Without(y, p);
    forall r | r in x ensures exists t :: t in y && t.order.id == r.order.id && t.order.sequence == r.order.sequence {
      WithoutMembers(y, p, r);
    }
  }

  lemma {:induction false} SetNarrower(y: seq<Resting>, p: nat, r: Resting)
    requires p < |y| && r.order.id == y[p].order.id && r.order.sequence == y[p].order.sequence
    ensures Narrower(y[p := r], y)
  {
    var x := y[p := r];
    forall t | t in x ensures exists u :: u in y && u.order.id == t.order.id && u.order.sequence == t.order.sequence {
      var i :| 0 <= i < |x| && x[i] == t;
      assert y[i] in y;
    }
  }

  lemma {:induction false} FillHeadNarrower(levels: seq<Level>, quantity: Quantity)
    requires InLevels(levels, 0, 0) && quantity <= levels[0].orders[0].quantity
    ensures Narrower(Flatten(FillHead(levels, quantity)), Flatten(levels))
  {
    hide Narrower, Flatten, RemoveOrder, SetOrder;
    var head := levels[0].orders[0];
    FlattenAt(levels, 0, 0);
    if quantity == head.quantity {
      FlattenRemove(levels, 0, 0);
      WithoutNarrower(Flatten(levels), 0);
    } else {
      FlattenSet(levels, 0, 0, head.(quantity := head.quantity - quantity));
      SetNarrower(Flatten(levels), 0, Resting(levels[0].price, head.(quantity := head.quantity - quantity)));
    }
  }

  lemma {:induction false} NarrowerSelf(x: seq<Resting>)
    ensures Narrower(x, x)
  {
  }

  lemma {:induction false} MatchNarrower(taker: Side, limit: Price, makers: seq<Level>, quantity: Quantity)
    requires Stocked(makers)
    ensures Narrower(Flatten(Match(taker, limit, makers, quantity).makers), Flatten(makers))
    decreases quantity
  {
    hide Narrower, Flatten, FillHead;
    if quantity != 0 && makers != [] && Crosses(taker, limit, makers[0].price) {
      assert StockedLevel(makers[0]);
      var traded := Min(quantity, makers[0].orders[0].quantity);
      FillHeadStocked(makers, traded);
      var mid := FillHead(makers, traded);
      FillHeadNarrower(makers, traded);
      MatchNarrower(taker, limit, mid, quantity - traded);
      NarrowerTrans(Flatten(Match(taker, limit, makers, quantity).makers), Flatten(mid), Flatten(makers));
    } else {
      NarrowerSelf(Flatten(makers));
    }
  }

  /** `order` shares neither id nor sequence with the list. */
  ghost predicate FreshKeys(list: seq<Resting>, order: Order) {
    forall r :: r in list ==> r.order.id != order.id && r.order.sequence != order.sequence
  }

  lemma {:induction false} AddDistinct(list: seq<Resting>, p: nat, price: Price, order: Order)
    requires DistinctKeys(list) && p <= |list| && FreshKeys(list, order)
    ensures DistinctKeys(InsertAt(list, p, Resting(price, order)))
  {
    var r := InsertAt(list, p, Resting(price, order));
    forall i, j | 0 <= i < j < |r|
      ensures r[i].order.id != r[j].order.id && r[i].order.sequence != r[j].order.sequence
    {
      var i0, j0 := if i < p then i else i - 1, if j < p then j else j - 1;
      if i != p {
        assert r[i] == list[i0] && list[i0] in list;
      }
      if j != p {
        assert r[j] == list[j0] && list[j0] in list;
      }
    }
  }

  lemma {:induction false} AddApart(list: seq<Resting>, p: nat, price: Price, order: Order, other: seq<Resting>)
    requires p <= |list| && FreshKeys(other, order)
    ensures Apart(list, other) ==> Apart(InsertAt(list, p, Resting(price, order)), other)
    ensures Apart(other, list) ==> Apart(other, InsertAt(list, p, Resting(price, order)))
  {
    var r := InsertAt(list, p, Resting(price, order));
    forall t | t in r ensures t in list || t == Resting(price, order) {
      var i :| 0 <= i < |r| && r[i] == t;
      if i != p {
        assert t == list[if i < p then i else i - 1];
      }
    }
  }

  /** Orders of a good side are older than `next`. */
  lemma {:induction false} SequencesBelow(side: Side, levels: seq<Level>, shape: Shape, next: int)
    requires GoodSide(side, levels, shape, next)
    ensures forall r :: r in Flatten(levels) ==> r.order.sequence < next
  {
    hide Flatten;
    forall r | r in Flatten(levels) ensures r.order.sequence < next {
      var p :| 0 <= p < |Flatten(levels)| && Flatten(levels)[p] == r;
      var i, j := FlattenIndex(levels, p);
      FlattenAt(levels, i, j);
      assert GoodLevel(levels[i], shape, next);
    }
  }

  lemma {:induction false} FreshOnSide(side: Side, levels: seq<Level>, shape: Shape, next: int, order: Order)
    requires GoodSide(side, levels, shape, next) && order.sequence >= next && !HasId(levels, order.id)
    ensures FreshKeys(Flatten(levels), order)
  {
    SequencesBelow(side, levels, shape, next);
    hide Flatten;
  }

  ghost predicate SoundKeys(b: Book) {
    DistinctKeys(Flatten(b.bids)) && DistinctKeys(Flatten(b.asks)) && Apart(Flatten(b.bids), Flatten(b.asks))
  }

  lemma {:induction false} OneOffset(levels: seq<Level>, i: nat, j: nat, k: nat, l: nat)
    requires InLevels(levels, i, j) && InLevels(levels, k, l) && Offset(levels, i) + j == Offset(levels, k) + l
    ensures i == k && j == l
    decreases i + k
  {
    if i > 0 && k > 0 {
      OneOffset(levels[1..], i - 1, j, k - 1, l);
    }
  }

  /** In a sound book every order is found where it rests. */
  lemma {:induction false} SoundUnique(b: Book)
    requires SoundKeys(b)
    ensures UniqueIds(b)
  {
    hide Flatten, Locate;
    forall side, i: nat, j: nat | InLevels(b.At(side), i, j)
      ensures Locate(b, b.At(side)[i].orders[j].id) == Some(Position(side, i, j))
    {
      OnePlace(b, side, i, j);
    }
  }

  lemma {:induction false} OnePlace(b: Book, side: Side, i: nat, j: nat)
    requires SoundKeys(b) && InLevels(b.At(side), i, j)
    ensures Locate(b, b.At(side)[i].orders[j].id) == Some(Position(side, i, j))
  {
    hide Flatten, UniqueIds;
    var id := b.At(side)[i].orders[j].id;
    assert Locate(b, id).Some?;
    LocatedIn(b, id);
    hide Locate;
    var p := Locate(b, id).value;
    var here, there := Flatten(b.At(side)), Flatten(b.At(p.side));
    FlattenAt(b.At(side), i, j);
    FlattenAt(b.At(p.side), p.level, p.place);
    assert here[Offset(b.At(side), i) + j] in here && there[Offset(b.At(p.side), p.level) + p.place] in there;
    if p.side == side {
      OneOffset(b.At(side), i, j, p.level, p.place);
    }
  }

  lemma {:induction false} NarrowSide(b: Book, side: Side, levels: seq<Level>)
    requires SoundKeys(b) && Narrower(Flatten(levels), Flatten(b.At(side)))
    ensures SoundKeys(b.With(side, levels))
  {
    hide Flatten, DistinctKeys, Apart, KeysAmong;
    ApartNarrower(Flatten(levels), Flatten(b.At(side)), Flatten(b.At(side.Opposite())));
  }

  lemma {:induction false} AddSide(b: Book, side: Side, price: Price, order: Order)
    requires SoundKeys(b) && FreshKeys(Flatten(b.bids), order) && FreshKeys(Flatten(b.asks), order)
    ensures SoundKeys(b.With(side, AddOrder(side, b.At(side), price, order)))
  {
    hide Flatten, DistinctKeys, Apart, FreshKeys, AddOrder;
    FlattenAdd(side, b.At(side), price, order);
    AddDistinct(Flatten(b.At(side)), Rank(side, b.At(side), price), price, order);
    AddApart(Flatten(b.At(side)), Rank(side, b.At(side), price), price, order, Flatten(b.At(side.Opposite())));
  }

  /** The best price after adding is the added one or the old best. */
  lemma {:induction false} AddBest(side: Side, levels: seq<Level>, price: Price, order: Order)
    ensures var r := AddOrder(side, levels, price, order);
            r != [] && (r[0].price == price || (levels != [] && r[0].price == levels[0].price))
  {
  }

  lemma {:induction false} RemoveBest(side: Side, levels: seq<Level>, i: nat, j: nat)
    requires Sorted(side, levels) && InLevels(levels, i, j)
    ensures var r := RemoveOrder(levels, i, j); r != [] ==> !Better(side, r[0].price, levels[0].price)
  {
  }

  /** Resting a fresh order where nothing crosses keeps the book sound. */
  lemma {:induction false} RestedSound(b: Book, side: Side, price: Price, order: Order, shape: Shape, next: int, later: int)
    requires SoundBook(b, shape, next) && price > 0 && order.quantity > 0 && shape.orders > 0
    requires 0 < next <= order.sequence < later
    requires !HasId(b.bids, order.id) && !HasId(b.asks, order.id)
    requires RestRejection(side, b.At(side), price, shape).None?
    requires b.At(side.Opposite()) != [] ==> !Crosses(side, price, b.At(side.Opposite())[0].price)
    ensures SoundBook(b.With(side, AddOrder(side, b.At(side), price, order)), shape, later)
  {
    hide GoodSide, Flatten, DistinctKeys, Apart, HasId, RestRejection, AddOrder;
    AddGood(side, b.At(side), price, order, shape, next, later);
    GoodLater(side.Opposite(), b.At(side.Opposite()), shape, next, later);
    FreshOnSide(Buy, b.bids, shape, next, order);
    FreshOnSide(Sell, b.asks, shape, next, order);
    AddSide(b, side, price, order);
    AddBest(side, b.At(side), price, order);
  }

  lemma {:induction false} SoundLater(b: Book, shape: Shape, next: int, later: int)
    requires SoundBook(b, shape, next) && next <= later
    ensures SoundBook(b, shape, later)
  {
    hide GoodSide, Flatten, DistinctKeys, Apart;
    GoodLater(Buy, b.bids, shape, next, later);
    GoodLater(Sell, b.asks, shape, next, later);
  }

  lemma {:induction false} SoundStocked(b: Book, shape: Shape, next: int)
    requires SoundBook(b, shape, next)
    ensures Stocked(b.bids) && Stocked(b.asks)
  {
    hide GoodSide, Stocked, Flatten, DistinctKeys, Apart;
    GoodStocked(Buy, b.bids, shape, next);
    GoodStocked(Sell, b.asks, shape, next);
  }

  lemma {:induction false} Validated(b: Book, instrument: InstrumentId, order: NewOrder)
    requires Validate(b, instrument, order).None?
    ensures order.price > 0 && order.quantity > 0 && !HasId(b.bids, order.orderId) && !HasId(b.asks, order.orderId)
  {
    ContainsIffHasId(b, order.orderId);
  }

  /** The book when `order` has traded all it can. */
  function AfterMatch(b: Book, order: NewOrder): Book
    requires Stocked(b.bids) && Stocked(b.asks)
  {
    b.With(order.side.Opposite(), Match(order.side, order.price, b.At(order.side.Opposite()), order.quantity).makers)
  }

  /** The book when the untraded `resting` then rests. */
  function AfterRest(b: Book, order: NewOrder, resting: Quantity): Book {
    b.With(order.side, AddOrder(order.side, b.At(order.side), order.price,
                                Order(order.orderId, order.accountId, resting, order.sequence)))
  }

  /** An accepted submission, clause by clause. */
  lemma {:induction false} AcceptedShape(b: Book, shape: Shape, instrument: InstrumentId, order: NewOrder, room: nat)
    requires Stocked(b.bids) && Stocked(b.asks)
    requires SubmitOrder(b, shape, instrument, order, room).Ok?
    ensures Validate(b, instrument, order).None?
    ensures var m := Match(order.side, order.price, b.At(order.side.Opposite()), order.quantity);
            var done := SubmitOrder(b, shape, instrument, order, room).value;
            var rests := m.remaining > 0 && Rests(order.tif);
            && done.fills == m.fills && |m.fills| <= room
            && m.remaining <= order.quantity && done.summary.filled == order.quantity - m.remaining
            && done.summary.resting == (if rests then m.remaining else 0)
            && done.summary.discarded == m.remaining - done.summary.resting
            && done.summary.reportCount == |m.fills|
            && (order.tif == Fok ==> m.remaining == 0)
            && (rests ==> RestRejection(order.side, b.At(order.side), order.price, shape).None?)
            && done.book == if rests then AfterRest(AfterMatch(b, order), order, m.remaining) else AfterMatch(b, order)
  {
    MatchRemaining(order.side, order.price, b.At(order.side.Opposite()), order.quantity);
    hide Validate, Match, RestRejection, AddOrder, Stocked;
  }

  lemma {:induction false} MatchedSound(b: Book, order: NewOrder, shape: Shape, next: int)
    requires SoundBook(b, shape, next) && Stocked(b.bids) && Stocked(b.asks)
    ensures SoundBook(AfterMatch(b, order), shape, next)
    ensures AfterMatch(b, order).At(order.side) == b.At(order.side)
    ensures var m := Match(order.side, order.price, b.At(order.side.Opposite()), order.quantity);
            && (m.remaining > 0 && m.makers != [] ==> !Crosses(order.side, order.price, m.makers[0].price))
            && KeysAmong(Flatten(m.makers), Flatten(b.At(order.side.Opposite())))
  {
    hide GoodSide, Flatten, Match, DistinctKeys, Apart, KeysAmong;
    var maker := order.side.Opposite();
    MatchGood(order.side, order.price, b.At(maker), order.quantity, shape, next);
    MatchNarrower(order.side, order.price, b.At(maker), order.quantity);
    NarrowSide(b, maker, Match(order.side, order.price, b.At(maker), order.quantity).makers);
  }

  lemma {:induction false} RemainderSound(b: Book, order: NewOrder, shape: Shape, next: int)
    requires SoundBook(b, shape, next) && Stocked(b.bids) && Stocked(b.asks)
    requires 0 < next <= order.sequence && shape.orders > 0 && order.price > 0
    requires !HasId(b.bids, order.orderId) && !HasId(b.asks, order.orderId)
    requires RestRejection(order.side, b.At(order.side), order.price, shape).None?
    ensures var m := Match(order.side, order.price, b.At(order.side.Opposite()), order.quantity);
            m.remaining > 0 ==> SoundBook(AfterRest(AfterMatch(b, order), order, m.remaining), shape, order.sequence + 1)
  {
    hide SoundBook, Match, RestRejection, Stocked, KeysAmong, Flatten, HasId, AddOrder;
    var m := Match(order.side, order.price, b.At(order.side.Opposite()), order.quantity);
    MatchedSound(b, order, shape, next);
    IdsNarrower(m.makers, b.At(order.side.Opposite()), order.orderId);
    if m.remaining > 0 {
      RestedSound(AfterMatch(b, order), order.side, order.price,
                  Order(order.orderId, order.accountId, m.remaining, order.sequence), shape, next, order.sequence + 1);
    }
  }

  /** Market invariant: a submission with a new sequence number keeps the book sound. */
  lemma {:induction false} SubmitSound(b: Book, shape: Shape, instrument: InstrumentId, order: NewOrder, room: nat, next: int)
    requires SoundBook(b, shape, next) && 0 < next <= order.sequence && shape.orders > 0
    ensures Stocked(b.bids) && Stocked(b.asks)
    ensures SubmitOrder(b, shape, instrument, order, room).Ok? ==>
              SoundBook(SubmitOrder(b, shape, instrument, order, room).value.book, shape, order.sequence + 1)
  {
    hide SoundBook, Match, AfterMatch, AfterRest, RestRejection, Validate, Stocked, HasId, SubmitOrder;
    SoundStocked(b, shape, next);
    if SubmitOrder(b, shape, instrument, order, room).Ok? {
      AcceptedShape(b, shape, instrument, order, room);
      Validated(b, instrument, order);
      if Match(order.side, order.price, b.At(order.side.Opposite()), order.quantity).remaining > 0 && Rests(order.tif) {
        RemainderSound(b, order, shape, next);
      } else {
        MatchedSound(b, order, shape, next);
        SoundLater(AfterMatch(b, order), shape, next, order.sequence + 1);
      }
    }
  }

  lemma {:induction false} IdsNarrower(x: seq<Level>, y: seq<Level>, id: OrderId)
    requires KeysAmong(Flatten(x), Flatten(y)) && !HasId(y, id)
    ensures !HasId(x, id)
  {
    hide Flatten;
  }

  lemma {:induction false} RemovedGood(b: Book, p: Position, shape: Shape, next: int)
    requires SoundBook(b, shape, next) && InLevels(b.At(p.side), p.level, p.place)
    ensures var c := b.With(p.side, RemoveOrder(b.At(p.side), p.level, p.place));
            GoodSide(Buy, c.bids, shape, next) && GoodSide(Sell, c.asks, shape, next) && Uncrossed(c)
  {
    hide GoodSide, Flatten, DistinctKeys, Apart, RemoveOrder;
    var levels := b.At(p.side);
    RemoveGood(p.side, levels, p.level, p.place, shape, next);
    FirstPrice(p.side, levels, shape, next);
    RemoveBest(p.side, levels, p.level, p.place);
  }

  lemma {:induction false} RemovedSound(b: Book, p: Position, shape: Shape, next: int)
    requires SoundBook(b, shape, next) && InLevels(b.At(p.side), p.level, p.place)
    ensures var r := RemoveOrder(b.At(p.side), p.level, p.place);
            && SoundBook(b.With(p.side, r), shape, next)
            && !HasId(r, OrderOf(b, p).id) && !HasId(b.At(p.side.Opposite()), OrderOf(b, p).id)
  {
    hide GoodSide, Flatten, Narrower, RemoveOrder, HasId, DistinctKeys, Apart, Uncrossed;
    var levels := b.At(p.side);
    RemovedGood(b, p, shape, next);
    FlattenRemove(levels, p.level, p.place);
    WithoutNarrower(Flatten(levels), Offset(levels, p.level) + p.place);
    RemovedId(levels, p.level, p.place, RemoveOrder(levels, p.level, p.place));
    OppositeId(b, p);
    NarrowSide(b, p.side, RemoveOrder(levels, p.level, p.place));
  }

  lemma {:induction false} OppositeId(b: Book, p: Position)
    requires InLevels(b.At(p.side), p.level, p.place) && Apart(Flatten(b.bids), Flatten(b.asks))
    ensures !HasId(b.At(p.side.Opposite()), OrderOf(b, p).id)
  {
    hide Flatten;
    FlattenAt(b.At(p.side), p.level, p.place);
    var r := Flatten(b.At(p.side))[Offset(b.At(p.side), p.level) + p.place];
    assert r in Flatten(b.At(p.side));
  }

  lemma {:induction false} RemovedId(levels: seq<Level>, i: nat, j: nat, r: seq<Level>)
    requires InLevels(levels, i, j) && DistinctKeys(Flatten(levels))
    requires Offset(levels, i) + j < |Flatten(levels)|
    requires Flatten(r) == Without(Flatten(levels), Offset(levels, i) + j)
    ensures !HasId(r, levels[i].orders[j].id)
  {
    hide Flatten;
    FlattenAt(levels, i, j);
    var o := Offset(levels, i) + j;
    assert forall q :: 0 <= q < |Flatten(r)| ==> Flatten(r)[q] == Flatten(levels)[if q < o then q else q + 1];
  }

  lemma {:induction false} CancelSound(b: Book, shape: Shape, instrument: InstrumentId, cancel: CancelOrder, next: int)
    requires SoundBook(b, shape, next)
    ensures CancelResting(b, instrument, cancel).Ok? ==> SoundBook(CancelResting(b, instrument, cancel).value.0, shape, next)
  {
    hide SoundBook, Locate, RemoveOrder, HasId;
    if Locate(b, cancel.orderId).Some? {
      LocatedIn(b, cancel.orderId);
      RemovedSound(b, Locate(b, cancel.orderId).value, shape, next);
    }
  }

  lemma {:induction false} LocatedIn(b: Book, id: OrderId)
    requires Locate(b, id).Some?
    ensures var p := Locate(b, id).value; InLevels(b.At(p.side), p.level, p.place) && OrderOf(b, p).id == id
  {
  }

  lemma {:induction false} ReducedSound(b: Book, p: Position, quantity: Quantity, shape: Shape, next: int)
    requires SoundBook(b, shape, next) && InLevels(b.At(p.side), p.level, p.place) && quantity > 0
    ensures SoundBook(b.With(p.side, SetOrder(b.At(p.side), p.level, p.place, OrderOf(b, p).(quantity := quantity))), shape, next)
  {
    var levels := b.At(p.side);
    var o := OrderOf(b, p).(quantity := quantity);
    hide GoodSide, Flatten, Narrower, DistinctKeys, Apart;
    SetGood(p.side, levels, p.level, p.place, quantity, shape, next);
    FlattenSet(levels, p.level, p.place, o);
    FlattenAt(levels, p.level, p.place);
    SetNarrower(Flatten(levels), Offset(levels, p.level) + p.place, Resting(levels[p.level].price, o));
    NarrowSide(b, p.side, SetOrder(levels, p.level, p.place, o));
  }

  /** Market invariant: a replace with a new sequence number keeps the book sound. */
  lemma {:induction false} ReplaceSound(b: Book, shape: Shape, instrument: InstrumentId, replace: ReplaceOrder, next: int)
    requires SoundBook(b, shape, next) && 0 < next <= replace.sequence && shape.orders > 0
    ensures ReplaceResting(b, shape, instrument, replace).Ok? ==>
              SoundBook(ReplaceResting(b, shape, instrument, replace).value.0, shape, replace.sequence + 1)
  {
    hide SoundBook, Locate, RemoveOrder, AddOrder, SetOrder, MoveRejection, HasId, RestRejection;
    if ReplaceResting(b, shape, instrument, replace).Ok? {
      LocatedIn(b, replace.orderId);
      var p := Locate(b, replace.orderId).value;
      var levels := b.At(p.side);
      if replace.price == levels[p.level].price && replace.quantity < OrderOf(b, p).quantity {
        ReducedSound(b, p, replace.quantity, shape, next);
        SoundLater(b.With(p.side, SetOrder(levels, p.level, p.place, OrderOf(b, p).(quantity := replace.quantity))), shape, next, replace.sequence + 1);
      } else {
        RemovedSound(b, p, shape, next);
        MoveRoom(b, p, replace.price, shape, next);
        RestedSound(b.With(p.side, RemoveOrder(levels, p.level, p.place)), p.side, replace.price,
                    Order(replace.orderId, replace.accountId, replace.quantity, replace.sequence), shape, next, replace.sequence + 1);
      }
    }
  }

  lemma {:induction false} MoveRoom(b: Book, p: Position, price: Price, shape: Shape, next: int)
    requires SoundBook(b, shape, next) && InLevels(b.At(p.side), p.level, p.place)
    requires MoveRejection(b, p, price, shape).None?
    ensures RestRejection(p.side, RemoveOrder(b.At(p.side), p.level, p.place), price, shape).None?
    ensures b.At(p.side.Opposite()) != [] ==> !Crosses(p.side, price, b.At(p.side.Opposite())[0].price)
  {
    hide DistinctKeys, Apart, Flatten;
    SoundFits(p.side, b.At(p.side), shape, next);
    MoveUncrossed(b, p, price, shape, next);
    hide GoodSide, RemoveOrder, RestRejection;
    MoveFits(b, p, price, shape);
  }

  lemma {:induction false} SoundFits(side: Side, levels: seq<Level>, shape: Shape, next: int)
    requires GoodSide(side, levels, shape, next)
    ensures Fits(side, levels, shape)
  {
    forall i | 0 <= i < |levels| ensures 0 < |levels[i].orders| <= shape.orders {
      assert GoodLevel(levels[i], shape, next);
    }
  }

  /** A move to the same price cannot cross an uncrossed book; any other is checked. */
  lemma {:induction false} MoveUncrossed(b: Book, p: Position, price: Price, shape: Shape, next: int)
    requires GoodSide(Buy, b.bids, shape, next) && GoodSide(Sell, b.asks, shape, next) && Uncrossed(b)
    requires InLevels(b.At(p.side), p.level, p.place) && MoveRejection(b, p, price, shape).None?
    ensures b.At(p.side.Opposite()) != [] ==> !Crosses(p.side, price, b.At(p.side.Opposite())[0].price)
  {
    if p.level > 0 {
      assert Better(p.side, b.At(p.side)[0].price, b.At(p.side)[p.level].price);
    }
  }
}
