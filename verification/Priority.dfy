/** A side as one priority list: every resting order, best price first and oldest
    first within a price. Matching is a walk along this list. */
module Priority {
  import opened Types
  import opened PriceLevels
  import opened BookSpec

  datatype Resting = Resting(price: Price, order: Order)

  function AtPrice(price: Price, orders: seq<Order>): (r: seq<Resting>)
    ensures |r| == |orders|
    ensures forall k :: 0 <= k < |r| ==> r[k] == Resting(price, orders[k])
  {
    seq(|orders|, k requires 0 <= k < |orders| => Resting(price, orders[k]))
  }

  function Flatten(levels: seq<Level>): seq<Resting> {
    if levels == [] then [] else AtPrice(levels[0].price, levels[0].orders) + Flatten(levels[1..])
  }

  /** Number of orders ahead of the `i`-th level. */
  function Offset(levels: seq<Level>, i: nat): nat
    requires i <= |levels|
  {
    if i == 0 then 0 else |levels[0].orders| + Offset(levels[1..], i - 1)
  }

  lemma {:induction false} FlattenAt(levels: seq<Level>, i: nat, j: nat)
    requires InLevels(levels, i, j)
    ensures Offset(levels, i) + j < |Flatten(levels)|
    ensures Flatten(levels)[Offset(levels, i) + j] == Resting(levels[i].price, levels[i].orders[j])
  {
    if i > 0 {
      FlattenAt(levels[1..], i - 1, j);
    }
  }

  lemma {:induction false} FlattenIndex(levels: seq<Level>, p: nat) returns (i: nat, j: nat)
    requires p < |Flatten(levels)|
    ensures InLevels(levels, i, j) && p == Offset(levels, i) + j
  {
    if p < |levels[0].orders| {
      i, j := 0, p;
    } else {
      var i0, j0 := FlattenIndex(levels[1..], p - |levels[0].orders|);
      i, j := i0 + 1, j0;
    }
  }

  lemma {:induction false} WithoutConcat<T>(a: seq<T>, b: seq<T>, p: nat)
    requires p < |a| + |b|
    ensures Without(a + b, p) == if p < |a| then Without(a, p) + b else a + Without(b, p - |a|)
  {
  }

  lemma {:induction false} InsertConcat<T>(a: seq<T>, b: seq<T>, p: nat, x: T)
    requires p <= |b|
    ensures InsertAt(a + b, |a| + p, x) == a + InsertAt(b, p, x)
  {
  }

  lemma {:induction false} FlattenSplit(levels: seq<Level>, head: Level, tail: seq<Level>)
    requires levels == [head] + tail
    ensures Flatten(levels) == AtPrice(head.price, head.orders) + Flatten(tail)
  {
    assert levels[1..] == tail;
  }

  lemma {:induction false} RemoveShape(levels: seq<Level>, i: nat, j: nat)
    requires InLevels(levels, i, j)
    ensures i > 0 ==> InLevels(levels[1..], i - 1, j)
                      && RemoveOrder(levels, i, j) == [levels[0]] + RemoveOrder(levels[1..], i - 1, j)
    ensures i == 0 && |levels[0].orders| == 1 ==> RemoveOrder(levels, i, j) == levels[1..]
    ensures i == 0 && |levels[0].orders| != 1 ==>
              RemoveOrder(levels, i, j) == [Level(levels[0].price, Without(levels[0].orders, j))] + levels[1..]
  {
    if i > 0 {
      assert levels[1..][i - 1] == levels[i];
      if |levels[i].orders| == 1 {
        assert Without(levels, i) == [levels[0]] + Without(levels[1..], i - 1);
      }
    } else if |levels[0].orders| == 1 {
      assert Without(levels, 0) == levels[1..];
    }
  }

  lemma {:induction false} AtPriceWithout(price: Price, orders: seq<Order>, j: nat)
    requires j < |orders|
    ensures AtPrice(price, Without(orders, j)) == Without(AtPrice(price, orders), j)
  {
  }

  lemma {:induction false} FlattenRemove(levels: seq<Level>, i: nat, j: nat)
    requires InLevels(levels, i, j)
    ensures Offset(levels, i) + j < |Flatten(levels)|
    ensures Flatten(RemoveOrder(levels, i, j)) == Without(Flatten(levels), Offset(levels, i) + j)
  {
    hide RemoveOrder, Flatten, Without;
    FlattenAt(levels, i, j);
    if i > 0 {
      var head, tail := levels[0], levels[1..];
      RemoveShape(levels, i, j);
      FlattenRemove(tail, i - 1, j);
      assert levels == [head] + tail;
      FlattenSplit(levels, head, tail);
      FlattenSplit(RemoveOrder(levels, i, j), head, RemoveOrder(tail, i - 1, j));
      WithoutConcat(AtPrice(head.price, head.orders), Flatten(tail), Offset(levels, i) + j);
    } else {
      FlattenRemoveHere(levels, j);
    }
  }

  lemma {:induction false} FlattenRemoveHere(levels: seq<Level>, j: nat)
    requires InLevels(levels, 0, j)
    ensures j < |Flatten(levels)| && Flatten(RemoveOrder(levels, 0, j)) == Without(Flatten(levels), j)
  {
    hide RemoveOrder;
    RemoveShape(levels, 0, j);
    var head, tail := levels[0], levels[1..];
    var front := AtPrice(head.price, head.orders);
    FlattenSplit(levels, head, tail);
    WithoutConcat(front, Flatten(tail), j);
    AtPriceWithout(head.price, head.orders, j);
    if |head.orders| == 1 {
      assert Without(front, j) == [];
      assert [] + Flatten(tail) == Flatten(tail);
    } else {
      FlattenSplit(RemoveOrder(levels, 0, j), Level(head.price, Without(head.orders, j)), tail);
    }
  }

  lemma {:induction false} FlattenSet(levels: seq<Level>, i: nat, j: nat, o: Order)
    requires InLevels(levels, i, j)
    ensures Offset(levels, i) + j < |Flatten(levels)|
    ensures Flatten(SetOrder(levels, i, j, o)) == Flatten(levels)[Offset(levels, i) + j := Resting(levels[i].price, o)]
  {
    FlattenAt(levels, i, j);
    var r := SetOrder(levels, i, j, o);
    if i == 0 {
      assert r[1..] == levels[1..];
    } else {
      FlattenSet(levels[1..], i - 1, j, o);
      assert r[0] == levels[0];
      assert r[1..] == SetOrder(levels[1..], i - 1, j, o);
    }
  }

  /** Where a new order at `price` lands in the list. */
  function Rank(side: Side, levels: seq<Level>, price: Price): nat {
    if levels == [] then 0
    else if Better(side, levels[0].price, price) then |levels[0].orders| + Rank(side, levels[1..], price)
    else if levels[0].price == price then |levels[0].orders|
    else 0
  }

  lemma {:induction false} PlaceBehind(side: Side, levels: seq<Level>, price: Price)
    requires levels != [] && Better(side, levels[0].price, price)
    ensures Place(side, levels, price) == Place(side, levels[1..], price) + 1
    ensures HasPrice(side, levels, price) == HasPrice(side, levels[1..], price)
    ensures HasPrice(side, levels, price) ==>
              levels[Place(side, levels, price)] == levels[1..][Place(side, levels[1..], price)]
  {
  }

  lemma {:induction false} AddBehind(side: Side, levels: seq<Level>, price: Price, o: Order)
    requires levels != [] && Better(side, levels[0].price, price)
    ensures AddOrder(side, levels, price, o) == [levels[0]] + AddOrder(side, levels[1..], price, o)
  {
    var tail := levels[1..];
    var p := Place(side, tail, price);
    PlaceBehind(side, levels, price);
    hide Place, HasPrice;
    assert levels == [levels[0]] + tail;
    if !HasPrice(side, levels, price) {
      InsertConcat([levels[0]], tail, p, Level(price, [o]));
    }
  }

  lemma {:induction false} AddAhead(side: Side, levels: seq<Level>, price: Price, o: Order)
    requires levels != [] && !Better(side, levels[0].price, price)
    ensures levels[0].price == price ==>
              AddOrder(side, levels, price, o) == [Level(price, levels[0].orders + [o])] + levels[1..]
    ensures levels[0].price != price ==>
              AddOrder(side, levels, price, o) == [Level(price, [o])] + levels
  {
    assert Place(side, levels, price) == 0;
  }

  lemma {:induction false} FlattenAdd(side: Side, levels: seq<Level>, price: Price, o: Order)
    ensures Rank(side, levels, price) <= |Flatten(levels)|
    ensures Flatten(AddOrder(side, levels, price, o)) == InsertAt(Flatten(levels), Rank(side, levels, price), Resting(price, o))
  {
    hide AddOrder, Flatten, InsertAt, Rank;
    if levels == [] {
      FlattenAddFirst(side, levels, price, o);
    } else if Better(side, levels[0].price, price) {
      FlattenAdd(side, levels[1..], price, o);
      FlattenAddBehind(side, levels, price, o);
    } else if levels[0].price == price {
      AddAhead(side, levels, price, o);
      RankHere(side, levels, price);
      FlattenAddHere(AddOrder(side, levels, price, o), levels, price, o);
    } else {
      FlattenAddFirst(side, levels, price, o);
    }
  }

  lemma {:induction false} RankHere(side: Side, levels: seq<Level>, price: Price)
    requires levels != []
    ensures Rank(side, levels, price) == if Better(side, levels[0].price, price) then |levels[0].orders| + Rank(side, levels[1..], price)
                                         else if levels[0].price == price then |levels[0].orders| else 0
  {
  }

  lemma {:induction false} FlattenAddBehind(side: Side, levels: seq<Level>, price: Price, o: Order)
    requires levels != [] && Better(side, levels[0].price, price)
    requires Rank(side, levels[1..], price) <= |Flatten(levels[1..])|
    requires Flatten(AddOrder(side, levels[1..], price, o))
             == InsertAt(Flatten(levels[1..]), Rank(side, levels[1..], price), Resting(price, o))
    ensures Rank(side, levels, price) <= |Flatten(levels)|
    ensures Flatten(AddOrder(side, levels, price, o)) == InsertAt(Flatten(levels), Rank(side, levels, price), Resting(price, o))
  {
    hide AddOrder, Flatten, InsertAt, Rank;
    var head, tail := levels[0], levels[1..];
    assert levels == [head] + tail;
    RankHere(side, levels, price);
    AddBehind(side, levels, price, o);
    FlattenSplit(levels, head, tail);
    FlattenSplit(AddOrder(side, levels, price, o), head, AddOrder(side, tail, price, o));
    InsertConcat(AtPrice(head.price, head.orders), Flatten(tail), Rank(side, tail, price), Resting(price, o));
  }

  /** A price better than all others opens the list. */
  lemma {:induction false} FlattenAddFirst(side: Side, levels: seq<Level>, price: Price, o: Order)
    requires levels != [] ==> !Better(side, levels[0].price, price) && levels[0].price != price
    ensures Rank(side, levels, price) <= |Flatten(levels)|
    ensures Flatten(AddOrder(side, levels, price, o)) == InsertAt(Flatten(levels), Rank(side, levels, price), Resting(price, o))
  {
    assert AddOrder(side, levels, price, o) == [Level(price, [o])] + levels;
    FlattenSplit(AddOrder(side, levels, price, o), Level(price, [o]), levels);
    hide AddOrder, Flatten;
    assert AtPrice(price, [o]) == [Resting(price, o)];
    InsertFront(Flatten(levels), Resting(price, o));
    hide InsertAt;
  }

  lemma {:induction false} InsertFront(list: seq<Resting>, r: Resting)
    ensures InsertAt(list, 0, r) == [r] + list
  {
  }

  lemma {:induction false} FlattenAddHere(r: seq<Level>, levels: seq<Level>, price: Price, o: Order)
    requires levels != [] && levels[0].price == price && r == [Level(price, levels[0].orders + [o])] + levels[1..]
    ensures |levels[0].orders| <= |Flatten(levels)|
    ensures Flatten(r) == InsertAt(Flatten(levels), |levels[0].orders|, Resting(price, o))
  {
    var head, tail := levels[0], levels[1..];
    var front := AtPrice(price, head.orders);
    FlattenSplit(r, Level(price, head.orders + [o]), tail);
    assert AtPrice(price, head.orders + [o]) == front + [Resting(price, o)];
    assert InsertAt(front + Flatten(tail), |front|, Resting(price, o)) == front + [Resting(price, o)] + Flatten(tail);
  }

  /** Trades of a taker against a priority list, without touching the list. */
  function Trades(taker: Side, limit: Price, list: seq<Resting>, quantity: Quantity): seq<Fill> {
    if quantity == 0 || list == [] || !Crosses(taker, limit, list[0].price) then []
    else
      var traded := Min(quantity, list[0].order.quantity);
      [Fill(list[0].order.id, list[0].price, traded)] + Trades(taker, limit, list[1..], quantity - traded)
  }

  function Traded(fills: seq<Fill>): nat {
    if fills == [] then 0 else fills[0].quantity + Traded(fills[1..])
  }

  /** Matching fill by fill against the changing book gives the trades of one walk
      over the unchanged book. */
  lemma {:induction false} MatchIsWalk(taker: Side, limit: Price, makers: seq<Level>, quantity: Quantity)
    requires Stocked(makers)
    ensures Match(taker, limit, makers, quantity).fills == Trades(taker, limit, Flatten(makers), quantity)
    ensures Match(taker, limit, makers, quantity).remaining == quantity - Traded(Match(taker, limit, makers, quantity).fills)
    decreases quantity
  {
    hide FillHead, Flatten;
    if quantity == 0 || makers == [] {
      NothingListed(makers);
    } else {
      assert StockedLevel(makers[0]);
      FlattenAt(makers, 0, 0);
      if Crosses(taker, limit, makers[0].price) {
        var head := makers[0].orders[0];
        var traded := Min(quantity, head.quantity);
        FillHeadStocked(makers, traded);
        MatchIsWalk(taker, limit, FillHead(makers, traded), quantity - traded);
        if traded == head.quantity {
          FillHeadPops(makers);
        }
      }
    }
  }

  lemma {:induction false} NothingListed(makers: seq<Level>)
    ensures makers == [] ==> Flatten(makers) == []
  {
  }

  /** Filling the head order completely pops the list. */
  lemma {:induction false} FillHeadPops(levels: seq<Level>)
    requires InLevels(levels, 0, 0)
    ensures Flatten(levels) != []
    ensures Flatten(FillHead(levels, levels[0].orders[0].quantity)) == Flatten(levels)[1..]
  {
    FlattenRemove(levels, 0, 0);
    assert Without(Flatten(levels), 0) == Flatten(levels)[1..];
  }

  lemma {:induction false} MatchNothing(taker: Side, limit: Price, makers: seq<Level>, quantity: Quantity)
    requires Stocked(makers) && Match(taker, limit, makers, quantity).fills == []
    ensures Match(taker, limit, makers, quantity) == Matched(makers, [], quantity)
  {
  }
}
