/** Which order ids a book holds, and that trading never adds one. */
module BookIds {
  import opened Types
  import opened PriceLevels
  import opened BookSpec
  import opened Priority

  ghost predicate HasId(levels: seq<Level>, id: OrderId) {
    exists r :: r in Flatten(levels) && r.order.id == id
  }

  lemma {:induction false} FindLevelIffHasId(levels: seq<Level>, id: OrderId)
    ensures FindLevel(levels, id).Some? <==> HasId(levels, id)
  {
    var at := FindLevel(levels, id);
    if at.Some? {
      FlattenAt(levels, at.value.0, at.value.1);
      assert Flatten(levels)[Offset(levels, at.value.0) + at.value.1].order.id == id;
    } else if HasId(levels, id) {
      var r :| r in Flatten(levels) && r.order.id == id;
      var p :| 0 <= p < |Flatten(levels)| && Flatten(levels)[p] == r;
      var i, j := FlattenIndex(levels, p);
      FlattenAt(levels, i, j);
    }
  }

  lemma {:induction false} ContainsIffHasId(b: Book, id: OrderId)
    ensures Contains(b, id) <==> HasId(b.bids, id) || HasId(b.asks, id)
  {
    FindLevelIffHasId(b.bids, id);
    FindLevelIffHasId(b.asks, id);
  }

  lemma {:induction false} WithoutMembers<T>(s: seq<T>, p: nat, x: T)
    requires p < |s| && x in Without(s, p)
    ensures x in s
  {
  }

  lemma {:induction false} RemoveIds(levels: seq<Level>, i: nat, j: nat, id: OrderId)
    requires InLevels(levels, i, j) && HasId(RemoveOrder(levels, i, j), id)
    ensures HasId(levels, id)
  {
    hide RemoveOrder, Flatten;
    var r :| r in Flatten(RemoveOrder(levels, i, j)) && r.order.id == id;
    FlattenRemove(levels, i, j);
    WithoutMembers(Flatten(levels), Offset(levels, i) + j, r);
  }

  lemma {:induction false} SetIds(levels: seq<Level>, i: nat, j: nat, order: Order, id: OrderId)
    requires InLevels(levels, i, j) && order.id == levels[i].orders[j].id && HasId(SetOrder(levels, i, j, order), id)
    ensures HasId(levels, id)
  {
    hide SetOrder, Flatten;
    var r :| r in Flatten(SetOrder(levels, i, j, order)) && r.order.id == id;
    FlattenSet(levels, i, j, order);
    FlattenAt(levels, i, j);
    if r !in Flatten(levels) {
      assert Flatten(levels)[Offset(levels, i) + j] in Flatten(levels);
    }
  }

  lemma {:induction false} FillHeadIds(levels: seq<Level>, quantity: Quantity, id: OrderId)
    requires InLevels(levels, 0, 0) && quantity <= levels[0].orders[0].quantity
    requires HasId(FillHead(levels, quantity), id)
    ensures HasId(levels, id)
  {
    hide HasId, RemoveOrder, SetOrder;
    var head := levels[0].orders[0];
    if quantity == head.quantity {
      RemoveIds(levels, 0, 0, id);
    } else {
      SetIds(levels, 0, 0, head.(quantity := head.quantity - quantity), id);
    }
  }

  lemma {:induction false} FillHeadContains(b: Book, side: Side, quantity: Quantity, id: OrderId)
    requires InLevels(b.At(side), 0, 0) && quantity <= b.At(side)[0].orders[0].quantity
    requires !Contains(b, id)
    ensures !Contains(b.With(side, FillHead(b.At(side), quantity)), id)
  {
    var c := b.With(side, FillHead(b.At(side), quantity));
    ContainsIffHasId(b, id);
    ContainsIffHasId(c, id);
    hide Contains, HasId, FillHead;
    if HasId(c.At(side), id) {
      FillHeadIds(b.At(side), quantity, id);
    }
  }
}
