/** The reference array model of the book: levels in order of arrival, found by scanning,
    matched price by price. It does what the book's specification does, except that a
    replace checks price and quantity before identity. */
module ModelBooks {
  import opened Types
  import opened PriceLevels
  import opened BookSpec
  import opened Priority

  // Levels in any order.

  predicate PricesDiffer(levels: seq<Level>) {
    forall i, j :: 0 <= i < j < |levels| ==> levels[i].price != levels[j].price
  }

  /** `x` holds the levels of the sorted side `y`, in any order. */
  ghost predicate Arranged(side: Side, x: seq<Level>, y: seq<Level>) {
    && Sorted(side, y) && PricesDiffer(x) && |x| == |y|
    && (forall i :: 0 <= i < |x| ==> x[i] in y) && (forall j :: 0 <= j < |y| ==> y[j] in x)
  }

  /** Where the sorted side keeps level `i` of the arrangement. */
  lemma {:induction false} PlaceIn(side: Side, x: seq<Level>, y: seq<Level>, i: nat)
    requires Arranged(side, x, y) && i < |x|
    ensures var j := Place(side, y, x[i].price);
            j < |y| && y[j] == x[i] && HasPrice(side, y, x[i].price)
  {
    hide Place, PricesDiffer;
    assert x[i] in y;
    var j :| 0 <= j < |y| && y[j] == x[i];
    PlaceOf(side, y, j);
  }

  lemma {:induction false} PriceHeld(side: Side, x: seq<Level>, y: seq<Level>, price: Price)
    requires Arranged(side, x, y) && HasPrice(side, y, price)
    ensures exists i :: 0 <= i < |x| && x[i].price == price
  {
    hide PricesDiffer;
    var l := y[Place(side, y, price)];
    assert l in x;
    var i :| 0 <= i < |x| && x[i] == l;
  }

  lemma {:induction false} NoPlaceIn(side: Side, x: seq<Level>, y: seq<Level>, price: Price)
    requires Arranged(side, x, y) && forall i :: 0 <= i < |x| ==> x[i].price != price
    ensures !HasPrice(side, y, price)
  {
    hide HasPrice, Arranged;
    if HasPrice(side, y, price) {
      PriceHeld(side, x, y, price);
    }
  }

  lemma {:induction false} ArrangedSet(side: Side, x: seq<Level>, y: seq<Level>, i: nat, j: nat, orders: seq<Order>)
    requires Arranged(side, x, y) && i < |x| && j < |y| && x[i] == y[j]
    ensures Arranged(side, x[i := Level(x[i].price, orders)], y[j := Level(y[j].price, orders)])
  {
    var l := Level(x[i].price, orders);
    var v, w := x[i := l], y[j := l];
    forall k | 0 <= k < |v| ensures v[k] in w {
      if k == i {
        assert w[j] == v[k];
      } else {
        assert x[k] in y;
        var m :| 0 <= m < |y| && y[m] == x[k];
        assert m != j;
        assert w[m] == v[k];
      }
    }
    forall k | 0 <= k < |w| ensures w[k] in v {
      if k == j {
        assert v[i] == w[k];
      } else {
        assert y[k] in x;
        var m :| 0 <= m < |x| && x[m] == y[k];
        assert v[m] == w[k];
      }
    }
  }

  lemma {:induction false} ArrangedDrop(side: Side, x: seq<Level>, y: seq<Level>, i: nat, j: nat)
    requires Arranged(side, x, y) && i < |x| && j < |y| && x[i] == y[j]
    ensures Arranged(side, Without(x, i), Without(y, j))
  {
    hide Sorted, PricesDiffer, Without;
    SortedDiffer(side, y);
    DropWithin(x, y, i, j);
    DropWithin(y, x, j, i);
    DropDiffers(x, i);
    DropSorted(side, y, j);
  }

  lemma {:induction false} SortedDiffer(side: Side, y: seq<Level>)
    requires Sorted(side, y)
    ensures PricesDiffer(y)
  {
  }

  lemma {:induction false} DropDiffers(x: seq<Level>, i: nat)
    requires PricesDiffer(x) && i < |x|
    ensures PricesDiffer(Without(x, i))
  {
  }

  lemma {:induction false} DropSorted(side: Side, y: seq<Level>, j: nat)
    requires Sorted(side, y) && j < |y|
    ensures Sorted(side, Without(y, j))
  {
  }

  lemma {:induction false} DropWithin(x: seq<Level>, y: seq<Level>, i: nat, j: nat)
    requires PricesDiffer(x) && (forall k :: 0 <= k < |x| ==> x[k] in y) && i < |x| && j < |y| && x[i] == y[j]
    ensures forall k :: 0 <= k < |Without(x, i)| ==> Without(x, i)[k] in Without(y, j)
  {
    var v, w := Without(x, i), Without(y, j);
    forall k | 0 <= k < |v| ensures v[k] in w {
      var k0 := if k < i then k else k + 1;
      assert x[k0] in y;
      var m :| 0 <= m < |y| && y[m] == x[k0];
      assert m != j;
      assert w[if m < j then m else m - 1] == v[k];
    }
  }

  lemma {:induction false} ArrangedAdd(side: Side, x: seq<Level>, y: seq<Level>, l: Level)
    requires Arranged(side, x, y) && forall i :: 0 <= i < |x| ==> x[i].price != l.price
    ensures Arranged(side, x + [l], InsertAt(y, Place(side, y, l.price), l))
  {
    hide Place, Sorted, PricesDiffer, InsertAt;
    var p := Place(side, y, l.price);
    NoPlaceIn(side, x, y, l.price);
    InsertedSorted(side, y, p, l);
    AddWithin(x, y, p, l);
    AddBack(x, y, p, l);
    AddDiffers(x, l);
    InsertLength(y, p, l);
  }

  lemma {:induction false} InsertLength(y: seq<Level>, p: nat, l: Level)
    requires p <= |y|
    ensures |InsertAt(y, p, l)| == |y| + 1
  {
  }

  lemma {:induction false} AddDiffers(x: seq<Level>, l: Level)
    requires PricesDiffer(x) && forall i :: 0 <= i < |x| ==> x[i].price != l.price
    ensures PricesDiffer(x + [l])
  {
  }

  lemma {:induction false} AddBack(x: seq<Level>, y: seq<Level>, p: nat, l: Level)
    requires (forall k :: 0 <= k < |y| ==> y[k] in x) && p <= |y|
    ensures forall k :: 0 <= k < |InsertAt(y, p, l)| ==> InsertAt(y, p, l)[k] in x + [l]
  {
    var w := InsertAt(y, p, l);
    forall k | 0 <= k < |w| ensures w[k] in x + [l] {
      if k == p {
        assert w[k] == l;
      } else {
        assert w[k] == y[if k < p then k else k - 1];
      }
    }
  }

  lemma {:induction false} AddWithin(x: seq<Level>, y: seq<Level>, p: nat, l: Level)
    requires (forall k :: 0 <= k < |x| ==> x[k] in y) && p <= |y|
    ensures forall k :: 0 <= k < |x + [l]| ==> (x + [l])[k] in InsertAt(y, p, l)
  {
    var v, w := x + [l], InsertAt(y, p, l);
    forall k | 0 <= k < |v| ensures v[k] in w {
      if k == |x| {
        assert w[p] == l;
      } else {
        assert x[k] in y;
        var m :| 0 <= m < |y| && y[m] == x[k];
        assert w[if m < p then m else m + 1] == v[k];
      }
    }
  }

  lemma {:induction false} InsertedSorted(side: Side, y: seq<Level>, p: nat, l: Level)
    requires Sorted(side, y) && p == Place(side, y, l.price) && !HasPrice(side, y, l.price)
    ensures Sorted(side, InsertAt(y, p, l))
  {
  }

  // Prices, best first.

  predicate BestFirst(side: Side, prices: seq<Price>) {
    forall i, j :: 0 <= i < j < |prices| ==> Better(side, prices[i], prices[j])
  }

  /** Prices of the levels a taker crosses: a prefix of the sorted side. */
  function Crossing(taker: Side, limit: Price, y: seq<Level>): (prices: seq<Price>)
    ensures |prices| <= |y| && forall k :: 0 <= k < |prices| ==> prices[k] == y[k].price && Crosses(taker, limit, prices[k])
    ensures |prices| < |y| ==> !Crosses(taker, limit, y[|prices|].price)
  {
    if y == [] || !Crosses(taker, limit, y[0].price) then [] else [y[0].price] + Crossing(taker, limit, y[1..])
  }

  function InsertPrice(side: Side, p: Price, sorted: seq<Price>): seq<Price> {
    if sorted == [] || Better(side, p, sorted[0]) then [p] + sorted else [sorted[0]] + InsertPrice(side, p, sorted[1..])
  }

  function SortPrices(side: Side, prices: seq<Price>): seq<Price> {
    if prices == [] then [] else InsertPrice(side, prices[0], SortPrices(side, prices[1..]))
  }

  lemma {:induction false} InsertPriceSorts(side: Side, p: Price, sorted: seq<Price>)
    requires BestFirst(side, sorted) && p !in sorted
    ensures BestFirst(side, InsertPrice(side, p, sorted))
    ensures forall q :: q in InsertPrice(side, p, sorted) <==> q == p || q in sorted
    decreases |sorted|
  {
    if sorted != [] && !Better(side, p, sorted[0]) {
      var rest := InsertPrice(side, p, sorted[1..]);
      assert sorted == [sorted[0]] + sorted[1..];
      InsertPriceSorts(side, p, sorted[1..]);
      assert forall q :: q in sorted[1..] ==> Better(side, sorted[0], q);
      forall j | 0 <= j < |rest| ensures Better(side, sorted[0], rest[j]) {
        assert rest[j] in rest;
      }
    } else {
      assert forall q :: q in [p] + sorted <==> q == p || q in sorted;
    }
  }

  lemma {:induction false} SortPricesSorts(side: Side, prices: seq<Price>)
    requires forall i, j :: 0 <= i < j < |prices| ==> prices[i] != prices[j]
    ensures BestFirst(side, SortPrices(side, prices))
    ensures forall q :: q in SortPrices(side, prices) <==> q in prices
    decreases |prices|
  {
    if prices != [] {
      forall i, j | 0 <= i < j < |prices[1..]| ensures prices[1..][i] != prices[1..][j] {
        assert prices[i + 1] != prices[j + 1];
      }
      SortPricesSorts(side, prices[1..]);
      assert prices[0] !in prices[1..];
      assert prices[0] !in SortPrices(side, prices[1..]);
      InsertPriceSorts(side, prices[0], SortPrices(side, prices[1..]));
      assert prices == [prices[0]] + prices[1..];
    }
  }

  /** A set of prices has one best-first order. */
  lemma {:induction false} OneOrder(side: Side, a: seq<Price>, b: seq<Price>)
    requires BestFirst(side, a) && BestFirst(side, b) && (forall q :: q in a <==> q in b)
    ensures a == b
    decreases |a|
  {
    NoneInBoth(a, b);
    if a != [] {
      FirstPriceSame(side, a, b);
      TailMembers(side, a);
      TailMembers(side, b);
      OneOrder(side, a[1..], b[1..]);
      assert a == [a[0]] + a[1..] && b == [b[0]] + b[1..];
    }
  }

  lemma {:induction false} NoneInBoth(a: seq<Price>, b: seq<Price>)
    requires forall q :: q in a <==> q in b
    ensures a == [] <==> b == []
  {
    if a != [] {
      assert a[0] in b;
    }
    if b != [] {
      assert b[0] in a;
    }
  }

  lemma {:induction false} FirstPriceSame(side: Side, a: seq<Price>, b: seq<Price>)
    requires BestFirst(side, a) && BestFirst(side, b) && (forall q :: q in a <==> q in b) && a != [] && b != []
    ensures a[0] == b[0]
  {
    assert a[0] in a && b[0] in b;
    var i :| 0 <= i < |b| && b[i] == a[0];
    var j :| 0 <= j < |a| && a[j] == b[0];
  }

  lemma {:induction false} TailMembers(side: Side, a: seq<Price>)
    requires BestFirst(side, a) && a != []
    ensures BestFirst(side, a[1..]) && forall q :: q in a[1..] <==> q in a && q != a[0]
  {
    assert a == [a[0]] + a[1..];
    forall k | 0 <= k < |a[1..]| ensures a[1..][k] != a[0] {
      assert Better(side, a[0], a[k + 1]);
    }
  }

  lemma {:induction false} CrossingSorted(taker: Side, limit: Price, y: seq<Level>)
    requires Sorted(taker.Opposite(), y)
    ensures BestFirst(taker.Opposite(), Crossing(taker, limit, y))
    ensures forall q :: q in Crossing(taker, limit, y) <==> exists k :: 0 <= k < |y| && y[k].price == q && Crosses(taker, limit, q)
  {
    var c := Crossing(taker, limit, y);
    forall k | 0 <= k < |y| && Crosses(taker, limit, y[k].price) ensures y[k].price in c {
      CrossingReaches(taker, limit, y, k);
      assert c[k] == y[k].price;
    }
  }

  /** Every crossing level is in the crossing prefix. */
  lemma {:induction false} CrossingReaches(taker: Side, limit: Price, y: seq<Level>, k: nat)
    requires Sorted(taker.Opposite(), y) && k < |y| && Crosses(taker, limit, y[k].price)
    ensures k < |Crossing(taker, limit, y)|
    decreases k
  {
    assert k > 0 ==> Better(taker.Opposite(), y[0].price, y[k].price);
    if k > 0 {
      CrossingReaches(taker, limit, y[1..], k - 1);
    }
  }

  // Where an id rests, by scanning.

  ghost predicate RestsIn(x: seq<Level>, id: OrderId) {
    exists i :: 0 <= i < |x| && FindOrder(x[i].orders, id).Some?
  }

  lemma {:induction false} SideHolds(side: Side, x: seq<Level>, y: seq<Level>, id: OrderId)
    requires Arranged(side, x, y)
    ensures RestsIn(x, id) <==> FindLevel(y, id).Some?
  {
    hide FindLevel, FindOrder, Sorted, PricesDiffer;
    if RestsIn(x, id) {
      var i :| 0 <= i < |x| && FindOrder(x[i].orders, id).Some?;
      assert x[i] in y;
      var j :| 0 <= j < |y| && y[j] == x[i];
      assert InLevels(y, j, FindOrder(x[i].orders, id).value);
    }
    if FindLevel(y, id).Some? {
      var at := FindLevel(y, id).value;
      assert y[at.0] in x;
      var i :| 0 <= i < |x| && x[i] == y[at.0];
      assert FindOrder(x[i].orders, id).Some?;
    }
  }

  // Walking the crossing levels without touching them.

  ghost predicate Walking(taker: Side, limit: Price, list: seq<Resting>, quantity: Quantity, rest: seq<Resting>, remaining: Quantity, count: nat) {
    && |Trades(taker, limit, list, quantity)| == count + |Trades(taker, limit, rest, remaining)|
    && quantity - Traded(Trades(taker, limit, list, quantity)) == remaining - Traded(Trades(taker, limit, rest, remaining))
  }

  lemma {:induction false} WalkStep(taker: Side, limit: Price, list: seq<Resting>, quantity: Quantity, rest: seq<Resting>, remaining: Quantity, count: nat)
    requires Walking(taker, limit, list, quantity, rest, remaining, count)
    requires remaining > 0 && rest != [] && Crosses(taker, limit, rest[0].price)
    ensures Walking(taker, limit, list, quantity, rest[1..], remaining - Min(remaining, rest[0].order.quantity), count + 1)
  {
    var traded := Min(remaining, rest[0].order.quantity);
    var more := Trades(taker, limit, rest[1..], remaining - traded);
    var fills := Trades(taker, limit, rest, remaining);
    assert fills == [Fill(rest[0].order.id, rest[0].price, traded)] + more;
    assert fills[1..] == more;
  }

  /** What is left to walk from the `j`-th order of the `k`-th level on. */
  function RestFrom(y: seq<Level>, k: nat, j: nat): seq<Resting>
    requires k < |y| && j <= |y[k].orders|
  {
    AtPrice(y[k].price, y[k].orders[j..]) + Flatten(y[k + 1..])
  }

  lemma {:induction false} RestStarts(y: seq<Level>, k: nat)
    requires k < |y|
    ensures RestFrom(y, k, 0) == Flatten(y[k..])
  {
    assert y[k..] == [y[k]] + y[k + 1..];
    assert y[k].orders[0..] == y[k].orders;
    FlattenSplit(y[k..], y[k], y[k + 1..]);
  }

  lemma {:induction false} RestStep(y: seq<Level>, k: nat, j: nat)
    requires k < |y| && j < |y[k].orders|
    ensures RestFrom(y, k, j) != [] && RestFrom(y, k, j)[0] == Resting(y[k].price, y[k].orders[j])
    ensures RestFrom(y, k, j)[1..] == RestFrom(y, k, j + 1)
  {
    hide Flatten;
    var orders := y[k].orders;
    assert AtPrice(y[k].price, orders[j..])[1..] == AtPrice(y[k].price, orders[j + 1..]);
  }

  lemma {:induction false} RestEnds(y: seq<Level>, k: nat)
    requires k < |y|
    ensures RestFrom(y, k, |y[k].orders|) == Flatten(y[k + 1..])
  {
    hide Flatten;
    assert y[k].orders[|y[k].orders|..] == [];
    assert AtPrice(y[k].price, []) + Flatten(y[k + 1..]) == Flatten(y[k + 1..]);
  }

  /** Beyond the crossing levels nobody trades. */
  lemma {:induction false} WalkEnds(taker: Side, limit: Price, y: seq<Level>, k: nat, remaining: Quantity)
    requires Stocked(y) && k == |Crossing(taker, limit, y)|
    ensures Trades(taker, limit, Flatten(y[k..]), remaining) == []
  {
    if k < |y| {
      assert StockedLevel(y[k]);
      RestStarts(y, k);
      RestStep(y, k, 0);
    } else {
      assert y[k..] == [];
    }
  }

  // Matching level by level.

  /** Matching from the start is matching from here, after `fills`. */
  ghost predicate Matching(taker: Side, limit: Price, y0: seq<Level>, quantity: Quantity, fills: seq<Fill>, y: seq<Level>, remaining: Quantity) {
    && Stocked(y0) && Stocked(y)
    && var m := Match(taker, limit, y, remaining);
    Match(taker, limit, y0, quantity) == m.(fills := fills + m.fills)
  }

  lemma {:induction false} MatchStart(taker: Side, limit: Price, y: seq<Level>, quantity: Quantity)
    requires Stocked(y)
    ensures Matching(taker, limit, y, quantity, [], y, quantity)
  {
    hide Match, Stocked;
    assert [] + Match(taker, limit, y, quantity).fills == Match(taker, limit, y, quantity).fills;
  }

  lemma {:induction false} MatchStep(taker: Side, limit: Price, y0: seq<Level>, quantity: Quantity, fills: seq<Fill>, y: seq<Level>, remaining: Quantity)
    requires Matching(taker, limit, y0, quantity, fills, y, remaining)
    requires remaining > 0 && InLevels(y, 0, 0) && Crosses(taker, limit, y[0].price)
    ensures var head := y[0].orders[0];
            var traded := Min(remaining, head.quantity);
            Matching(taker, limit, y0, quantity, fills + [Fill(head.id, y[0].price, traded)], FillHead(y, traded), remaining - traded)
  {
    hide Stocked, FillHead;
    var head := y[0].orders[0];
    var traded := Min(remaining, head.quantity);
    FillHeadStocked(y, traded);
    var m := Match(taker, limit, FillHead(y, traded), remaining - traded);
    var f := Fill(head.id, y[0].price, traded);
    assert Match(taker, limit, y, remaining) == m.(fills := [f] + m.fills);
    assert fills + ([f] + m.fills) == (fills + [f]) + m.fills;
  }

  lemma {:induction false} MatchEnds(taker: Side, limit: Price, y0: seq<Level>, quantity: Quantity, fills: seq<Fill>, y: seq<Level>, remaining: Quantity)
    requires Matching(taker, limit, y0, quantity, fills, y, remaining)
    requires remaining == 0 || Crossing(taker, limit, y) == []
    ensures Stocked(y0) && Match(taker, limit, y0, quantity) == Matched(y, fills, remaining)
  {
    hide Stocked;
    assert fills + [] == fills;
  }

  /** The sorted side while the best level's queue is being consumed. */
  function Consumed(price: Price, queue: seq<Order>, tail: seq<Level>): seq<Level> {
    if queue == [] then tail else [Level(price, queue)] + tail
  }

  lemma {:induction false} ConsumeStep(price: Price, queue: seq<Order>, tail: seq<Level>, traded: Quantity)
    requires queue != [] && traded <= queue[0].quantity
    ensures InLevels(Consumed(price, queue, tail), 0, 0) && Consumed(price, queue, tail)[0] == Level(price, queue)
    ensures FillHead(Consumed(price, queue, tail), traded) ==
              Consumed(price, if traded == queue[0].quantity then queue[1..] else queue[0 := queue[0].(quantity := queue[0].quantity - traded)], tail)
  {
    var y := Consumed(price, queue, tail);
    assert y[0] == Level(price, queue);
    if traded == queue[0].quantity {
      if |queue| == 1 {
        assert Without(y, 0) == tail;
      } else {
        assert Without(queue, 0) == queue[1..];
        assert y[0 := Level(price, queue[1..])] == [Level(price, queue[1..])] + tail;
      }
    } else {
      var queue2 := queue[0 := queue[0].(quantity := queue[0].quantity - traded)];
      assert y[0 := Level(price, queue2)] == [Level(price, queue2)] + tail;
    }
  }

  datatype ModelOutcome = ModelOutcome(state: OrderState, filled: Quantity, resting: Quantity, discarded: Quantity, fills: seq<Fill>)

  /** What the model says of a completed submission. */
  function OutcomeOf(done: Submitted): ModelOutcome {
    ModelOutcome(done.summary.state, done.summary.filled, done.summary.resting, done.summary.discarded, done.fills)
  }

  lemma {:induction false} SamePrices(taker: Side, limit: Price, x: seq<Level>, y: seq<Level>)
    requires Arranged(taker.Opposite(), x, y)
    ensures forall q :: (exists k :: 0 <= k < |x| && x[k].price == q && Crosses(taker, limit, q)) <==>
                        (exists k :: 0 <= k < |y| && y[k].price == q && Crosses(taker, limit, q))
  {
    forall q | exists k :: 0 <= k < |x| && x[k].price == q && Crosses(taker, limit, q)
      ensures exists k :: 0 <= k < |y| && y[k].price == q && Crosses(taker, limit, q)
    {
      var k :| 0 <= k < |x| && x[k].price == q;
      assert x[k] in y;
      var j :| 0 <= j < |y| && y[j] == x[k];
    }
    forall q | exists k :: 0 <= k < |y| && y[k].price == q && Crosses(taker, limit, q)
      ensures exists k :: 0 <= k < |x| && x[k].price == q && Crosses(taker, limit, q)
    {
      var k :| 0 <= k < |y| && y[k].price == q;
      assert y[k] in x;
      var j :| 0 <= j < |x| && x[j] == y[k];
    }
  }

  lemma {:induction false} WalkBegins(taker: Side, limit: Price, list: seq<Resting>, quantity: Quantity)
    ensures Walking(taker, limit, list, quantity, list, quantity, 0)
  {
  }

  lemma {:induction false} WalkDone(taker: Side, limit: Price, list: seq<Resting>, quantity: Quantity, rest: seq<Resting>, remaining: Quantity, count: nat)
    requires Walking(taker, limit, list, quantity, rest, remaining, count)
    requires remaining == 0 || Trades(taker, limit, rest, remaining) == []
    ensures |Trades(taker, limit, list, quantity)| == count && quantity - Traded(Trades(taker, limit, list, quantity)) == remaining
  {
  }

  lemma {:induction false} CrossingFits(taker: Side, limit: Price, y: seq<Level>)
    ensures |Crossing(taker, limit, y)| <= |y|
  {
  }

  lemma {:induction false} CrossingHead(taker: Side, limit: Price, y: seq<Level>)
    ensures Crossing(taker, limit, y) == [] <==> y == [] || !Crosses(taker, limit, y[0].price)
  {
  }

  /** Scanning for the price of the `k`-th best level finds that level. */
  lemma {:induction false} FoundPlace(side: Side, x: seq<Level>, y: seq<Level>, k: nat, found: Option<nat>)
    requires Arranged(side, x, y) && k < |y|
    requires found.Some? ==> found.value < |x| && x[found.value].price == y[k].price
    requires found.None? ==> forall i :: 0 <= i < |x| ==> x[i].price != y[k].price
    ensures found.Some? && found.value < |x| && x[found.value] == y[k]
  {
    hide Place, HasPrice, Arranged;
    ArrangedSorted(side, x, y);
    PlaceOf(side, y, k);
    if found.None? {
      NoPlaceIn(side, x, y, y[k].price);
    } else {
      PlaceIn(side, x, y, found.value);
    }
  }

  lemma {:induction false} ArrangedSorted(side: Side, x: seq<Level>, y: seq<Level>)
    requires Arranged(side, x, y)
    ensures Sorted(side, y)
  {
  }

  lemma {:induction false} SameLevelCount(side: Side, x: seq<Level>, y: seq<Level>)
    requires Arranged(side, x, y)
    ensures |x| == |y|
  {
  }

  lemma {:induction false} BothHold(bids: seq<Level>, asks: seq<Level>, b: Book, id: OrderId)
    requires Arranged(Buy, bids, b.bids) && Arranged(Sell, asks, b.asks)
    ensures Contains(b, id) <==> RestsIn(bids, id) || RestsIn(asks, id)
  {
    hide FindLevel, RestsIn, Arranged;
    SideHolds(Buy, bids, b.bids, id);
    SideHolds(Sell, asks, b.asks, id);
  }

  lemma {:induction false} HeadPositive(order: NewOrder, y0: seq<Level>, fills: seq<Fill>, price: Price, queue: seq<Order>, tail: seq<Level>, remaining: Quantity)
    requires Matching(order.side, order.price, y0, order.quantity, fills, Consumed(price, queue, tail), remaining) && queue != []
    ensures queue[0].quantity > 0
  {
    hide Match;
    assert StockedLevel(Consumed(price, queue, tail)[0]);
  }

  lemma {:induction false} BestStocked(order: NewOrder, y0: seq<Level>, fills: seq<Fill>, y: seq<Level>, remaining: Quantity)
    requires Matching(order.side, order.price, y0, order.quantity, fills, y, remaining) && y != []
    ensures y[0].orders != []
  {
    hide Match;
    assert StockedLevel(y[0]);
  }

  lemma {:induction false} ConsumedAll(price: Price, tail: seq<Level>)
    ensures Consumed(price, [], tail) == tail
  {
  }

  lemma {:induction false} CrossingTail(taker: Side, limit: Price, y: seq<Level>)
    ensures Crossing(taker, limit, y) != [] ==>
              y != [] && Crosses(taker, limit, y[0].price) && Crossing(taker, limit, y)[0] == y[0].price
              && Crossing(taker, limit, y)[1..] == Crossing(taker, limit, y[1..])
  {
  }

  lemma {:induction false} WholeLevel(y: seq<Level>)
    requires y != []
    ensures y == [Level(y[0].price, y[0].orders)] + y[1..]
  {
  }

  lemma {:induction false} HeadQueue(y: seq<Level>)
    requires y != []
    ensures y[0].orders != [] ==> Consumed(y[0].price, y[0].orders, y[1..]) == y
  {
    WholeLevel(y);
  }

  /** Writing a drained queue back, or dropping its level, follows the sorted side. */
  lemma {:induction false} AfterDrain(side: Side, x: seq<Level>, y: seq<Level>, position: nat, queue: seq<Order>)
    requires Arranged(side, x, y) && y != [] && position < |x| && x[position] == y[0]
    ensures Arranged(side, if queue == [] then Without(x, position) else x[position := Level(x[position].price, queue)],
                     Consumed(y[0].price, queue, y[1..]))
  {
    hide Arranged;
    if queue == [] {
      ArrangedDrop(side, x, y, position, 0);
      assert Without(y, 0) == y[1..];
    } else {
      ArrangedSet(side, x, y, position, 0, queue);
      assert y[0 := Level(y[0].price, queue)] == [Level(y[0].price, queue)] + y[1..];
    }
  }

  lemma {:induction false} FoundThere(b: Book, p: Position)
    requires UniqueIds(b) && InLevels(b.At(p.side), p.level, p.place)
    ensures Locate(b, OrderOf(b, p).id) == Some(p)
  {
    hide Locate;
  }

  lemma {:induction false} LocatedPlace(b: Book, id: OrderId)
    ensures Locate(b, id).Some? ==> var p := Locate(b, id).value; InLevels(b.At(p.side), p.level, p.place)
  {
  }

  /** A level no other is better than is the head of the sorted side. */
  lemma {:induction false} LeastIsHead(side: Side, x: seq<Level>, y: seq<Level>, best: nat)
    requires Arranged(side, x, y) && best < |x| && forall j :: 0 <= j < |x| ==> !Better(side, x[j].price, x[best].price)
    ensures y != [] && x[best].price == y[0].price
  {
    hide PricesDiffer;
    assert x[best] in y;
    var j :| 0 <= j < |y| && y[j] == x[best];
    assert y[0] in x;
    var i :| 0 <= i < |x| && x[i] == y[0];
    assert j > 0 ==> Better(side, y[0].price, y[j].price);
  }

  lemma {:induction false} OwnPlace(side: Side, x: seq<Level>, y: seq<Level>, i: nat, j: nat)
    requires Arranged(side, x, y) && i < |x| && j < |y| && x[i] == y[j]
    ensures Place(side, y, x[i].price) == j
  {
    hide PricesDiffer;
    PlaceOf(side, y, j);
  }

  /** Same place in the arrangement, same place in the sorted side. */
  lemma {:induction false} SameDestination(side: Side, x: seq<Level>, y: seq<Level>, i: nat, d: nat, j: nat)
    requires Arranged(side, x, y) && i < |x| && d < |x| && j < |y| && x[i] == y[j]
    ensures d == i <==> Place(side, y, x[d].price) == j
  {
    OwnPlace(side, x, y, i, j);
    PlaceIn(side, x, y, d);
    hide Place, Sorted;
  }

  class ModelBook {
    var bids: seq<Level>
    var asks: seq<Level>

    function At(side: Side): seq<Level>
      reads this
    {
      if side == Buy then bids else asks
    }

    /** The model holds the levels of `b`, in any order. */
    ghost predicate Mirrors(b: Book)
      reads this
    {
      Arranged(Buy, bids, b.bids) && Arranged(Sell, asks, b.asks)
    }

    constructor ()
      ensures Mirrors(Book([], []))
    {
      bids := [];
      asks := [];
    }

    method SetSide(side: Side, levels: seq<Level>)
      modifies this
      ensures At(side) == levels && At(side.Opposite()) == old(At(side.Opposite()))
    {
      if side == Buy {
        bids := levels;
      } else {
        asks := levels;
      }
    }

    /** The level at a price, by scanning. */
    method FindPrice(side: Side, price: Price) returns (r: Option<nat>)
      ensures r.Some? ==> r.value < |At(side)| && At(side)[r.value].price == price
      ensures r.None? ==> forall i :: 0 <= i < |At(side)| ==> At(side)[i].price != price
    {
      for i := 0 to |At(side)|
        invariant forall j :: 0 <= j < i ==> At(side)[j].price != price
      {
        if At(side)[i].price == price {
          return Some(i);
        }
      }
      r := None;
    }

    /** The level whose queue holds an id, by scanning. */
    method FindIn(side: Side, id: OrderId) returns (r: Option<nat>)
      ensures r.Some? ==> r.value < |At(side)| && FindOrder(At(side)[r.value].orders, id).Some?
      ensures r.None? <==> !RestsIn(At(side), id)
    {
      for i := 0 to |At(side)|
        invariant forall j :: 0 <= j < i ==> FindOrder(At(side)[j].orders, id).None?
      {
        if FindOrder(At(side)[i].orders, id).Some? {
          return Some(i);
        }
      }
      r := None;
    }

    /** Prices a taker crosses, best first. */
    method CrossingPrices(taker: Side, limit: Price, ghost y: seq<Level>) returns (prices: seq<Price>)
      requires Arranged(taker.Opposite(), At(taker.Opposite()), y)
      ensures prices == Crossing(taker, limit, y)
    {
      hide Sorted, Crossing, SortPrices;
      var levels := At(taker.Opposite());
      var found: seq<Price> := [];
      for i := 0 to |levels|
        invariant forall j, k :: 0 <= j < k < |found| ==> found[j] != found[k]
        invariant forall q :: q in found <==> exists k :: 0 <= k < i && levels[k].price == q && Crosses(taker, limit, q)
      {
        if Crosses(taker, limit, levels[i].price) {
          found := found + [levels[i].price];
        }
      }
      prices := SortPrices(taker.Opposite(), found);
      SortPricesSorts(taker.Opposite(), found);
      CrossingSorted(taker, limit, y);
      SamePrices(taker, limit, levels, y);
      OneOrder(taker.Opposite(), prices, Crossing(taker, limit, y));
    }

    /** Walks the crossing levels without touching them: how many makers a submission
        would trade with, and what it would leave. */
    method Simulate(order: NewOrder, crossing: seq<Price>, ghost y: seq<Level>) returns (count: nat, remaining: Quantity)
      requires Arranged(order.side.Opposite(), At(order.side.Opposite()), y) && Stocked(y)
      requires crossing == Crossing(order.side, order.price, y)
      ensures var m := Match(order.side, order.price, y, order.quantity);
              count == |m.fills| && remaining == m.remaining
    {
      hide Match, Trades, Traded, Flatten, Walking, RestFrom, Stocked, Arranged, Crossing;
      var maker := order.side.Opposite();
      ghost var list := Flatten(y);
      count, remaining := 0, order.quantity;
      WalkBegins(order.side, order.price, list, order.quantity);
      assert y[0..] == y;
      CrossingFits(order.side, order.price, y);
      var k := 0;
      while k < |crossing|
        invariant 0 <= k <= |crossing| <= |y|
        invariant Walking(order.side, order.price, list, order.quantity, Flatten(y[k..]), remaining, count)
      {
        var position := FindPrice(maker, crossing[k]);
        FoundPlace(maker, At(maker), y, k, position);
        var queue := At(maker)[position.value].orders;
        RestStarts(y, k);
        var j := 0;
        while j < |queue| && remaining > 0
          invariant 0 <= j <= |queue| && queue == y[k].orders
          invariant Walking(order.side, order.price, list, order.quantity, RestFrom(y, k, j), remaining, count)
        {
          RestStep(y, k, j);
          WalkStep(order.side, order.price, list, order.quantity, RestFrom(y, k, j), remaining, count);
          remaining := remaining - Min(remaining, queue[j].quantity);
          count := count + 1;
          j := j + 1;
        }
        if remaining == 0 {
          WalkDone(order.side, order.price, list, order.quantity, RestFrom(y, k, j), remaining, count);
          MatchIsWalk(order.side, order.price, y, order.quantity);
          return;
        }
        RestEnds(y, k);
        k := k + 1;
      }
      WalkEnds(order.side, order.price, y, k, remaining);
      WalkDone(order.side, order.price, list, order.quantity, Flatten(y[k..]), remaining, count);
      MatchIsWalk(order.side, order.price, y, order.quantity);
    }

    /** Whether there is room to rest at a price. */
    method OwnRejection(side: Side, price: Price, shape: Shape, ghost y: seq<Level>) returns (r: Option<RejectReason>)
      requires Arranged(side, At(side), y)
      ensures r == RestRejection(side, y, price, shape)
    {
      hide Arranged, HasPrice;
      SameLevelCount(side, At(side), y);
      var at := FindPrice(side, price);
      match at {
        case Some(i) =>
          PlaceIn(side, At(side), y, i);
          if |At(side)[i].orders| == shape.orders {
            return Some(PriceLevelOrderCapacity);
          }
        case None =>
          NoPlaceIn(side, At(side), y, price);
          if |At(side)| == shape.levels {
            return Some(PriceLevelCapacity);
          }
      }
      r := None;
    }

    /** Decides a submission on the untouched book: the reason to refuse, or the prices to sweep. */
    method Plan(order: NewOrder, room: nat, shape: Shape, ghost b: Book) returns (r: Result<seq<Price>, RejectReason>)
      requires Mirrors(b) && StockedBook(b)
      ensures match SubmitOrder(b, shape, order.instrument, order, room)
              case Err(e) => r == Err(e)
              case Ok(_) => r == Ok(Crossing(order.side, order.price, b.At(order.side.Opposite())))
    {
      hide Match, Stocked, Arranged, Crossing, RestRejection, Locate, AddOrder, RestsIn;
      if order.price <= 0 {
        return Err(InvalidPrice);
      }
      if order.quantity == 0 {
        return Err(InvalidQuantity);
      }
      var inBids := FindIn(Buy, order.orderId);
      var inAsks := FindIn(Sell, order.orderId);
      BothHold(bids, asks, b, order.orderId);
      if inBids.Some? || inAsks.Some? {
        return Err(DuplicateOrderId);
      }
      ghost var y := b.At(order.side.Opposite());
      var crossing := CrossingPrices(order.side, order.price, y);
      CrossingHead(order.side, order.price, y);
      if order.tif == PostOnly && crossing != [] {
        return Err(PostOnlyWouldTrade);
      }
      var count, remaining := Simulate(order, crossing, y);
      if count > room {
        return Err(ReportCapacity);
      }
      if order.tif == Fok && remaining > 0 {
        return Err(InsufficientLiquidity);
      }
      if Rests(order.tif) && remaining > 0 {
        var refused := OwnRejection(order.side, order.price, shape, b.At(order.side));
        if refused.Some? {
          return Err(refused.value);
        }
      }
      r := Ok(crossing);
    }

    /** Takes quantity from one queue, oldest first. */
    static method Drain(order: NewOrder, price: Price, queue0: seq<Order>, remaining0: Quantity, fills0: seq<Fill>,
                        ghost y0: seq<Level>, ghost tail: seq<Level>) returns (queue: seq<Order>, remaining: Quantity, fills: seq<Fill>)
      requires Crosses(order.side, order.price, price)
      requires Matching(order.side, order.price, y0, order.quantity, fills0, Consumed(price, queue0, tail), remaining0)
      ensures Matching(order.side, order.price, y0, order.quantity, fills, Consumed(price, queue, tail), remaining)
      ensures remaining == 0 || queue == []
    {
      hide Matching, Consumed, FillHead;
      queue, remaining, fills := queue0, remaining0, fills0;
      while remaining > 0 && queue != []
        invariant Matching(order.side, order.price, y0, order.quantity, fills, Consumed(price, queue, tail), remaining)
        decreases remaining
      {
        var front := queue[0];
        HeadPositive(order, y0, fills, price, queue, tail, remaining);
        var traded := Min(remaining, front.quantity);
        ConsumeStep(price, queue, tail, traded);
        MatchStep(order.side, order.price, y0, order.quantity, fills, Consumed(price, queue, tail), remaining);
        fills := fills + [Fill(front.id, price, traded)];
        remaining := remaining - traded;
        queue := if traded == front.quantity then queue[1..] else queue[0 := front.(quantity := front.quantity - traded)];
      }
    }

    /** Sweeps the crossing prices, best first, dropping each level it empties. */
    method Sweep(order: NewOrder, crossing: seq<Price>, ghost y0: seq<Level>)
      returns (remaining: Quantity, fills: seq<Fill>, ghost y: seq<Level>)
      requires Arranged(order.side.Opposite(), At(order.side.Opposite()), y0) && Stocked(y0)
      requires crossing == Crossing(order.side, order.price, y0)
      modifies this
      ensures Match(order.side, order.price, y0, order.quantity) == Matched(y, fills, remaining)
      ensures Arranged(order.side.Opposite(), At(order.side.Opposite()), y) && At(order.side) == old(At(order.side))
    {
      hide Matching, Match, Stocked, Arranged, Crossing, Consumed;
      var maker := order.side.Opposite();
      remaining, fills, y := order.quantity, [], y0;
      MatchStart(order.side, order.price, y0, order.quantity);
      assert crossing[0..] == crossing;
      var k := 0;
      while k < |crossing| && remaining > 0
        invariant 0 <= k <= |crossing| && At(order.side) == old(At(order.side))
        invariant Arranged(maker, At(maker), y)
        invariant Matching(order.side, order.price, y0, order.quantity, fills, y, remaining)
        invariant remaining > 0 ==> Crossing(order.side, order.price, y) == crossing[k..]
      {
        CrossingTail(order.side, order.price, y);
        var found := FindPrice(maker, crossing[k]);
        FoundPlace(maker, At(maker), y, 0, found);
        var position := found.value;
        var level := At(maker)[position];
        ghost var tail := y[1..];
        BestStocked(order, y0, fills, y, remaining);
        HeadQueue(y);
        var queue: seq<Order>;
        queue, remaining, fills := Drain(order, level.price, level.orders, remaining, fills, y0, tail);
        AfterDrain(maker, At(maker), y, position, queue);
        if queue == [] {
          SetSide(maker, Without(At(maker), position));
        } else {
          SetSide(maker, At(maker)[position := Level(level.price, queue)]);
        }
        ConsumedAll(level.price, tail);
        assert crossing[k..][1..] == crossing[k + 1..];
        y := Consumed(level.price, queue, tail);
        k := k + 1;
      }
      if remaining > 0 {
        assert crossing[k..] == [];
      }
      MatchEnds(order.side, order.price, y0, order.quantity, fills, y, remaining);
    }

    /** Rests an order behind the others at its price, in a new level at the end if there is none. */
    method Append(side: Side, price: Price, order: Order, ghost y: seq<Level>)
      requires Arranged(side, At(side), y)
      modifies this
      ensures Arranged(side, At(side), AddOrder(side, y, price, order)) && At(side.Opposite()) == old(At(side.Opposite()))
    {
      hide Arranged, HasPrice;
      var at := FindPrice(side, price);
      match at {
        case Some(i) =>
          PlaceIn(side, At(side), y, i);
          ArrangedSet(side, At(side), y, i, Place(side, y, price), At(side)[i].orders + [order]);
          SetSide(side, At(side)[i := Level(price, At(side)[i].orders + [order])]);
        case None =>
          NoPlaceIn(side, At(side), y, price);
          ArrangedAdd(side, At(side), y, Level(price, [order]));
          SetSide(side, At(side) + [Level(price, [order])]);
      }
    }

    /** Takes one order out of its queue, and its level with it if it was the last. */
    method TakeOut(side: Side, position: nat, place: nat, ghost y: seq<Level>, ghost j: nat)
      requires Arranged(side, At(side), y) && position < |At(side)| && j < |y| && At(side)[position] == y[j]
      requires place < |At(side)[position].orders|
      modifies this
      ensures Arranged(side, At(side), RemoveOrder(y, j, place)) && At(side.Opposite()) == old(At(side.Opposite()))
    {
      hide Arranged;
      var level := At(side)[position];
      var queue := Without(level.orders, place);
      if queue == [] {
        ArrangedDrop(side, At(side), y, position, j);
        SetSide(side, Without(At(side), position));
      } else {
        ArrangedSet(side, At(side), y, position, j, queue);
        SetSide(side, At(side)[position := Level(level.price, queue)]);
      }
    }

    /** Submits one order: the same answer and fills as the book, and the same levels after. */
    method Submit(order: NewOrder, room: nat, shape: Shape, ghost b: Book) returns (r: Result<ModelOutcome, RejectReason>)
      requires Mirrors(b) && StockedBook(b)
      modifies this
      ensures match SubmitOrder(b, shape, order.instrument, order, room)
              case Err(e) => r == Err(e) && Mirrors(b) && bids == old(bids) && asks == old(asks)
              case Ok(done) => r == Ok(OutcomeOf(done)) && Mirrors(done.book)
    {
      hide Match, Stocked, Arranged, Crossing, RestRejection, Validate, AddOrder;
      var plan := Plan(order, room, shape, b);
      if plan.Err? {
        return Err(plan.error);
      }
      var maker := order.side.Opposite();
      var remaining, fills, y := Sweep(order, plan.value, b.At(maker));
      MatchRemaining(order.side, order.price, b.At(maker), order.quantity);
      var discarded: Quantity := 0;
      var filled: Quantity := order.quantity - remaining;
      if remaining > 0 && Rests(order.tif) {
        Append(order.side, order.price, Order(order.orderId, order.accountId, remaining, order.sequence), b.At(order.side));
      } else if order.tif == Ioc {
        discarded, remaining := remaining, 0;
      }
      r := Ok(ModelOutcome(StateOf(filled, order.quantity), filled, remaining, discarded, fills));
    }

    /** Cancels by id, enforcing ownership. */
    method Cancel(cancel: CancelOrder, ghost b: Book) returns (r: Result<CancelledOrder, RejectReason>)
      requires Mirrors(b) && UniqueIds(b)
      modifies this
      ensures match CancelResting(b, cancel.instrument, cancel)
              case Err(e) => r == Err(e) && Mirrors(b) && bids == old(bids) && asks == old(asks)
              case Ok(done) => r == Ok(done.1) && Mirrors(done.0)
    {
      hide Arranged, UniqueIds, Locate, FindOrder, RemoveOrder;
      var found := LocateRow(cancel.orderId, b);
      if found.None? {
        return Err(UnknownOrder);
      }
      var (side, position, place) := found.value;
      var order := At(side)[position].orders[place];
      if order.account != cancel.accountId {
        return Err(NotOrderOwner);
      }
      TakeOut(side, position, place, b.At(side), Locate(b, cancel.orderId).value.level);
      r := Ok(CancelledOrder(order.id, order.account, order.quantity));
    }

    /** Bids first, then asks: the row holding an id. */
    method LocateRow(id: OrderId, ghost b: Book) returns (r: Option<(Side, nat, nat)>)
      requires Mirrors(b) && UniqueIds(b)
      ensures r.None? <==> Locate(b, id).None?
      ensures r.Some? ==>
                var (side, position, place) := r.value;
                var p := Locate(b, id).value;
                && p.side == side && p.place == place && position < |At(side)| && p.level < |b.At(side)|
                && At(side)[position] == b.At(side)[p.level] && place < |At(side)[position].orders|
                && At(side)[position].orders[place].id == id
    {
      hide Arranged, UniqueIds, Locate, FindOrder, RestsIn, HasPrice;
      BothHold(bids, asks, b, id);
      var inBids := FindIn(Buy, id);
      var inAsks := FindIn(Sell, id);
      var side: Side, position: nat;
      match (inBids, inAsks) {
        case (Some(i), _) => side, position := Buy, i;
        case (None, Some(i)) => side, position := Sell, i;
        case (None, None) => return None;
      }
      var place := FindOrder(At(side)[position].orders, id).value;
      PlaceIn(side, At(side), b.At(side), position);
      FoundThere(b, Position(side, Place(side, b.At(side), At(side)[position].price), place));
      r := Some((side, position, place));
    }

    /** The best price of a side, by scanning. */
    method BestPrice(side: Side, ghost y: seq<Level>) returns (r: Option<Price>)
      requires Arranged(side, At(side), y)
      ensures r == if y == [] then None else Some(y[0].price)
    {
      hide Arranged, Sorted;
      SameLevelCount(side, At(side), y);
      if At(side) == [] {
        return None;
      }
      var best := 0;
      for i := 1 to |At(side)|
        invariant best < |At(side)| && forall j :: 0 <= j < i ==> !Better(side, At(side)[j].price, At(side)[best].price)
      {
        if Better(side, At(side)[i].price, At(side)[best].price) {
          best := i;
        }
      }
      LeastIsHead(side, At(side), y, best);
      r := Some(At(side)[best].price);
    }

    /** Why an order that loses priority cannot move. */
    method MoveDefect(side: Side, position: nat, price: Price, shape: Shape, ghost b: Book, ghost p: Position) returns (r: Option<RejectReason>)
      requires Mirrors(b) && p.side == side && InLevels(b.At(side), p.level, p.place)
      requires position < |At(side)| && At(side)[position] == b.At(side)[p.level]
      ensures r == MoveRejection(b, p, price, shape)
    {
      hide Arranged, HasPrice;
      var levels := At(side);
      SameLevelCount(side, levels, b.At(side));
      if price != levels[position].price {
        var best := BestPrice(side.Opposite(), b.At(side.Opposite()));
        if best.Some? && Crosses(side, price, best.value) {
          return Some(ReplaceWouldCross);
        }
      }
      var dest := FindPrice(side, price);
      match dest {
        case Some(d) =>
          PlaceIn(side, levels, b.At(side), d);
          OwnPlace(side, levels, b.At(side), position, p.level);
          var same := d == position && price == levels[position].price;
          SameDestination(side, levels, b.At(side), position, d, p.level);
          if |levels[d].orders| == shape.orders && !same {
            return Some(PriceLevelOrderCapacity);
          }
        case None =>
          NoPlaceIn(side, At(side), b.At(side), price);
          if |levels| == shape.levels && |levels[position].orders| != 1 {
            return Some(PriceLevelCapacity);
          }
      }
      r := None;
    }

    /** Owned amend. Price and quantity are checked before identity; apart from that order
        of checks the answer and the levels are the book's. */
    method Replace(replace: ReplaceOrder, shape: Shape, ghost b: Book) returns (r: Result<(Quantity, bool), RejectReason>)
      requires Mirrors(b) && UniqueIds(b)
      modifies this
      ensures replace.price <= 0 ==> r == Err(InvalidPrice)
      ensures replace.price > 0 && replace.quantity == 0 ==> r == Err(InvalidQuantity)
      ensures r.Err? ==> Mirrors(b) && bids == old(bids) && asks == old(asks)
      ensures replace.price > 0 && replace.quantity > 0 ==>
                match ReplaceResting(b, shape, replace.instrument, replace)
                case Err(e) => r == Err(e)
                case Ok(done) => r == Ok((done.1.oldQuantity, done.1.priorityLost)) && Mirrors(done.0)
    {
      hide Arranged, UniqueIds, Locate, FindOrder, RemoveOrder, AddOrder, SetOrder, MoveRejection;
      if replace.price <= 0 {
        return Err(InvalidPrice);
      }
      if replace.quantity == 0 {
        return Err(InvalidQuantity);
      }
      var found := LocateRow(replace.orderId, b);
      if found.None? {
        return Err(UnknownOrder);
      }
      var (side, position, place) := found.value;
      ghost var p := Locate(b, replace.orderId).value;
      LocatedPlace(b, replace.orderId);
      var level := At(side)[position];
      var order := level.orders[place];
      if order.account != replace.accountId {
        return Err(NotOrderOwner);
      }
      var kept := replace.price == level.price && replace.quantity < order.quantity;
      if kept {
        Reduce(side, position, place, replace.quantity, b.At(side), p.level);
        return Ok((order.quantity, false));
      }
      var defect := MoveDefect(side, position, replace.price, shape, b, p);
      if defect.Some? {
        return Err(defect.value);
      }
      TakeOut(side, position, place, b.At(side), p.level);
      Append(side, replace.price, Order(replace.orderId, replace.accountId, replace.quantity, replace.sequence),
             RemoveOrder(b.At(side), p.level, p.place));
      r := Ok((order.quantity, true));
    }

    /** In-place reduction: level and FIFO place stay. */
    method Reduce(side: Side, position: nat, place: nat, quantity: Quantity, ghost y: seq<Level>, ghost j: nat)
      requires Arranged(side, At(side), y) && position < |At(side)| && j < |y| && At(side)[position] == y[j]
      requires place < |At(side)[position].orders|
      modifies this
      ensures Arranged(side, At(side), SetOrder(y, j, place, y[j].orders[place].(quantity := quantity)))
      ensures At(side.Opposite()) == old(At(side.Opposite()))
    {
      hide Arranged;
      var level := At(side)[position];
      var queue := level.orders[place := level.orders[place].(quantity := quantity)];
      ArrangedSet(side, At(side), y, position, j, queue);
      SetSide(side, At(side)[position := Level(level.price, queue)]);
    }
  }

  /** The book and the model disagree on a replace exactly when its price or quantity is
      invalid and its identity is too: the book reports the identity, the model the value. */
  lemma {:induction false} ReplaceAgreesIff(b: Book, shape: Shape, replace: ReplaceOrder)
    ensures replace.price <= 0 || replace.quantity == 0 ==>
              var reason := if replace.price <= 0 then InvalidPrice else InvalidQuantity;
              ReplaceResting(b, shape, replace.instrument, replace) == Err(reason) <==>
              Locate(b, replace.orderId).Some? && OrderOf(b, Locate(b, replace.orderId).value).account == replace.accountId
  {
    hide Locate, MoveRejection;
  }
}
