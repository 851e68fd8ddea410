/** The match plan: the makers of a side in priority order with the stable handles
    of their slots, and the fills a taker plans against them. */
module BookPlan {
  import opened Types
  import opened PriceLevels
  import opened BookSpec
  import opened LevelIndexing
  import opened BookStore
  import opened OrderIndexing
  import opened BookSteps
  import opened Priority

  datatype Maker = Maker(level: nat, slot: nat, rest: Resting)

  datatype FillEntry = FillEntry(level: nat, slot: nat, id: OrderId, price: Price, quantity: Quantity)

  datatype MatchPlan = MatchPlan(fills: seq<FillEntry>, resting: Quantity, discarded: Quantity)

  /** Makers of the level behind one entry, oldest first. */
  function MakersAt(levels: seq<Option<PriceLevel>>, e: Entry): (m: seq<Maker>) {
    match LevelAt(levels, e.level)
    case None => []
    case Some(l) =>
      seq(|Queue(l)|, i requires 0 <= i < |Queue(l)| && |Queue(l)| == |Chain(l)| =>
        Maker(e.level, Chain(l)[i], Resting(e.price, Queue(l)[i])))
  }

  function Makers(entries: seq<Entry>, levels: seq<Option<PriceLevel>>): seq<Maker> {
    if entries == [] then [] else MakersAt(levels, entries[0]) + Makers(entries[1..], levels)
  }

  lemma {:induction false} NoMakers(levels: seq<Option<PriceLevel>>)
    ensures Makers([], levels) == []
  {
  }

  function RestsOf(makers: seq<Maker>): (r: seq<Resting>)
    ensures |r| == |makers|
    ensures forall k :: 0 <= k < |r| ==> r[k] == makers[k].rest
  {
    seq(|makers|, k requires 0 <= k < |makers| => makers[k].rest)
  }

  /** What a taker takes from the makers, in order, with the handles to apply it. */
  function Plan(taker: Side, limit: Price, makers: seq<Maker>, quantity: Quantity): seq<FillEntry> {
    if quantity == 0 || makers == [] || !Crosses(taker, limit, makers[0].rest.price) then []
    else
      var m := makers[0];
      var traded := Min(quantity, m.rest.order.quantity);
      [FillEntry(m.level, m.slot, m.rest.order.id, m.rest.price, traded)] + Plan(taker, limit, makers[1..], quantity - traded)
  }

  function FillOf(e: FillEntry): Fill {
    Fill(e.id, e.price, e.quantity)
  }

  function FillsOf(plan: seq<FillEntry>): (f: seq<Fill>)
    ensures |f| == |plan|
    ensures forall k :: 0 <= k < |f| ==> f[k] == FillOf(plan[k])
  {
    seq(|plan|, k requires 0 <= k < |plan| => FillOf(plan[k]))
  }

  lemma {:induction false} FillsOfCons(e: FillEntry, rest: seq<FillEntry>)
    ensures FillsOf([e] + rest) == [FillOf(e)] + FillsOf(rest)
  {
  }

  lemma {:induction false} RestsOfTail(makers: seq<Maker>)
    requires makers != []
    ensures RestsOf(makers)[1..] == RestsOf(makers[1..]) && RestsOf(makers)[0] == makers[0].rest
  {
  }

  /** The plan is the walk of the priority list, with handles. */
  lemma {:induction false} PlanIsWalk(taker: Side, limit: Price, makers: seq<Maker>, quantity: Quantity)
    ensures FillsOf(Plan(taker, limit, makers, quantity)) == Trades(taker, limit, RestsOf(makers), quantity)
  {
    hide FillsOf, RestsOf;
    if makers != [] {
      RestsOfTail(makers);
      var m := makers[0];
      var traded := Min(quantity, m.rest.order.quantity);
      PlanIsWalk(taker, limit, makers[1..], quantity - traded);
      FillsOfCons(FillEntry(m.level, m.slot, m.rest.order.id, m.rest.price, traded), Plan(taker, limit, makers[1..], quantity - traded));
    }
    EmptyFills(makers);
  }

  lemma {:induction false} EmptyFills(makers: seq<Maker>)
    ensures FillsOf([]) == [] && (makers == [] ==> RestsOf(makers) == [])
    ensures |RestsOf(makers)| == |makers|
  {
  }

  lemma {:induction false} ViewTail(entries: seq<Entry>, levels: seq<Option<PriceLevel>>, free: seq<nat>)
    requires entries != []
    ensures SideView(SideStore(entries, free, levels)) ==
            [Level(entries[0].price, QueueAt(levels, entries[0].level))] + SideView(SideStore(entries[1..], free, levels))
  {
    hide QueueAt;
  }

  lemma {:induction false} RestsOfConcat(a: seq<Maker>, b: seq<Maker>)
    ensures RestsOf(a + b) == RestsOf(a) + RestsOf(b)
  {
  }

  lemma {:induction false} MakersFlatten(entries: seq<Entry>, levels: seq<Option<PriceLevel>>, free: seq<nat>)
    ensures RestsOf(Makers(entries, levels)) == Flatten(SideView(SideStore(entries, free, levels)))
  {
    hide SideView, QueueAt, MakersAt, RestsOf, AtPrice;
    if entries != [] {
      var tail := SideView(SideStore(entries[1..], free, levels));
      MakersFlatten(entries[1..], levels, free);
      ViewTail(entries, levels, free);
      FlattenSplit(SideView(SideStore(entries, free, levels)), Level(entries[0].price, QueueAt(levels, entries[0].level)), tail);
      MakersAtRests(levels, entries[0]);
      RestsOfConcat(MakersAt(levels, entries[0]), Makers(entries[1..], levels));
    } else {
      EmptyView(levels, free);
    }
  }

  lemma {:induction false} EmptyView(levels: seq<Option<PriceLevel>>, free: seq<nat>)
    ensures SideView(SideStore([], free, levels)) == [] && RestsOf([]) == []
  {
  }

  lemma {:induction false} MakersAtRests(levels: seq<Option<PriceLevel>>, e: Entry)
    ensures RestsOf(MakersAt(levels, e)) == AtPrice(e.price, QueueAt(levels, e.level))
  {
  }

  /** Quantity the plan leaves untraded. */
  function PlanLeft(taker: Side, limit: Price, makers: seq<Maker>, quantity: Quantity): (q: Quantity)
    ensures q <= quantity
  {
    if quantity == 0 || makers == [] || !Crosses(taker, limit, makers[0].rest.price) then quantity
    else PlanLeft(taker, limit, makers[1..], quantity - Min(quantity, makers[0].rest.order.quantity))
  }

  lemma {:induction false} PlanLeftIs(taker: Side, limit: Price, makers: seq<Maker>, quantity: Quantity)
    ensures PlanLeft(taker, limit, makers, quantity) == quantity - Traded(FillsOf(Plan(taker, limit, makers, quantity)))
  {
    if !(quantity == 0 || makers == [] || !Crosses(taker, limit, makers[0].rest.price)) {
      var traded := Min(quantity, makers[0].rest.order.quantity);
      PlanLeftIs(taker, limit, makers[1..], quantity - traded);
      var plan := Plan(taker, limit, makers, quantity);
      assert plan[1..] == Plan(taker, limit, makers[1..], quantity - traded);
      assert FillsOf(plan)[1..] == FillsOf(plan[1..]);
    }
  }

  /** What is planned is what matching does. */
  lemma {:induction false} PlanIsMatch(taker: Side, limit: Price, side: Side, s: SideStore, shape: Shape, quantity: Quantity)
    requires SideOk(side, s, shape) && Stocked(SideView(s))
    ensures var makers := Makers(s.entries, s.levels);
            var m := Match(taker, limit, SideView(s), quantity);
            && FillsOf(Plan(taker, limit, makers, quantity)) == m.fills
            && PlanLeft(taker, limit, makers, quantity) == m.remaining
  {
    PlanIsWalk(taker, limit, Makers(s.entries, s.levels), quantity);
    PlanLeftIs(taker, limit, Makers(s.entries, s.levels), quantity);
    MakersFlatten(s.entries, s.levels, s.free);
    MatchIsWalk(taker, limit, SideView(s), quantity);
  }

  lemma {:induction false} MakersSame(entries: seq<Entry>, a: seq<Option<PriceLevel>>, b: seq<Option<PriceLevel>>)
    requires forall k :: 0 <= k < |entries| ==> MakersAt(a, entries[k]) == MakersAt(b, entries[k])
    ensures Makers(entries, a) == Makers(entries, b)
  {
    hide MakersAt;
    if entries != [] {
      MakersSame(entries[1..], a, b);
    }
  }

  /** The head of the priority list is the head slot of the best level. */
  lemma {:induction false} HeadMaker(side: Side, s: SideStore, shape: Shape)
    requires SideOk(side, s, shape) && s.entries != []
    ensures var level := s.entries[0].level;
            && level < |s.levels| && s.levels[level].Some?
            && ValidLevel(s.levels[level].value, shape.orders)
            && Listed(s, level, s.levels[level].value.head, 0, 0)
            && Queue(s.levels[level].value) != []
            && IsLive(s.levels[level].value.slots, s.levels[level].value.head)
            && Makers(s.entries, s.levels) != []
            && Makers(s.entries, s.levels)[0] ==
               Maker(level, s.levels[level].value.head, Resting(s.entries[0].price, Queue(s.levels[level].value)[0]))
            && SideView(s)[0] == Level(s.entries[0].price, Queue(s.levels[level].value))
            && Queue(s.levels[level].value)[0] == Logical(s.levels[level].value.slots[s.levels[level].value.head].order)
  {
    hide Queue, Chain, ValidLevel, Partition, SortedEntries;
    assert Backed(s.levels, s.entries[0], shape.orders);
    QueueNonEmpty(s.levels[s.entries[0].level].value, shape.orders);
  }

  lemma {:induction false} MakersAtTail(levels: seq<Option<PriceLevel>>, after: seq<Option<PriceLevel>>, e: Entry)
    requires LevelAt(levels, e.level).Some? && LevelAt(after, e.level).Some?
    requires var l, l2 := LevelAt(levels, e.level).value, LevelAt(after, e.level).value;
             Queue(l) != [] && Chain(l) != [] && Queue(l2) == Without(Queue(l), 0) && Chain(l2) == Without(Chain(l), 0)
    ensures MakersAt(levels, e) != [] && MakersAt(after, e) == MakersAt(levels, e)[1..]
  {
    hide Chain;
    var l, l2 := LevelAt(levels, e.level).value, LevelAt(after, e.level).value;
    assert |Queue(l)| == |Chain(l)| && |Queue(l2)| == |Chain(l2)|;
    hide Queue;
  }

  lemma {:induction false} MakersElsewhere(tail: seq<Entry>, a: seq<Option<PriceLevel>>, b: seq<Option<PriceLevel>>, level: nat)
    requires forall k :: 0 <= k < |tail| ==> tail[k].level != level
    requires forall i: nat :: i != level ==> LevelAt(a, i) == LevelAt(b, i)
    ensures Makers(tail, a) == Makers(tail, b)
  {
    forall k | 0 <= k < |tail| ensures MakersAt(a, tail[k]) == MakersAt(b, tail[k]) {
      assert tail[k].level != level;
    }
    MakersSame(tail, a, b);
  }

  /** Taking the head maker out leaves every other maker its slot and place. */
  lemma {:induction false} HeadTaken(side: Side, s: SideStore, shape: Shape)
    requires SideOk(side, s, shape) && s.entries != []
    ensures s.entries[0].level < |s.levels| && s.levels[s.entries[0].level].Some?
    ensures var l := s.levels[s.entries[0].level].value;
            && Unlink(l, l.head).Some?
            && var t := Detached(s, 0, Unlink(l, l.head).value.0);
            && Makers(s.entries, s.levels) != []
            && Makers(t.entries, t.levels) == Makers(s.entries, s.levels)[1..]
  {
    hide Queue, Chain, ValidLevel, Unlink, SortedEntries, Backed, MakersAt;
    HeadMaker(side, s, shape);
    var e, tail := s.entries[0], s.entries[1..];
    var l := s.levels[e.level].value;
    QueueNonEmpty(l, shape.orders);
    UnlinkValid(l, shape.orders, 0);
    var l2 := Unlink(l, l.head).value.0;
    var t := Detached(s, 0, l2);
    MakersElsewhere(tail, t.levels, s.levels, e.level);
    MakersAtSize(s.levels, e);
    if l2.len == 0 {
      assert Without(s.entries, 0) == tail;
    } else {
      MakersAtTail(s.levels, t.levels, e);
    }
  }

  lemma {:induction false} MakersAtSize(levels: seq<Option<PriceLevel>>, e: Entry)
    ensures |MakersAt(levels, e)| == |QueueAt(levels, e.level)|
  {
  }

  /** One more maker of the walk. */
  lemma {:induction false} PlanStep(taker: Side, limit: Price, makers: seq<Maker>, quantity: Quantity)
    requires quantity > 0 && makers != [] && Crosses(taker, limit, makers[0].rest.price)
    ensures var m := makers[0];
            var traded := Min(quantity, m.rest.order.quantity);
            && Plan(taker, limit, makers, quantity) ==
               [FillEntry(m.level, m.slot, m.rest.order.id, m.rest.price, traded)] + Plan(taker, limit, makers[1..], quantity - traded)
            && PlanLeft(taker, limit, makers, quantity) == PlanLeft(taker, limit, makers[1..], quantity - traded)
  {
  }

  /** Makers from the `j`-th of entry `k` on. */
  function MakersFrom(s: SideStore, k: nat, j: nat): seq<Maker>
    requires k < |s.entries|
  {
    var here := MakersAt(s.levels, s.entries[k]);
    here[if j < |here| then j else |here|..] + Makers(s.entries[k + 1..], s.levels)
  }

  lemma {:induction false} MakersFromStart(s: SideStore, k: nat)
    requires k < |s.entries|
    ensures MakersFrom(s, k, 0) == Makers(s.entries[k..], s.levels)
  {
    assert s.entries[k..][1..] == s.entries[k + 1..];
  }

  /** Where the cursor stands after `j` makers of entry `k`. */
  function CursorAt(l: PriceLevel, j: nat): nat {
    if j < |Chain(l)| then Chain(l)[j] else NIL
  }

  /** Reading the slot under the cursor reads the next maker, and its link moves on. */
  lemma {:induction false} CursorStep(side: Side, s: SideStore, shape: Shape, k: nat, j: nat)
    requires SideOk(side, s, shape) && k < |s.entries|
    ensures s.entries[k].level < |s.levels| && s.levels[s.entries[k].level].Some?
    ensures var l := s.levels[s.entries[k].level].value;
            && l.head == CursorAt(l, 0) && (CursorAt(l, j) == NIL <==> j >= |Chain(l)|)
            && |Chain(l)| == |MakersAt(s.levels, s.entries[k])| > 0
            && (j < |Chain(l)| ==>
                  && IsLive(l.slots, CursorAt(l, j))
                  && var o := l.slots[CursorAt(l, j)].order;
                  && o.next == CursorAt(l, j + 1)
                  && MakersFrom(s, k, j) != []
                  && MakersFrom(s, k, j)[0] == Maker(s.entries[k].level, CursorAt(l, j), Resting(s.entries[k].price, Logical(o)))
                  && MakersFrom(s, k, j)[1..] == MakersFrom(s, k, j + 1))
            && (j >= |Chain(l)| ==> MakersFrom(s, k, j) == Makers(s.entries[k + 1..], s.levels))
  {
    hide Chain, ValidLevel, Queue, MakersAt, Partition, SortedEntries, Makers;
    assert Backed(s.levels, s.entries[k], shape.orders);
    var l := s.levels[s.entries[k].level].value;
    QueueNonEmpty(l, shape.orders);
    MakersAtSize(s.levels, s.entries[k]);
    MakersAtIs(s.levels, s.entries[k]);
    CursorBound(l, shape.orders, j);
    if j < |Chain(l)| {
      NextIs(l, shape.orders, j);
      var here := MakersAt(s.levels, s.entries[k]);
      assert here[j..] == [here[j]] + here[j + 1..];
    }
  }

  lemma {:induction false} MakersAtIs(levels: seq<Option<PriceLevel>>, e: Entry)
    requires LevelAt(levels, e.level).Some? && |Queue(LevelAt(levels, e.level).value)| == |Chain(LevelAt(levels, e.level).value)|
    ensures |MakersAt(levels, e)| == |Queue(LevelAt(levels, e.level).value)|
    ensures var l := LevelAt(levels, e.level).value;
            forall i :: 0 <= i < |MakersAt(levels, e)| ==> MakersAt(levels, e)[i] == Maker(e.level, Chain(l)[i], Resting(e.price, Queue(l)[i]))
  {
  }

  lemma {:induction false} CursorBound(l: PriceLevel, n: nat, j: nat)
    requires ValidLevel(l, n)
    ensures j < |Chain(l)| ==> Chain(l)[j] != NIL
  {
    QueueNonEmpty(l, n);
    LevelCapacityIs(l, n);
  }

  lemma {:induction false} NextIs(l: PriceLevel, n: nat, j: nat)
    requires ValidLevel(l, n) && j < |Chain(l)|
    ensures IsLive(l.slots, Chain(l)[j]) && l.slots[Chain(l)[j]].order.next == if j + 1 < |Chain(l)| then Chain(l)[j + 1] else NIL
  {
    hide Chain;
    var free :| Linked(l, Chain(l), free);
    Neighbours(l.slots, Chain(l), j);
  }

  /** The outcome of planning, before anything is applied. */
  function PlanOutcome(order: NewOrder, makers: seq<Maker>, own: seq<Level>, shape: Shape, capacity: nat): Result<MatchPlan, RejectReason> {
    var fills := Plan(order.side, order.price, makers, order.quantity);
    var remaining := PlanLeft(order.side, order.price, makers, order.quantity);
    if |fills| > capacity then Err(ReportCapacity)
    else if order.tif == Fok && remaining > 0 then Err(InsufficientLiquidity)
    else if order.tif == Ioc then Ok(MatchPlan(fills, 0, remaining))
    else if Rests(order.tif) && remaining > 0 && RestRejection(order.side, own, order.price, shape).Some?
    then Err(RestRejection(order.side, own, order.price, shape).value)
    else Ok(MatchPlan(fills, remaining, 0))
  }

  /** Handles are not part of a maker. */
  lemma {:induction false} MakersAlike(side: Side, s: SideStore, levels: seq<Option<PriceLevel>>, shape: Shape)
    requires SideOk(side, s, shape) && LevelsAlike(s.levels, levels, shape.orders)
    ensures Makers(s.entries, levels) == Makers(s.entries, s.levels)
  {
    hide ValidLevel, Queue, Chain, Partition, SortedEntries;
    forall k | 0 <= k < |s.entries| ensures MakersAt(levels, s.entries[k]) == MakersAt(s.levels, s.entries[k]) {
      assert Backed(s.levels, s.entries[k], shape.orders);
    }
    MakersSame(s.entries, levels, s.levels);
  }

  /** Half way through planning: `fills` taken, the walk of `rest` still to go. */
  ghost predicate Planning(order: NewOrder, all: seq<Maker>, fills: seq<FillEntry>, rest: seq<Maker>, remaining: Quantity) {
    && Plan(order.side, order.price, all, order.quantity) == fills + Plan(order.side, order.price, rest, remaining)
    && PlanLeft(order.side, order.price, all, order.quantity) == PlanLeft(order.side, order.price, rest, remaining)
  }

  lemma {:induction false} PlanningStart(order: NewOrder, all: seq<Maker>)
    ensures Planning(order, all, [], all, order.quantity)
  {
    var p := Plan(order.side, order.price, all, order.quantity);
    assert [] + p == p;
  }

  lemma {:induction false} PlanningTake(order: NewOrder, all: seq<Maker>, fills: seq<FillEntry>, rest: seq<Maker>, remaining: Quantity)
    requires Planning(order, all, fills, rest, remaining)
    requires remaining > 0 && rest != [] && Crosses(order.side, order.price, rest[0].rest.price)
    ensures var m := rest[0];
            var traded := Min(remaining, m.rest.order.quantity);
            && Planning(order, all, fills + [FillEntry(m.level, m.slot, m.rest.order.id, m.rest.price, traded)], rest[1..], remaining - traded)
            && |Plan(order.side, order.price, all, order.quantity)| > |fills|
  {
    PlanStep(order.side, order.price, rest, remaining);
  }

  lemma {:induction false} PlanningSkip(order: NewOrder, all: seq<Maker>, fills: seq<FillEntry>, rest: seq<Maker>, other: seq<Maker>)
    requires Planning(order, all, fills, rest, 0)
    ensures Planning(order, all, fills, other, 0)
  {
  }

  lemma {:induction false} PlanningEnd(order: NewOrder, all: seq<Maker>, fills: seq<FillEntry>, rest: seq<Maker>, remaining: Quantity)
    requires Planning(order, all, fills, rest, remaining)
    requires remaining == 0 || rest == [] || !Crosses(order.side, order.price, rest[0].rest.price)
    ensures Plan(order.side, order.price, all, order.quantity) == fills
    ensures PlanLeft(order.side, order.price, all, order.quantity) == remaining
  {
    assert fills + [] == fills;
  }
}
