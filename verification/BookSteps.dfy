/** Single storage steps of the book and their meaning: taking one order out of a
    side, putting one behind a level, and finding an order by its location. */
module BookSteps {
  import opened Types
  import opened ProbeIndexing
  import opened PriceLevels
  import opened BookSpec
  import opened LevelIndexing
  import opened BookStore
  import opened OrderIndexing

  /** Slot `loc.slot` of level slot `loc.level` is the `j`-th order of the `k`-th entry. */
  ghost predicate Listed(s: SideStore, level: nat, slot: nat, k: nat, j: nat) {
    && k < |s.entries| && s.entries[k].level == level
    && LevelAt(s.levels, level).Some?
    && j < |Chain(LevelAt(s.levels, level).value)|
    && Chain(LevelAt(s.levels, level).value)[j] == slot
  }

  /** Every live slot of a side is listed. */
  lemma {:induction false} LiveIsListed(side: Side, s: SideStore, shape: Shape, level: nat, slot: nat)
    requires SideOk(side, s, shape) && LevelAt(s.levels, level).Some? && SlotBody(LevelAt(s.levels, level).value, slot).Some?
    ensures exists k, j :: Listed(s, level, slot, k, j)
  {
    hide ValidLevel, Chain, Queue;
    assert level !in s.free;
    assert Covered(s.entries, s.free, level);
    var k :| 0 <= k < |s.entries| && s.entries[k].level == level;
    assert Backed(s.levels, s.entries[k], shape.orders);
    var l := s.levels[level].value;
    QueueNonEmpty(l, shape.orders);
    assert IsLive(l.slots, slot);
    var j :| 0 <= j < |Chain(l)| && Chain(l)[j] == slot;
    assert Listed(s, level, slot, k, j);
  }

  /** A listed slot is live and shows up in the view at its place. */
  lemma {:induction false} ListedIsLive(side: Side, s: SideStore, shape: Shape, level: nat, slot: nat, k: nat, j: nat)
    requires SideOk(side, s, shape) && Listed(s, level, slot, k, j)
    ensures SlotBody(s.levels[level].value, slot).Some?
    ensures InLevels(SideView(s), k, j)
    ensures SideView(s)[k].orders[j] == Logical(SlotBody(s.levels[level].value, slot).value)
    ensures SideView(s)[k] == Level(s.levels[level].value.price, Queue(s.levels[level].value))
    ensures level < shape.levels && slot < shape.orders
  {
    hide ValidLevel, Chain, Queue;
    assert Backed(s.levels, s.entries[k], shape.orders);
    QueueNonEmpty(s.levels[level].value, shape.orders);
    LevelCapacityIs(s.levels[level].value, shape.orders);
  }

  lemma {:induction false} LevelCapacityIs(l: PriceLevel, n: nat)
    requires ValidLevel(l, n)
    ensures |l.slots| == n
  {
  }

  /** The side after its `k`-th level loses its `j`-th order; an emptied level is dropped. */
  function Detached(s: SideStore, k: nat, l2: PriceLevel): SideStore
    requires k < |s.entries| && s.entries[k].level < |s.levels|
  {
    var level := s.entries[k].level;
    if l2.len == 0 then SideStore(Without(s.entries, k), s.free + [level], s.levels[level := None])
    else s.(levels := s.levels[level := Some(l2)])
  }

  lemma {:induction false} DetachView(side: Side, s: SideStore, shape: Shape, level: nat, slot: nat, k: nat, j: nat)
    requires SideOk(side, s, shape) && Listed(s, level, slot, k, j)
    ensures level < |s.levels| && Unlink(s.levels[level].value, slot).Some?
    ensures InLevels(SideView(s), k, j)
    ensures var l2 := Unlink(s.levels[level].value, slot).value.0;
            && SideOk(side, Detached(s, k, l2), shape)
            && SideView(Detached(s, k, l2)) == RemoveOrder(SideView(s), k, j)
  {
    hide ValidLevel, Queue, Chain, Unlink, SlotBody, Partition, SortedEntries, SideView;
    ListedIsLive(side, s, shape, level, slot, k, j);
    assert Backed(s.levels, s.entries[k], shape.orders);
    var l := s.levels[level].value;
    QueueNonEmpty(l, shape.orders);
    UnlinkValid(l, shape.orders, j);
    var l2 := Unlink(l, slot).value.0;
    if l2.len == 0 {
      DropLevel(side, s, shape, k);
    } else {
      ReplaceLevel(side, s, shape, k, l2);
    }
  }

  lemma {:induction false} DetachBodies(side: Side, s: SideStore, shape: Shape, level: nat, slot: nat, k: nat, j: nat, a: Arena)
    requires SideOk(side, s, shape) && Listed(s, level, slot, k, j) && a.At(side) == s.levels
    ensures level < |s.levels| && Unlink(s.levels[level].value, slot).Some?
    ensures var (l2, order) := Unlink(s.levels[level].value, slot).value;
            var b := a.With(side, Detached(s, k, l2).levels);
            && AgreeBut(a, b, Location(side, level, slot)) && BodyAt(b, Location(side, level, slot)).None?
            && BodyAt(a, Location(side, level, slot)) == Some(Body(order))
            && l2.price == s.entries[k].price && l2.len == s.levels[level].value.len - 1
  {
    hide ValidLevel, Queue, Chain, Unlink, Partition, SortedEntries, SideView;
    assert Backed(s.levels, s.entries[k], shape.orders);
    var l := s.levels[level].value;
    QueueNonEmpty(l, shape.orders);
    UnlinkValid(l, shape.orders, j);
    var (l2, order) := Unlink(l, slot).value;
    if l2.len == 0 {
      OnlySlot(l, shape.orders, slot);
    }
  }

  lemma {:induction false} OnlySlot(l: PriceLevel, n: nat, slot: nat)
    requires ValidLevel(l, n) && l.len == 1 && IsLive(l.slots, slot)
    ensures forall i: nat :: i != slot ==> SlotBody(l, i).None?
  {
    QueueNonEmpty(l, n);
  }

  /** The side after `order` is pushed behind the level of entry `k`. */
  lemma {:induction false} PushView(side: Side, s: SideStore, shape: Shape, k: nat, order: RestingOrder, a: Arena)
    requires SideOk(side, s, shape) && k < |s.entries| && s.entries[k].level < |s.levels| && a.At(side) == s.levels
    requires s.levels[s.entries[k].level].Some? && |SideView(s)[k].orders| != shape.orders
    ensures var level := s.entries[k].level;
            var l := s.levels[level].value;
            && PushTail(l, order).Some?
            && var (l2, slot) := PushTail(l, order).value;
            var t := s.(levels := s.levels[level := Some(l2)]);
            var loc := Location(side, level, slot);
            && SideOk(side, t, shape)
            && SideView(t) == SideView(s)[k := Level(s.entries[k].price, SideView(s)[k].orders + [Logical(order)])]
            && EncodeLocation(loc, shape).Some? && BodyAt(a, loc).None?
            && BodyAt(a.With(side, t.levels), loc) == Some(Body(order)) && AgreeBut(a, a.With(side, t.levels), loc)
  {
    hide ValidLevel, Queue, Chain, PushTail, Partition, SortedEntries;
    assert Backed(s.levels, s.entries[k], shape.orders);
    var level := s.entries[k].level;
    var l := s.levels[level].value;
    QueueNonEmpty(l, shape.orders);
    assert |Queue(l)| < shape.orders;
    PushTailValid(l, shape.orders, order);
    var (l2, slot) := PushTail(l, order).value;
    ReplaceLevel(side, s, shape, k, l2);
    EncodeDecode(Location(side, level, slot), shape);
    hide EncodeLocation;
  }

  /** The side after a new level holding only `order` is opened. */
  lemma {:induction false} PushNewView(side: Side, s: SideStore, shape: Shape, p: nat, price: Price, order: RestingOrder, a: Arena)
    requires SideOk(side, s, shape) && s.free != [] && Splits(side, s.entries, price, p) && a.At(side) == s.levels
    requires forall k :: 0 <= k < |s.entries| ==> s.entries[k].price != price
    requires 0 < shape.orders < NIL
    ensures var level := s.free[|s.free| - 1];
            && level < |s.levels|
            && PushTail(NewLevel(price, shape.orders), order).Some?
            && var (l2, slot) := PushTail(NewLevel(price, shape.orders), order).value;
            var loc := Location(side, level, slot);
            && l2.price == price
            && SideOk(side, Opened(s, p, l2), shape)
            && SideView(Opened(s, p, l2)) == InsertAt(SideView(s), p, Level(price, [Logical(order)]))
            && EncodeLocation(loc, shape).Some? && BodyAt(a, loc).None?
            && BodyAt(a.With(side, Opened(s, p, l2).levels), loc) == Some(Body(order))
            && AgreeBut(a, a.With(side, Opened(s, p, l2).levels), loc)
  {
    hide ValidLevel, Queue, Chain, PushTail, NewLevel, Partition, SortedEntries, SideView;
    NewLevelLinked(price, shape.orders);
    NewLevelShape(price, shape.orders);
    var l := NewLevel(price, shape.orders);
    PushTailValid(l, shape.orders, order);
    var (l2, slot) := PushTail(l, order).value;
    assert Queue(l2) == [Logical(order)];
    LevelOpened(side, s, shape, p, l2);
    EncodeDecode(Location(side, s.free[|s.free| - 1], slot), shape);
    hide EncodeLocation;
  }

  lemma {:induction false} NewLevelShape(price: Price, n: nat)
    ensures NewLevel(price, n).price == price && NewLevel(price, n).len == 0
    ensures forall i: nat :: SlotBody(NewLevel(price, n), i).None?
  {
  }

  /** The location an index entry names resolves to the position the specification finds. */
  lemma {:induction false} LocateIs(bids: SideStore, asks: SideStore, idx: seq<Slot>, shape: Shape, loc: Location, k: nat, j: nat)
    requires SideOk(Buy, bids, shape) && SideOk(Sell, asks, shape)
    requires Coupled(Arena(bids.levels, asks.levels), idx, shape)
    requires Listed(if loc.side == Buy then bids else asks, loc.level, loc.slot, k, j)
    ensures BodyAt(Arena(bids.levels, asks.levels), loc).Some?
    ensures Locate(Book(SideView(bids), SideView(asks)), BodyAt(Arena(bids.levels, asks.levels), loc).value.id)
            == Some(Position(loc.side, k, j))
  {
    var a := Arena(bids.levels, asks.levels);
    var b := Book(SideView(bids), SideView(asks));
    ListedIsLive(loc.side, if loc.side == Buy then bids else asks, shape, loc.level, loc.slot, k, j);
    var id := BodyAt(a, loc).value.id;
    hide SlotBody, SideOk, Coupled, SideView, Locate;
    assert b.At(loc.side)[k].orders[j].id == id;
    LocateSound(b, id);
    var p := Locate(b, id);
    if p.Some? {
      SameIdSamePlace(bids, asks, idx, shape, loc, k, j, p.value);
    }
  }

  /** No id rests twice in the book two coupled sides stand for. */
  lemma {:induction false} UniqueView(bids: SideStore, asks: SideStore, idx: seq<Slot>, shape: Shape)
    requires SideOk(Buy, bids, shape) && SideOk(Sell, asks, shape)
    requires Coupled(Arena(bids.levels, asks.levels), idx, shape)
    ensures UniqueIds(Book(SideView(bids), SideView(asks)))
  {
    hide SideOk, Coupled, SideView, Locate, Listed, SlotBody;
    var b := Book(SideView(bids), SideView(asks));
    forall side, i: nat, j: nat | InLevels(b.At(side), i, j)
      ensures Locate(b, b.At(side)[i].orders[j].id) == Some(Position(side, i, j))
    {
      var s := if side == Buy then bids else asks;
      ViewIsListed(side, s, shape, i, j);
      var level := s.entries[i].level;
      var slot := Chain(s.levels[level].value)[j];
      ListedIsLive(side, s, shape, level, slot, i, j);
      LocateIs(bids, asks, idx, shape, Location(side, level, slot), i, j);
    }
  }

  lemma {:induction false} LocateSound(b: Book, id: OrderId)
    ensures Locate(b, id).Some? ==> InLevels(b.At(Locate(b, id).value.side), Locate(b, id).value.level, Locate(b, id).value.place)
    ensures Locate(b, id).Some? ==> OrderOf(b, Locate(b, id).value).id == id
    ensures Locate(b, id).None? ==> forall side, i: nat, j: nat :: InLevels(b.At(side), i, j) ==> b.At(side)[i].orders[j].id != id
  {
  }

  /** The slot behind a position of the view. */
  lemma {:induction false} ViewIsListed(side: Side, s: SideStore, shape: Shape, k: nat, j: nat)
    requires SideOk(side, s, shape) && InLevels(SideView(s), k, j)
    ensures s.entries[k].level < |s.levels| && s.levels[s.entries[k].level].Some?
    ensures j < |Chain(s.levels[s.entries[k].level].value)|
    ensures Listed(s, s.entries[k].level, Chain(s.levels[s.entries[k].level].value)[j], k, j)
  {
    hide ValidLevel, Chain, Queue;
    assert Backed(s.levels, s.entries[k], shape.orders);
    QueueNonEmpty(s.levels[s.entries[k].level].value, shape.orders);
  }

  /** One id, one place: two positions with the same id are the same position. */
  lemma {:induction false} SameIdSamePlace(bids: SideStore, asks: SideStore, idx: seq<Slot>, shape: Shape, loc: Location, k: nat, j: nat, p: Position)
    requires SideOk(Buy, bids, shape) && SideOk(Sell, asks, shape)
    requires Coupled(Arena(bids.levels, asks.levels), idx, shape)
    requires Listed(if loc.side == Buy then bids else asks, loc.level, loc.slot, k, j)
    requires BodyAt(Arena(bids.levels, asks.levels), loc).Some?
    requires var b := Book(SideView(bids), SideView(asks));
             InLevels(b.At(p.side), p.level, p.place)
             && OrderOf(b, p).id == BodyAt(Arena(bids.levels, asks.levels), loc).value.id
    ensures p == Position(loc.side, k, j)
  {
    hide SideOk, Coupled, SideView, SlotBody;
    var a := Arena(bids.levels, asks.levels);
    var s := if p.side == Buy then bids else asks;
    ViewIsListed(p.side, s, shape, p.level, p.place);
    var level := s.entries[p.level].level;
    var slot := Chain(s.levels[level].value)[p.place];
    ListedIsLive(p.side, s, shape, level, slot, p.level, p.place);
    var other := Location(p.side, level, slot);
    SameIdSameLocation(a, idx, shape, loc, other);
    SamePlace(p.side, s, shape, level, slot, k, j, p.level, p.place);
  }

  lemma {:induction false} SameIdSameLocation(a: Arena, idx: seq<Slot>, shape: Shape, l1: Location, l2: Location)
    requires Coupled(a, idx, shape) && BodyAt(a, l1).Some? && BodyAt(a, l2).Some?
    requires BodyAt(a, l1).value.id == BodyAt(a, l2).value.id
    ensures l1 == l2
  {
    hide EncodeLocation, DecodeLocation, BodyAt, Reachable;
    assert Exact(a, idx, l1, shape) && Exact(a, idx, l2, shape);
    EncodeDecode(l1, shape);
    EncodeDecode(l2, shape);
  }

  lemma {:induction false} SamePlace(side: Side, s: SideStore, shape: Shape, level: nat, slot: nat, k: nat, j: nat, k2: nat, j2: nat)
    requires SideOk(side, s, shape) && Listed(s, level, slot, k, j) && Listed(s, level, slot, k2, j2)
    ensures k == k2 && j == j2
  {
    hide ValidLevel, Chain, Queue;
    assert Backed(s.levels, s.entries[k], shape.orders);
    QueueNonEmpty(s.levels[level].value, shape.orders);
  }

  /** The index knows an id exactly when the specification finds it. */
  lemma {:induction false} HoldsIffContains(bids: SideStore, asks: SideStore, idx: seq<Slot>, shape: Shape, id: OrderId)
    requires SideOk(Buy, bids, shape) && SideOk(Sell, asks, shape)
    requires Coupled(Arena(bids.levels, asks.levels), idx, shape)
    ensures Holds(idx, id) <==> Contains(Book(SideView(bids), SideView(asks)), id)
  {
    hide SideOk, Coupled, SideView, Contains, Holds, BodyAt;
    var a := Arena(bids.levels, asks.levels);
    HoldsIffLive(a, idx, shape, id);
    if loc :| BodyAt(a, loc).Some? && BodyAt(a, loc).value.id == id {
      LiveContained(bids, asks, idx, shape, loc);
    }
    if Contains(Book(SideView(bids), SideView(asks)), id) {
      var loc := ContainedLive(bids, asks, idx, shape, id);
      assert BodyAt(a, loc).Some? && BodyAt(a, loc).value.id == id;
    }
  }

  /** A live order is in the book the sides stand for. */
  lemma {:induction false} LiveContained(bids: SideStore, asks: SideStore, idx: seq<Slot>, shape: Shape, loc: Location)
    requires SideOk(Buy, bids, shape) && SideOk(Sell, asks, shape)
    requires Coupled(Arena(bids.levels, asks.levels), idx, shape)
    requires BodyAt(Arena(bids.levels, asks.levels), loc).Some?
    ensures Contains(Book(SideView(bids), SideView(asks)), BodyAt(Arena(bids.levels, asks.levels), loc).value.id)
  {
    hide SideOk, Coupled, SideView, Locate, Listed;
    var s := if loc.side == Buy then bids else asks;
    LiveIsListed(loc.side, s, shape, loc.level, loc.slot);
    var k: nat, j: nat :| Listed(s, loc.level, loc.slot, k, j);
    LocateIs(bids, asks, idx, shape, loc, k, j);
  }

  /** An order of the book is live at some location. */
  lemma {:induction false} ContainedLive(bids: SideStore, asks: SideStore, idx: seq<Slot>, shape: Shape, id: OrderId) returns (loc: Location)
    requires SideOk(Buy, bids, shape) && SideOk(Sell, asks, shape)
    requires Contains(Book(SideView(bids), SideView(asks)), id)
    ensures BodyAt(Arena(bids.levels, asks.levels), loc).Some? && BodyAt(Arena(bids.levels, asks.levels), loc).value.id == id
  {
    var b := Book(SideView(bids), SideView(asks));
    LocateSound(b, id);
    hide SideOk, SideView, Locate;
    var p := Locate(b, id).value;
    var s := if p.side == Buy then bids else asks;
    ViewIsListed(p.side, s, shape, p.level, p.place);
    var level := s.entries[p.level].level;
    loc := Location(p.side, level, Chain(s.levels[level].value)[p.place]);
    ListedIsLive(p.side, s, shape, level, loc.slot, p.level, p.place);
  }

  /** Reducing one listed order in place. */
  lemma {:induction false} ReduceView(side: Side, s: SideStore, shape: Shape, level: nat, slot: nat, k: nat, j: nat, quantity: Quantity, a: Arena)
    requires SideOk(side, s, shape) && Listed(s, level, slot, k, j) && a.At(side) == s.levels
    requires InLevels(SideView(s), k, j) && quantity <= SideView(s)[k].orders[j].quantity
    ensures level < |s.levels| && s.levels[level].Some? && ReduceQuantity(s.levels[level].value, slot, quantity).Some?
    ensures var l2 := ReduceQuantity(s.levels[level].value, slot, quantity).value;
            var t := s.(levels := s.levels[level := Some(l2)]);
            var o := SideView(s)[k].orders[j];
            var loc := Location(side, level, slot);
            && SideOk(side, t, shape)
            && SideView(t) == SetOrder(SideView(s), k, j, o.(quantity := o.quantity - quantity))
            && Retouched(a, a.With(side, t.levels), loc)
  {
    hide ValidLevel, Queue, Chain, ReduceQuantity, Partition, SortedEntries;
    ListedIsLive(side, s, shape, level, slot, k, j);
    assert Backed(s.levels, s.entries[k], shape.orders);
    var l := s.levels[level].value;
    QueueNonEmpty(l, shape.orders);
    ReduceValid(l, shape.orders, j, quantity);
    ReplaceLevel(side, s, shape, k, ReduceQuantity(l, slot, quantity).value);
    hide SideView, SideOk;
  }

  /** The order at `loc` changed at most in contents: same id, same handle. */
  ghost predicate Retouched(a: Arena, b: Arena, loc: Location) {
    && AgreeBut(a, b, loc)
    && BodyAt(a, loc).Some? && BodyAt(b, loc).Some?
    && BodyAt(a, loc).value.id == BodyAt(b, loc).value.id
    && BodyAt(a, loc).value.indexSlot == BodyAt(b, loc).value.indexSlot
  }

  lemma {:induction false} RetouchedCoupled(a: Arena, b: Arena, idx: seq<Slot>, shape: Shape, loc: Location)
    requires Coupled(a, idx, shape) && Retouched(a, b, loc)
    ensures Coupled(b, idx, shape)
  {
    hide EncodeLocation, DecodeLocation, BodyAt, Sized;
    forall i | 0 <= i < |idx| && idx[i].Occupied? ensures Targets(b, idx, i, shape) {
      assert Targets(a, idx, i, shape);
    }
    forall other ensures Exact(b, idx, other, shape) {
      assert Exact(a, idx, other, shape);
    }
  }
}
