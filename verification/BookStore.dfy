/** The storage of one book side and of the order index, as values: what it means
    for the parts to agree, and how each storage step changes what they stand for. */
module BookStore {
  import opened Types
  import opened PriceLevels
  import opened BookSpec
  import opened LevelIndexing

  /** One side: sorted level index, free pool, level slots. */
  datatype SideStore = SideStore(entries: seq<Entry>, free: seq<nat>, levels: seq<Option<PriceLevel>>)

  function LevelAt(levels: seq<Option<PriceLevel>>, i: nat): Option<PriceLevel> {
    if i < |levels| then levels[i] else None
  }

  function QueueAt(levels: seq<Option<PriceLevel>>, i: nat): seq<Order> {
    match LevelAt(levels, i)
    case Some(l) => Queue(l)
    case None => []
  }

  /** The indexed level at slot `e.level` exists, is valid, non-empty, and priced `e.price`. */
  ghost predicate Backed(levels: seq<Option<PriceLevel>>, e: Entry, orders: nat) {
    match LevelAt(levels, e.level)
    case Some(l) => ValidLevel(l, orders) && l.len > 0 && l.price == e.price
    case None => false
  }

  ghost predicate SideOk(side: Side, s: SideStore, shape: Shape) {
    && |s.levels| == shape.levels
    && SortedEntries(side, s.entries)
    && Partition(s.entries, s.free, shape.levels)
    && (forall k :: 0 <= k < |s.entries| ==> Backed(s.levels, s.entries[k], shape.orders))
    && (forall f :: 0 <= f < |s.levels| && f in s.free ==> s.levels[f].None?)
  }

  /** The levels a side stands for, best first. */
  function SideView(s: SideStore): (v: seq<Level>)
    ensures |v| == |s.entries|
    ensures forall k :: 0 <= k < |v| ==> v[k] == Level(s.entries[k].price, QueueAt(s.levels, s.entries[k].level))
  {
    seq(|s.entries|, k requires 0 <= k < |s.entries| => Level(s.entries[k].price, QueueAt(s.levels, s.entries[k].level)))
  }

  lemma {:induction false} ViewSorted(side: Side, s: SideStore, shape: Shape)
    requires SideOk(side, s, shape)
    ensures Sorted(side, SideView(s))
    ensures forall k :: 0 <= k < |SideView(s)| ==> SideView(s)[k].orders != []
  {
    forall k | 0 <= k < |SideView(s)| ensures SideView(s)[k].orders != [] {
      assert Backed(s.levels, s.entries[k], shape.orders);
      QueueNonEmpty(s.levels[s.entries[k].level].value, shape.orders);
    }
  }

  /** The split point of a sorted side is the one the specification computes. */
  lemma {:induction false} PlaceIs(side: Side, s: SideStore, price: Price, p: nat)
    requires Splits(side, s.entries, price, p)
    ensures Place(side, SideView(s), price) == p
  {
    var v := SideView(s);
    assert forall k :: 0 <= k < p ==> Better(side, v[k].price, price);
    assert forall k :: p <= k < |v| ==> !Better(side, v[k].price, price);
    if p < |v| {
      assert !Better(side, v[p].price, price);
    }
  }

  /** Replacing the level behind entry `k` by another valid one of the same price. */
  lemma {:induction false} ReplaceLevel(side: Side, s: SideStore, shape: Shape, k: nat, l: PriceLevel)
    requires SideOk(side, s, shape) && k < |s.entries|
    requires ValidLevel(l, shape.orders) && l.len > 0 && l.price == s.entries[k].price
    ensures s.entries[k].level < |s.levels|
    ensures var t := s.(levels := s.levels[s.entries[k].level := Some(l)]);
            SideOk(side, t, shape) && SideView(t) == SideView(s)[k := Level(l.price, Queue(l))]
  {
    hide ValidLevel, Queue;
    var t := s.(levels := s.levels[s.entries[k].level := Some(l)]);
    forall i | 0 <= i < |s.entries| ensures Backed(t.levels, t.entries[i], shape.orders) {
      assert Backed(s.levels, s.entries[i], shape.orders);
    }
  }

  /** Dropping the level behind entry `k`. */
  lemma {:induction false} DropLevel(side: Side, s: SideStore, shape: Shape, k: nat)
    requires SideOk(side, s, shape) && k < |s.entries|
    ensures s.entries[k].level < |s.levels|
    ensures var level := s.entries[k].level;
            var t := SideStore(Without(s.entries, k), s.free + [level], s.levels[level := None]);
            SideOk(side, t, shape) && SideView(t) == Without(SideView(s), k)
  {
    hide ValidLevel, Queue;
    var level := s.entries[k].level;
    var t := SideStore(Without(s.entries, k), s.free + [level], s.levels[level := None]);
    RemoveSorted(side, s.entries, k);
    RemovePartition(s.entries, s.free, shape.levels, k);
    forall i | 0 <= i < |t.entries| ensures Backed(t.levels, t.entries[i], shape.orders) {
      var j := if i < k then i else i + 1;
      assert Backed(s.levels, s.entries[j], shape.orders);
    }
    hide Partition, SortedEntries;
  }

  function Opened(s: SideStore, p: nat, l: PriceLevel): SideStore
    requires s.free != [] && s.free[|s.free| - 1] < |s.levels| && p <= |s.entries|
  {
    var level := s.free[|s.free| - 1];
    SideStore(InsertAt(s.entries, p, Entry(l.price, level)), s.free[..|s.free| - 1], s.levels[level := Some(l)])
  }

  lemma {:induction false} OpenBacked(side: Side, s: SideStore, shape: Shape, p: nat, l: PriceLevel)
    requires SideOk(side, s, shape) && s.free != [] && p <= |s.entries|
    requires ValidLevel(l, shape.orders) && l.len > 0
    ensures s.free[|s.free| - 1] < |s.levels|
    ensures var t := Opened(s, p, l);
            && (forall i :: 0 <= i < |t.entries| ==> Backed(t.levels, t.entries[i], shape.orders))
            && (forall f :: 0 <= f < |t.levels| && f in t.free ==> t.levels[f].None?)
  {
    hide ValidLevel, Queue;
    var t := Opened(s, p, l);
    forall i | 0 <= i < |t.entries| ensures Backed(t.levels, t.entries[i], shape.orders) {
      if i != p {
        var j := if i < p then i else i - 1;
        assert Backed(s.levels, s.entries[j], shape.orders);
        assert s.entries[j].level !in s.free;
      }
    }
    forall f | 0 <= f < |t.levels| && f in t.free ensures t.levels[f].None? {
      var i :| 0 <= i < |t.free| && t.free[i] == f;
      assert s.free[i] == f;
    }
  }

  lemma {:induction false} OpenView(side: Side, s: SideStore, shape: Shape, p: nat, l: PriceLevel)
    requires SideOk(side, s, shape) && s.free != [] && p <= |s.entries|
    ensures var level := s.free[|s.free| - 1];
            && level < |s.levels| && s.levels[level].None?
            && SideView(Opened(s, p, l)) == InsertAt(SideView(s), p, Level(l.price, Queue(l)))
  {
    hide ValidLevel, Queue;
    var level := s.free[|s.free| - 1];
    assert level in s.free;
    forall j | 0 <= j < |s.entries| ensures s.entries[j].level != level {
      assert s.entries[j].level !in s.free;
    }
  }

  /** Opening a level at a price that has none. */
  lemma {:induction false} LevelOpened(side: Side, s: SideStore, shape: Shape, p: nat, l: PriceLevel)
    requires SideOk(side, s, shape) && s.free != [] && Splits(side, s.entries, l.price, p)
    requires forall k :: 0 <= k < |s.entries| ==> s.entries[k].price != l.price
    requires ValidLevel(l, shape.orders) && l.len > 0
    ensures var level := s.free[|s.free| - 1];
            && level < |s.levels| && s.levels[level].None?
            && SideOk(side, Opened(s, p, l), shape)
            && SideView(Opened(s, p, l)) == InsertAt(SideView(s), p, Level(l.price, Queue(l)))
  {
    hide Partition, SortedEntries, Backed, ValidLevel, Queue, SideView;
    OpenBacked(side, s, shape, p, l);
    OpenView(side, s, shape, p, l);
    InsertSorted(side, s.entries, p, Entry(l.price, s.free[|s.free| - 1]));
    InsertPartition(s.entries, s.free, shape.levels, p, l.price);
  }
}
