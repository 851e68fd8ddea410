/** Single-instrument price-time book over fixed storage: level slots per side, a
    sorted level index per side, and one order index with reverse handles. Every
    operation is proved to act on the exported state as the specification does. */
module OrderBooks {
  import opened Types
  import opened ProbeIndexing
  import opened PriceLevels
  import opened BookSpec
  import opened LevelIndexing
  import opened BookStore
  import opened OrderIndexing
  import opened BookSteps
  import opened Priority
  import opened BookPlan
  import opened BookIds
  import opened Reports

  class OrderBook {
    const instrument: InstrumentId
    const shape: Shape
    var bids: seq<Option<PriceLevel>>
    var asks: seq<Option<PriceLevel>>
    const index: ProbeIndex
    const bidLevels: LevelIndex
    const askLevels: LevelIndex

    function SideLevels(side: Side): seq<Option<PriceLevel>>
      reads this
    {
      if side == Buy then bids else asks
    }

    function SideIndex(side: Side): LevelIndex {
      if side == Buy then bidLevels else askLevels
    }

    function Store(side: Side): SideStore
      reads this, bidLevels, askLevels
    {
      SideStore(SideIndex(side).entries, SideIndex(side).free, SideLevels(side))
    }

    function Levels(): Arena
      reads this
    {
      Arena(bids, asks)
    }

    /** What the book stands for: its exported state. */
    function View(): Book
      reads this, bidLevels, askLevels
    {
      Book(SideView(Store(Buy)), SideView(Store(Sell)))
    }

    /** The makers of a side in priority order, with their handles. */
    function SideMakers(side: Side): seq<Maker>
      reads this, bidLevels, askLevels
    {
      Makers(Store(side).entries, Store(side).levels)
    }

    /** The parts are distinct objects sized for the book. */
    ghost predicate Assembled() {
      && bidLevels != askLevels && bidLevels.side == Buy && askLevels.side == Sell
      && 0 < shape.orders < NIL
      && index.slots.Length == PLANES * (shape.levels * shape.orders) <= U32_BOUND
    }

    ghost predicate SidesOk()
      reads this, bidLevels, askLevels
    {
      Assembled() && SideOk(Buy, Store(Buy), shape) && SideOk(Sell, Store(Sell), shape)
    }

    ghost predicate Valid()
      reads this, index.slots, bidLevels, askLevels
    {
      && SidesOk()
      && Coupled(Levels(), index.slots[..], shape)
      && Stocked(View().bids) && Stocked(View().asks)
    }

    constructor (instrument: InstrumentId, shape: Shape)
      requires 0 < shape.orders < NIL && PLANES * (shape.levels * shape.orders) <= U32_BOUND
      ensures Valid() && View() == Book([], [])
      ensures this.instrument == instrument && this.shape == shape
      ensures fresh(index) && fresh(index.slots) && fresh(bidLevels) && fresh(askLevels)
    {
      this.instrument := instrument;
      this.shape := shape;
      bids := seq(shape.levels, _ => None);
      asks := seq(shape.levels, _ => None);
      index := new ProbeIndex(PLANES * (shape.levels * shape.orders));
      bidLevels := new LevelIndex(Buy, shape.levels);
      askLevels := new LevelIndex(Sell, shape.levels);
      new;
      hide SideOk, Coupled;
      EmptySide(Buy, Store(Buy), shape);
      EmptySide(Sell, Store(Sell), shape);
      EmptyCoupled(Levels(), index.slots[..], shape);
    }

    method StoreLevels(side: Side, levels: seq<Option<PriceLevel>>)
      modifies this`bids, this`asks
      ensures Levels() == old(Levels()).With(side, levels)
    {
      if side == Buy {
        bids := levels;
      } else {
        asks := levels;
      }
    }

    /** Takes `id` out of the order index; every entry that shifts tells its order. */
    method RemoveIndexEntry(handle: nat, id: OrderId, ghost gone: Location)
      requires SidesOk() && CoupledBut(Levels(), index.slots[..], shape, gone, id)
      requires handle < index.slots.Length && index.slots[handle].Occupied? && index.slots[handle].key == id
      modifies this`bids, this`asks, index.slots
      ensures SidesOk() && CoupledBut(Levels(), index.slots[..], shape, gone, id)
      ensures !Holds(index.slots[..], id)
      ensures View() == old(View())
      ensures forall side :: LevelsAlike(old(SideLevels(side)), SideLevels(side), shape.orders)
      ensures old(BodyAt(Levels(), gone)).None? ==> BodyAt(Levels(), gone).None?
    {
      hide Coupled, CoupledBut, WellProbed, Relocated, EntriesWithout, SideOk, SideView, LevelsAlike, ApplyMove, BodyAt, Holds;
      ghost var before, idx, sides := Levels(), index.slots[..], (Store(Buy), Store(Sell));
      CoupledRoom(before, idx, shape, gone, id);
      var removed, moves := index.RemoveAt(handle, id);
      ghost var after := index.slots[..];
      var t := 0;
      while t < |moves|
        invariant 0 <= t <= |moves| && index.slots[..] == after
        invariant Levels() == ApplyMoves(before, moves[..t], shape)
      {
        assert moves[..t + 1][..t] == moves[..t];
        var a := ApplyMove(Levels(), moves[t], shape);
        bids, asks := a.bids, a.asks;
        t := t + 1;
      }
      assert moves[..t] == moves;
      RemovalKeeps(before, idx, after, moves, shape, gone, id);
      ApplyMovesBody(before, moves, shape, gone);
      forall side ensures LevelsAlike(before.At(side), SideLevels(side), shape.orders) {
        ApplyMovesAlike(before, moves, shape, side);
      }
      assert LevelsAlike(before.At(Buy), SideLevels(Buy), shape.orders);
      assert LevelsAlike(before.At(Sell), SideLevels(Sell), shape.orders);
      AlikeSide(Buy, sides.0, bids, shape);
      AlikeSide(Sell, sides.1, asks, shape);
    }

    /** Unlinks the order at a listed slot and drops its level if that empties it. */
    method Detach(loc: Location, ghost k: nat, ghost j: nat) returns (removed: RestingOrder)
      requires SidesOk() && Listed(Store(loc.side), loc.level, loc.slot, k, j)
      modifies this`bids, this`asks, SideIndex(loc.side)
      ensures SidesOk()
      ensures InLevels(old(View()).At(loc.side), k, j)
      ensures View() == old(View()).With(loc.side, RemoveOrder(old(View()).At(loc.side), k, j))
      ensures AgreeBut(old(Levels()), Levels(), loc) && BodyAt(Levels(), loc).None?
      ensures old(BodyAt(Levels(), loc)) == Some(Body(removed))
      ensures k == 0 && j == 0 ==> old(SideMakers(loc.side)) != [] && SideMakers(loc.side) == old(SideMakers(loc.side))[1..]
    {
      hide SideOk, SideView, Listed, Unlink, BodyAt, AgreeBut, RemoveOrder, Makers;
      ghost var s, a := Store(loc.side), Levels();
      ListedLevel(s, loc.level, loc.slot, k, j);
      DetachView(loc.side, s, shape, loc.level, loc.slot, k, j);
      DetachBodies(loc.side, s, shape, loc.level, loc.slot, k, j, a);
      var level := SideLevels(loc.side)[loc.level].value;
      var (rest, order) := Unlink(level, loc.slot).value;
      if rest.len == 0 {
        StoreLevels(loc.side, SideLevels(loc.side)[loc.level := None]);
        RemoveListed(loc.side, s, shape, k);
        var slot := SideIndex(loc.side).Remove(rest.price, shape.levels);
        EntryIs(loc.side, s, shape, k);
      } else {
        StoreLevels(loc.side, SideLevels(loc.side)[loc.level := Some(rest)]);
      }
      assert Store(loc.side) == Detached(s, k, rest);
      assert Levels() == a.With(loc.side, Detached(s, k, rest).levels);
      if k == 0 && j == 0 {
        ListedHead(loc.side, s, shape, loc.level, loc.slot);
        HeadTaken(loc.side, s, shape);
      }
      removed := order;
    }

    /** Appends one order at its price, opening the level if needed, and indexes it. */
    method RestAtTail(side: Side, price: Price, order: RestingOrder)
      requires SidesOk() && Coupled(Levels(), index.slots[..], shape) && shape.orders > 0
      requires !Holds(index.slots[..], order.id)
      requires RestRejection(side, View().At(side), price, shape).None?
      modifies this`bids, this`asks, SideIndex(side), index.slots
      ensures SidesOk() && Coupled(Levels(), index.slots[..], shape)
      ensures View() == old(View()).With(side, AddOrder(side, old(View()).At(side), price, Logical(order)))
    {
      hide SideOk, SideView, Coupled, BodyAt, AgreeBut, EncodeLocation, PushTail, SetHandle, Holds, WellProbed, AddOrder, RestRejection;
      ghost var a, idx := Levels(), index.slots[..];
      var level, slot := PushOrder(side, price, order);
      assert index.slots[..] == idx;
      ghost var b := Levels();
      var loc := Location(side, level, slot);
      RoomToInsert(a, idx, shape, loc);
      ghost var e :| 0 <= e < |index.slots[..]| && index.slots[..][e].Empty?;
      assert index.slots[e].Empty?;
      EncodeDecode(loc, shape);
      var inserted := index.Insert(order.id, EncodeLocation(loc, shape).value);
      var handle := inserted.value;
      ghost var s := Store(side);
      HandleStep(side, s, shape, loc, handle, b);
      StoreLevels(side, SideLevels(side)[level := Some(SetHandle(SideLevels(side)[level].value, slot, handle))]);
      assert Levels() == b.With(side, s.levels[level := Some(SetHandle(s.levels[level].value, slot, handle))]);
      AgreeTrans(a, b, Levels(), loc);
      InsertKept(a, Levels(), idx, index.slots[..], shape, loc, handle);
    }

    /** The level part of resting an order: find or open the level and push. */
    method PushOrder(side: Side, price: Price, order: RestingOrder) returns (level: nat, slot: nat)
      requires SidesOk() && shape.orders > 0
      requires RestRejection(side, View().At(side), price, shape).None?
      modifies this`bids, this`asks, SideIndex(side)
      ensures SidesOk()
      ensures View() == old(View()).With(side, AddOrder(side, old(View()).At(side), price, Logical(order)))
      ensures Arrived(old(Levels()), Levels(), Location(side, level, slot), order, shape)
    {
      hide SideOk, SideView, Place, Arrived, AddOrder;
      StoreFacts(side, Store(side), shape);
      var found := SideIndex(side).Find(price);
      if found.Some? {
        level := found.value;
        ghost var k: nat :| k < |SideIndex(side).entries| && SideIndex(side).entries[k] == Entry(price, level);
        EntryPlace(side, Store(side), shape, k);
        slot := PushBehind(side, price, level, order, k);
      } else {
        NoEntryPlace(side, Store(side), shape, price);
        level, slot := PushOpening(side, price, order);
      }
    }

    method PushBehind(side: Side, price: Price, level: nat, order: RestingOrder, ghost k: nat) returns (slot: nat)
      requires SidesOk() && k < |SideIndex(side).entries| && SideIndex(side).entries[k] == Entry(price, level)
      requires |View().At(side)[k].orders| != shape.orders
      modifies this`bids, this`asks
      ensures SidesOk()
      ensures View() == old(View()).With(side, AddOrder(side, old(View()).At(side), price, Logical(order)))
      ensures Arrived(old(Levels()), Levels(), Location(side, level, slot), order, shape)
    {
      hide SideOk, SideView, BodyAt, AgreeBut, EncodeLocation, PushTail, Place;
      ghost var s, a := Store(side), Levels();
      StoreFacts(side, s, shape);
      EntryPlace(side, s, shape, k);
      PushView(side, s, shape, k, order, a);
      var pushed := PushTail(SideLevels(side)[level].value, order).value;
      slot := pushed.1;
      StoreLevels(side, SideLevels(side)[level := Some(pushed.0)]);
      assert Store(side) == s.(levels := s.levels[level := Some(pushed.0)]);
      assert Levels() == a.With(side, s.levels[level := Some(pushed.0)]);
    }

    method PushOpening(side: Side, price: Price, order: RestingOrder) returns (level: nat, slot: nat)
      requires SidesOk() && shape.orders > 0 && |View().At(side)| != shape.levels
      requires forall k :: 0 <= k < |SideIndex(side).entries| ==> SideIndex(side).entries[k].price != price
      modifies this`bids, this`asks, SideIndex(side)
      ensures SidesOk()
      ensures View() == old(View()).With(side, AddOrder(side, old(View()).At(side), price, Logical(order)))
      ensures Arrived(old(Levels()), Levels(), Location(side, level, slot), order, shape)
    {
      hide SideOk, SideView, PushTail, NewLevel, AddOrder, SortedEntries, Partition, Arrived, Splits, Store, Levels;
      ghost var s, a := Store(side), Levels();
      StoreParts(side);
      StoreFacts(side, s, shape);
      assert |s.entries| == |View().At(side)|;
      ghost var p: nat;
      level, slot, p := OpenLevel(side, price, order);
      OpenStep(side, s, shape, p, price, order, a);
    }

    lemma {:induction false} StoreParts(side: Side)
      ensures Store(side) == SideStore(SideIndex(side).entries, SideIndex(side).free, SideLevels(side))
      ensures Levels().At(side) == SideLevels(side)
      ensures Assembled() ==> SideIndex(side).side == side
    {
    }

    /** The storage part of opening a level: list its price in a pooled slot, put the
        level with its one order there. */
    method OpenLevel(side: Side, price: Price, order: RestingOrder) returns (level: nat, slot: nat, ghost p: nat)
      requires Assembled() && SideIndex(side).Valid(shape.levels) && SideIndex(side).free != []
      requires |SideLevels(side)| == shape.levels
      requires forall k :: 0 <= k < |SideIndex(side).entries| ==> SideIndex(side).entries[k].price != price
      modifies this`bids, this`asks, SideIndex(side)
      ensures var s := old(Store(side));
              && PushTail(NewLevel(price, shape.orders), order).Some?
              && p <= |s.entries| && Splits(side, s.entries, price, p) && level == s.free[|s.free| - 1] < |s.levels|
              && slot == PushTail(NewLevel(price, shape.orders), order).value.1
              && Store(side) == SideStore(InsertAt(s.entries, p, Entry(price, level)), s.free[..|s.free| - 1],
                                          s.levels[level := Some(PushTail(NewLevel(price, shape.orders), order).value.0)])
      ensures Store(side.Opposite()) == old(Store(side.Opposite()))
      ensures Levels() == old(Levels()).With(side, Store(side).levels)
    {
      hide PushTail, NewLevel, SortedEntries, Partition, Splits, InsertAt;
      FirstPush(price, shape.orders, order);
      PoolInRange(SideIndex(side).entries, SideIndex(side).free, shape.levels);
      var listed: Option<nat>;
      listed, p := SideIndex(side).Insert(price, shape.levels);
      level := listed.value;
      var pushed := PushTail(NewLevel(price, shape.orders), order).value;
      slot := pushed.1;
      StoreLevels(side, SideLevels(side)[level := Some(pushed.0)]);
    }

    /** The best level with its maintained total: the sum of its resting quantities. */
    method Top(side: Side) returns (r: Option<TopLevel>)
      requires SidesOk()
      ensures r == TopOf(View().At(side))
    {
      hide SideOk, SideView, ValidLevel, Queue, Chain;
      ghost var s := Store(side);
      StoreFacts(side, s, shape);
      var entries := SideIndex(side).entries;
      if entries == [] {
        return None;
      }
      LevelLength(side, s, shape, 0);
      LevelTotal(side, s, shape, 0);
      SamePrice(side, s, shape, 0);
      var level := SideLevels(side)[entries[0].level].value;
      r := Some(TopLevel(entries[0].price, level.aggregate, level.len));
    }

    /** One walk over the crossing makers of an unchanged book: every way to refuse
        is decided here. */
    method BuildPlan(order: NewOrder, capacity: nat) returns (r: Result<MatchPlan, RejectReason>)
      requires SidesOk()
      ensures r == PlanOutcome(order, SideMakers(order.side.Opposite()), View().At(order.side), shape, capacity)
    {
      hide SideOk, SideView, Makers, MakersAt, MakersFrom, Chain, Plan, PlanLeft, CursorAt, HasPrice, Planning, RestRejection, Crosses;
      var maker := order.side.Opposite();
      var entries := SideIndex(maker).entries;
      var fills: seq<FillEntry> := [];
      var remaining := order.quantity;
      ghost var s := Store(maker);
      ghost var all := SideMakers(maker);
      var k := 0;
      ghost var rest := all;
      PlanningStart(order, all);
      assert entries[0..] == entries;
      while k < |entries|
        invariant 0 <= k <= |entries| && |fills| <= capacity
        invariant rest == Makers(entries[k..], s.levels)
        invariant Planning(order, all, fills, rest, remaining)
      {
        if remaining == 0 {
          break;
        }
        MakersFromStart(s, k);
        CursorStep(maker, s, shape, k, 0);
        if !Crosses(order.side, order.price, entries[k].price) {
          break;
        }
        var level := SideLevels(maker)[entries[k].level].value;
        var cursor := level.head;
        ghost var j := 0;
        while cursor != NIL && remaining > 0
          invariant 0 <= j <= |Chain(level)| && cursor == CursorAt(level, j) && |fills| <= capacity
          invariant rest == MakersFrom(s, k, j)
          invariant Planning(order, all, fills, rest, remaining)
          decreases |Chain(level)| - j
        {
          CursorStep(maker, s, shape, k, j);
          var resting := level.slots[cursor].order;
          var traded := Min(remaining, resting.quantity);
          PlanningTake(order, all, fills, rest, remaining);
          if |fills| >= capacity {
            return Err(ReportCapacity);
          }
          fills := fills + [FillEntry(entries[k].level, cursor, resting.id, entries[k].price, traded)];
          remaining := remaining - traded;
          rest := rest[1..];
          cursor := resting.next;
          j := j + 1;
        }
        CursorStep(maker, s, shape, k, j);
        k := k + 1;
        if remaining == 0 {
          PlanningSkip(order, all, fills, rest, Makers(entries[k..], s.levels));
          rest := Makers(entries[k..], s.levels);
        }
      }
      if k == |entries| {
        assert entries[k..] == [];
        NoMakers(s.levels);
      }
      PlanningEnd(order, all, fills, rest, remaining);
      r := Restable(order, fills, remaining);
    }

    /** The time-in-force and resting-capacity half of planning. */
    method Restable(order: NewOrder, fills: seq<FillEntry>, remaining: Quantity) returns (r: Result<MatchPlan, RejectReason>)
      requires SidesOk()
      ensures r ==
              if order.tif == Fok && remaining > 0 then Err(InsufficientLiquidity)
              else if order.tif == Ioc then Ok(MatchPlan(fills, 0, remaining))
              else if Rests(order.tif) && remaining > 0 && RestRejection(order.side, View().At(order.side), order.price, shape).Some?
              then Err(RestRejection(order.side, View().At(order.side), order.price, shape).value)
              else Ok(MatchPlan(fills, remaining, 0))
    {
      match order.tif {
        case Fok =>
          if remaining > 0 {
            return Err(InsufficientLiquidity);
          }
        case Ioc =>
          return Ok(MatchPlan(fills, 0, remaining));
        case Gtc | PostOnly =>
          if remaining > 0 {
            var full := RestCheck(order.side, order.price);
            if full.Some? {
              return Err(full.value);
            }
          }
      }
      return Ok(MatchPlan(fills, remaining, 0));
    }

    /** Is there room for one more order at `price`? */
    method RestCheck(side: Side, price: Price) returns (r: Option<RejectReason>)
      requires SidesOk()
      ensures r == RestRejection(side, View().At(side), price, shape)
    {
      hide SideOk, SideView, Place;
      ghost var s := Store(side);
      StoreFacts(side, s, shape);
      var found := SideIndex(side).Find(price);
      if found.Some? {
        ghost var k: nat :| k < |s.entries| && s.entries[k] == Entry(price, found.value);
        EntryPlace(side, s, shape, k);
        LevelLength(side, s, shape, k);
        if SideLevels(side)[found.value].value.len == shape.orders {
          return Some(PriceLevelOrderCapacity);
        }
        return None;
      }
      NoEntryPlace(side, s, shape, price);
      return if SideIndex(side).free == [] then Some(PriceLevelCapacity) else None;
    }

    /** Reduces a listed order in place: slot, handle and FIFO place stay. */
    method ReduceAt(loc: Location, quantity: Quantity, ghost k: nat, ghost j: nat)
      requires Valid() && Listed(Store(loc.side), loc.level, loc.slot, k, j)
      requires InLevels(View().At(loc.side), k, j) && quantity < View().At(loc.side)[k].orders[j].quantity
      modifies this`bids, this`asks
      ensures Valid()
      ensures var o := old(View()).At(loc.side)[k].orders[j];
              View() == old(View()).With(loc.side, SetOrder(old(View()).At(loc.side), k, j, o.(quantity := o.quantity - quantity)))
    {
      hide SideOk, SideView, Coupled, ReduceQuantity, Listed, SetOrder, Stocked;
      ghost var s, a, idx := Store(loc.side), Levels(), index.slots[..];
      ReduceView(loc.side, s, shape, loc.level, loc.slot, k, j, quantity, a);
      SetStocked(View().At(loc.side), k, j, quantity);
      var level := ReduceQuantity(SideLevels(loc.side)[loc.level].value, loc.slot, quantity).value;
      StoreLevels(loc.side, SideLevels(loc.side)[loc.level := Some(level)]);
      assert Store(loc.side) == s.(levels := s.levels[loc.level := Some(level)]);
      RetouchedCoupled(a, Levels(), idx, shape, loc);
      assert index.slots[..] == idx;
    }

    /** Removes an order that a fill exhausted: index first, then the level. */
    method RemoveFilledOrder(loc: Location, id: OrderId, handle: nat)
      requires SidesOk() && Coupled(Levels(), index.slots[..], shape)
      requires Listed(Store(loc.side), loc.level, loc.slot, 0, 0)
      requires BodyAt(Levels(), loc).Some? && BodyAt(Levels(), loc).value.id == id && BodyAt(Levels(), loc).value.indexSlot == handle
      modifies this`bids, this`asks, SideIndex(loc.side), index.slots
      ensures SidesOk() && Coupled(Levels(), index.slots[..], shape)
      ensures InLevels(old(View()).At(loc.side), 0, 0)
      ensures View() == old(View()).With(loc.side, RemoveOrder(old(View()).At(loc.side), 0, 0))
      ensures old(SideMakers(loc.side)) != [] && SideMakers(loc.side) == old(SideMakers(loc.side))[1..]
    {
      hide SideOk, SideView, Coupled, CoupledBut, BodyAt, AgreeBut, RemoveOrder, Makers, LevelsAlike, Listed, Holds;
      ghost var s := Store(loc.side);
      BeginRemoval(Levels(), index.slots[..], shape, loc);
      assert index.slots[handle] == index.slots[..][handle];
      RemoveIndexEntry(handle, id, loc);
      MakersAlike(loc.side, s, SideLevels(loc.side), shape);
      ListedAlike(loc.side, s, SideLevels(loc.side), shape, loc.level, loc.slot, 0, 0);
      ghost var a, idx := Levels(), index.slots[..];
      var removed := Detach(loc, 0, 0);
      assert index.slots[..] == idx;
      AgreeKeeps(a, Levels(), idx, shape, loc, id);
      EndRemoval(Levels(), idx, shape, loc, id);
    }

    /** The first maker is the listed head of the best level. */
    lemma {:induction false} HeadListed(side: Side)
      requires Valid() && SideMakers(side) != []
      ensures var m := SideMakers(side)[0];
              && m.level < |SideLevels(side)| && SideLevels(side)[m.level].Some?
              && IsLive(SideLevels(side)[m.level].value.slots, m.slot)
              && Listed(Store(side), m.level, m.slot, 0, 0)
              && var order := SideLevels(side)[m.level].value.slots[m.slot].order;
              && order.id == m.rest.order.id && order.quantity == m.rest.order.quantity
              && BodyAt(Levels(), Location(side, m.level, m.slot)) == Some(Body(order))
              && InLevels(View().At(side), 0, 0) && View().At(side)[0].orders[0] == m.rest.order
    {
      hide SideOk, SideView, Coupled, Makers, Listed, Stocked, Queue, ValidLevel;
      HeadExists(side, Store(side), shape);
      HeadMaker(side, Store(side), shape);
    }

    /** Applies one planned fill to the head maker it names. */
    method ApplyFill(side: Side, e: FillEntry)
      requires Valid()
      requires SideMakers(side) != [] && e.level == SideMakers(side)[0].level && e.slot == SideMakers(side)[0].slot
      requires e.id == SideMakers(side)[0].rest.order.id && 0 < e.quantity <= SideMakers(side)[0].rest.order.quantity
      modifies this`bids, this`asks, SideIndex(side), index.slots
      ensures Valid()
      ensures InLevels(old(View()).At(side), 0, 0) && e.quantity <= old(View()).At(side)[0].orders[0].quantity
      ensures View() == old(View()).With(side, FillHead(old(View()).At(side), e.quantity))
      ensures e.quantity == old(SideMakers(side)[0].rest.order.quantity) ==> SideMakers(side) == old(SideMakers(side))[1..]
    {
      hide SideOk, View, Coupled, SideMakers, Listed, RemoveOrder, SetOrder, Stocked, Store, Levels, BodyAt;
      HeadListed(side);
      var maker := SideLevels(side)[e.level].value.slots[e.slot].order;
      FillHeadStocked(View().At(side), e.quantity);
      var loc := Location(side, e.level, e.slot);
      if maker.quantity == e.quantity {
        RemoveFilledOrder(loc, e.id, maker.indexSlot);
      } else {
        ReduceAt(loc, e.quantity, 0, 0);
      }
    }

    /** The best maker is the head of the view. */
    lemma {:induction false} HeadOfView(side: Side)
      requires Valid() && SideMakers(side) != []
      ensures InLevels(View().At(side), 0, 0)
      ensures View().At(side)[0].orders[0] == SideMakers(side)[0].rest.order
      ensures View().At(side)[0].price == SideMakers(side)[0].rest.price
      ensures View().At(side)[0].orders[0].quantity > 0
    {
      hide SideOk, Coupled, Makers, SideView;
      HeadExists(side, Store(side), shape);
      HeadMaker(side, Store(side), shape);
      assert StockedLevel(View().At(side)[0]);
    }

    /** The head slot of the best level, as the fast path reads it. */
    lemma {:induction false} HeadSlot(side: Side)
      requires Valid() && SideIndex(side).entries != []
      ensures var e := SideIndex(side).entries[0];
              && e.level < |SideLevels(side)| && SideLevels(side)[e.level].Some?
              && var l := SideLevels(side)[e.level].value;
              && IsLive(l.slots, l.head) && l.slots[l.head].order.quantity > 0
              && SideMakers(side) != []
              && SideMakers(side)[0] == Maker(e.level, l.head, Resting(e.price, Logical(l.slots[l.head].order)))
              && InLevels(View().At(side), 0, 0) && View().At(side)[0].price == e.price
              && View().At(side)[0].orders[0] == Logical(l.slots[l.head].order)
    {
      hide SideOk, Coupled, Makers, SideView;
      HeadMaker(side, Store(side), shape);
      HeadOfView(side);
    }

    lemma {:induction false} ViewStocked()
      requires Valid()
      ensures StockedBook(View())
      ensures forall side :: View().At(side) == [] <==> SideIndex(side).entries == []
    {
      hide SideOk, Coupled, SideView, Stocked;
    }

    /** The view is within capacity, best prices first. */
    lemma {:induction false} ViewShaped()
      requires Valid()
      ensures Fits(Buy, View().bids, shape) && Fits(Sell, View().asks, shape) && StockedBook(View())
    {
      hide SideOk, Coupled, SideView, Stocked, Fits;
      ViewFits(Buy, Store(Buy), shape);
      ViewFits(Sell, Store(Sell), shape);
    }

    /** No id rests twice, whatever sequence numbers the orders came with. */
    lemma {:induction false} ViewUnique()
      requires Valid()
      ensures UniqueIds(View())
    {
      hide SideOk, Coupled, SideView, Stocked, UniqueIds;
      UniqueView(Store(Buy), Store(Sell), index.slots[..], shape);
    }

    lemma {:induction false} NothingPlanned(order: NewOrder, quantity: Quantity)
      requires Valid() && Plan(order.side, order.price, SideMakers(order.side.Opposite()), quantity) == []
      ensures StockedBook(View())
      ensures Match(order.side, order.price, View().At(order.side.Opposite()), quantity).fills == []
    {
      hide SideOk, Coupled, Makers, SideView, Stocked;
      PlanIsMatch(order.side, order.price, order.side.Opposite(), Store(order.side.Opposite()), shape, quantity);
    }

    /** Applies a plan built against this very book: no step of it can fail. */
    method ApplyPlan(order: NewOrder, plan: MatchPlan, reports: ReportBuffer)
      requires Valid() && reports.Valid() && |reports.entries| + |plan.fills| <= reports.capacity
      requires plan.fills == Plan(order.side, order.price, SideMakers(order.side.Opposite()), order.quantity)
      requires !Contains(View(), order.orderId)
      requires plan.resting > 0 ==> RestRejection(order.side, View().At(order.side), order.price, shape).None?
      modifies this`bids, this`asks, bidLevels, askLevels, index.slots, reports
      ensures Valid() && reports.Valid()
      ensures reports.entries == old(reports.entries) + ReportsOf(order, FillsOf(plan.fills))
      ensures StockedBook(old(View())) && View() == Applied(old(View()), order, plan.resting)
    {
      hide View, SideMakers, SideOk, Coupled, Stocked, Plan, ReportsOf, FillsOf, RestRejection, Contains, Applied, Match, Toward, FillHead;
      var maker := order.side.Opposite();
      ghost var before, book := reports.entries, View();
      ghost var rem: Quantity := order.quantity;
      TowardStart(book, order);
      NoReports(order);
      assert before + [] == before;
      assert plan.fills[0..] == plan.fills;
      for t := 0 to |plan.fills|
        invariant Valid() && reports.Valid() && |plan.fills| - t + |reports.entries| <= reports.capacity
        invariant plan.fills[t..] == Plan(order.side, order.price, SideMakers(maker), rem)
        invariant Toward(book, View(), order, rem)
        invariant !Contains(View(), order.orderId)
        invariant reports.entries == before + ReportsOf(order, FillsOf(plan.fills[..t]))
      {
        var e := plan.fills[t];
        ghost var view, makers := View(), SideMakers(maker);
        NextFill(order, makers, plan.fills[t..], rem);
        HeadOfView(maker);
        TowardStep(book, view, order, rem);
        ReportsStep(order, plan.fills, t);
        var ok := reports.Push(ExecutionReport(e.id, order.orderId, order.instrument, e.price, e.quantity, order.sequence));
        ApplyFill(maker, e);
        FillHeadContains(view, maker, e.quantity, order.orderId);
        rem := rem - e.quantity;
        assert plan.fills[t..][1..] == plan.fills[t + 1..];
        NextPlan(order, makers, SideMakers(maker), plan.fills[t + 1..], rem);
      }
      assert plan.fills[..|plan.fills|] == plan.fills;
      NothingPlanned(order, rem);
      TowardEnd(book, View(), order, rem, plan.resting);
      if plan.resting > 0 {
        Rest(order, plan.resting);
      }
    }

    /** Rests the untraded remainder of an admitted order. */
    method Rest(order: NewOrder, quantity: Quantity)
      requires Valid() && !Contains(View(), order.orderId) && quantity > 0
      requires RestRejection(order.side, View().At(order.side), order.price, shape).None?
      modifies this`bids, this`asks, SideIndex(order.side), index.slots
      ensures Valid()
      ensures View() == old(View()).With(order.side, AddOrder(order.side, old(View()).At(order.side), order.price,
                                                               Order(order.orderId, order.accountId, quantity, order.sequence)))
    {
      hide SideOk, Coupled, Stocked, SideView, RestRejection, Contains, AddOrder, Holds;
      HoldsIffContains(Store(Buy), Store(Sell), index.slots[..], shape, order.orderId);
      AddStocked(order.side, View().At(order.side), order.price, Order(order.orderId, order.accountId, quantity, order.sequence));
      RestAtTail(order.side, order.price, RestingOrder(order.orderId, order.accountId, 0, quantity, order.sequence, NIL, NIL));
    }

    /** Resolves an id through the index to its location and owner. */
    method LocateOrder(id: OrderId) returns (r: Option<(Location, AccountId)>, ghost k: nat, ghost j: nat)
      requires Valid()
      ensures r.None? <==> !Contains(View(), id)
      ensures r.Some? ==> Listed(Store(r.value.0.side), r.value.0.level, r.value.0.slot, k, j)
      ensures r.Some? ==> Found(View(), id, Position(r.value.0.side, k, j), r.value.1)
      ensures r.Some? ==> BodyAt(Levels(), r.value.0).Some? && BodyAt(Levels(), r.value.0).value.id == id
    {
      hide SideOk, Coupled, Stocked, SideView, Contains, Holds, Listed, Locate, Found, BodyAt, WellProbed;
      HoldsIffContains(Store(Buy), Store(Sell), index.slots[..], shape, id);
      IndexProbed(Levels(), index.slots[..], shape);
      k, j := 0, 0;
      var flat := index.FindSlot(id);
      if flat.None? {
        return None, k, j;
      }
      FlatHolds(index.slots[..], flat.value, id);
      k, j := EntryIsListed(Store(Buy), Store(Sell), index.slots[..], shape, flat.value);
      var loc := DecodeLocation(index.slots[flat.value].value, shape).value;
      ListedLevel(Store(loc.side), loc.level, loc.slot, k, j);
      var level := SideLevels(loc.side)[loc.level].value;
      LiveAt(Levels(), loc, level);
      r := Some((loc, level.slots[loc.slot].order.account));
    }

    /** Takes an order out of its level and out of the index. */
    method Withdraw(loc: Location, ghost k: nat, ghost j: nat) returns (removed: RestingOrder)
      requires Valid() && Listed(Store(loc.side), loc.level, loc.slot, k, j)
      requires BodyAt(Levels(), loc).Some?
      modifies this`bids, this`asks, SideIndex(loc.side), index.slots
      ensures Valid() && InLevels(old(View()).At(loc.side), k, j)
      ensures View() == old(View()).With(loc.side, RemoveOrder(old(View()).At(loc.side), k, j))
      ensures old(BodyAt(Levels(), loc)) == Some(Body(removed))
      ensures !Holds(index.slots[..], removed.id)
    {
      hide SideOk, Coupled, CoupledBut, Stocked, SideView, Listed, BodyAt, AgreeBut, RemoveOrder, LevelsAlike, Holds, Makers;
      ghost var a, idx := Levels(), index.slots[..];
      ghost var id := BodyAt(a, loc).value.id;
      BeginRemoval(a, idx, shape, loc);
      ListedIsLive(loc.side, Store(loc.side), shape, loc.level, loc.slot, k, j);
      RemoveStocked(View().At(loc.side), k, j);
      removed := Detach(loc, k, j);
      assert index.slots[..] == idx;
      AgreeKeeps(a, Levels(), idx, shape, loc, id);
      RemoveIndexEntry(removed.indexSlot, removed.id, loc);
      EndRemoval(Levels(), index.slots[..], shape, loc, id);
    }

    /** Removes an owned resting order; peers keep slot, handle and place. */
    method Cancel(cancel: CancelOrder) returns (r: Result<CancelledOrder, RejectReason>)
      requires Valid()
      modifies this`bids, this`asks, bidLevels, askLevels, index.slots
      ensures Valid()
      ensures match CancelResting(old(View()), instrument, cancel)
              case Err(reason) => r == Err(reason) && View() == old(View())
              case Ok(done) => r == Ok(done.1) && View() == done.0
    {
      hide SideOk, Coupled, Stocked, SideView, Listed, BodyAt, RemoveOrder, Locate, Holds;
      if cancel.instrument != instrument {
        return Err(InvalidInstrument);
      }
      var found, k, j := LocateOrder(cancel.orderId);
      if found.None? {
        return Err(UnknownOrder);
      }
      var (loc, owner) := found.value;
      if owner != cancel.accountId {
        return Err(NotOrderOwner);
      }
      ListedIsLive(loc.side, Store(loc.side), shape, loc.level, loc.slot, k, j);
      BodyIsListed(Levels(), loc, Store(loc.side), k, j);
      var removed := Withdraw(loc, k, j);
      r := Ok(CancelledOrder(removed.id, removed.account, removed.quantity));
    }

    /** Capacity and crossing checks of a replace that loses priority. */
    method MoveCheck(loc: Location, price: Price, ghost k: nat, ghost j: nat) returns (r: Option<RejectReason>)
      requires SidesOk() && Listed(Store(loc.side), loc.level, loc.slot, k, j)
      requires InLevels(View().At(loc.side), k, j)
      ensures r == MoveRejection(View(), Position(loc.side, k, j), price, shape)
    {
      hide SideOk, SideView, HasPrice, Listed, Place;
      ListedLevel(Store(loc.side), loc.level, loc.slot, k, j);
      SamePrice(loc.side, Store(loc.side), shape, k);
      var level := SideLevels(loc.side)[loc.level].value;
      var opposing := SideIndex(loc.side.Opposite()).entries;
      if price != level.price && opposing != [] && Crosses(loc.side, price, opposing[0].price) {
        return Some(ReplaceWouldCross);
      }
      r := DestinationCheck(loc, price, k);
    }

    method DestinationCheck(loc: Location, price: Price, ghost k: nat) returns (r: Option<RejectReason>)
      requires SidesOk() && k < |SideIndex(loc.side).entries| && SideIndex(loc.side).entries[k].level == loc.level
      ensures r == DestinationRejection(View().At(loc.side), loc.side, k, price, shape)
    {
      hide SideOk, SideView, Place, SortedEntries, Partition;
      ghost var s := Store(loc.side);
      StoreFacts(loc.side, s, shape);
      LevelLength(loc.side, s, shape, k);
      SamePrice(loc.side, s, shape, k);
      var level := SideLevels(loc.side)[loc.level].value;
      var found := SideIndex(loc.side).Find(price);
      if found.Some? {
        ghost var d: nat :| d < |s.entries| && s.entries[d] == Entry(price, found.value);
        EntryPlace(loc.side, s, shape, d);
        LevelLength(loc.side, s, shape, d);
        SameEntry(loc.side, s, shape, k, d);
        var same := found.value == loc.level && price == level.price;
        if SideLevels(loc.side)[found.value].value.len == shape.orders && !same {
          return Some(PriceLevelOrderCapacity);
        }
        return None;
      }
      NoEntryPlace(loc.side, s, shape, price);
      var full := shape.levels - |SideIndex(loc.side).entries| == 0;
      return if full && level.len != 1 then Some(PriceLevelCapacity) else None;
    }

    /** Owned amend: a same-price reduction keeps its slot and place, anything else
        leaves and re-enters at the destination tail, and never trades. */
    method Replace(replace: ReplaceOrder) returns (r: Result<ReplacedOrder, RejectReason>)
      requires Valid()
      modifies this`bids, this`asks, bidLevels, askLevels, index.slots
      ensures Valid()
      ensures match ReplaceResting(old(View()), shape, instrument, replace)
              case Err(reason) => r == Err(reason) && View() == old(View())
              case Ok(done) => r == Ok(done.1) && View() == done.0
    {
      hide SideOk, Coupled, Stocked, SideView, Listed, BodyAt, RemoveOrder, AddOrder, SetOrder, Locate, MoveRejection, RestRejection, Holds;
      if replace.instrument != instrument {
        return Err(InvalidInstrument);
      }
      var found, k, j := LocateOrder(replace.orderId);
      if found.None? {
        return Err(UnknownOrder);
      }
      var (loc, owner) := found.value;
      if owner != replace.accountId {
        return Err(NotOrderOwner);
      }
      if replace.price <= 0 {
        return Err(InvalidPrice);
      }
      if replace.quantity == 0 {
        return Err(InvalidQuantity);
      }
      ListedLevel(Store(loc.side), loc.level, loc.slot, k, j);
      ListedIsLive(loc.side, Store(loc.side), shape, loc.level, loc.slot, k, j);
      BodyIsListed(Levels(), loc, Store(loc.side), k, j);
      SamePrice(loc.side, Store(loc.side), shape, k);
      var level := SideLevels(loc.side)[loc.level].value;
      LiveAt(Levels(), loc, level);
      var order := level.slots[loc.slot].order;
      var kept := replace.price == level.price && replace.quantity < order.quantity;
      var outcome := ReplacedOrder(replace.orderId, replace.accountId, order.quantity, replace.quantity, replace.price, !kept);
      if kept {
        ReduceAt(loc, order.quantity - replace.quantity, k, j);
        return Ok(outcome);
      }
      var refused := MoveCheck(loc, replace.price, k, j);
      if refused.Some? {
        return Err(refused.value);
      }
      Move(loc, replace, k, j);
      r := Ok(outcome);
    }

    /** Takes a listed order out and rests its replacement at the destination tail. */
    method Move(loc: Location, replace: ReplaceOrder, ghost k: nat, ghost j: nat)
      requires Valid() && Listed(Store(loc.side), loc.level, loc.slot, k, j) && InLevels(View().At(loc.side), k, j)
      requires BodyAt(Levels(), loc).Some? && BodyAt(Levels(), loc).value.id == replace.orderId && replace.quantity > 0
      requires MoveRejection(View(), Position(loc.side, k, j), replace.price, shape).None?
      modifies this`bids, this`asks, SideIndex(loc.side), index.slots
      ensures Valid()
      ensures var levels := old(View()).At(loc.side);
              View() == old(View()).With(loc.side,
                                         AddOrder(loc.side, RemoveOrder(levels, k, j), replace.price,
                                                  Order(replace.orderId, replace.accountId, replace.quantity, replace.sequence)))
    {
      hide SideOk, Coupled, Stocked, SideView, Listed, BodyAt, RemoveOrder, AddOrder, MoveRejection, RestRejection, Holds;
      ViewFits(loc.side, Store(loc.side), shape);
      MoveFits(View(), Position(loc.side, k, j), replace.price, shape);
      var removed := Withdraw(loc, k, j);
      AddStocked(loc.side, View().At(loc.side), replace.price, Order(replace.orderId, replace.accountId, replace.quantity, replace.sequence));
      RestAtTail(loc.side, replace.price,
                 RestingOrder(replace.orderId, replace.accountId, 0, replace.quantity, replace.sequence, NIL, NIL));
    }

    /** Admission checks that run before either matching path can mutate state. */
    method ValidateOrder(order: NewOrder) returns (r: Option<RejectReason>)
      requires Valid()
      ensures r == Validate(View(), instrument, order)
    {
      hide SideOk, Coupled, Stocked, Locate;
      if order.instrument != instrument {
        return Some(InvalidInstrument);
      }
      if order.price <= 0 {
        return Some(InvalidPrice);
      }
      if order.quantity == 0 {
        return Some(InvalidQuantity);
      }
      var present := ContainsOrder(order.orderId);
      if present {
        return Some(DuplicateOrderId);
      }
      if order.tif == PostOnly {
        var entries := SideIndex(order.side.Opposite()).entries;
        if entries != [] && Crosses(order.side, order.price, entries[0].price) {
          return Some(PostOnlyWouldTrade);
        }
      }
      return None;
    }

    method ContainsOrder(id: OrderId) returns (present: bool)
      requires Valid()
      ensures present <==> Contains(View(), id)
    {
      hide SideOk, Coupled, Stocked, SideView, Contains, Holds, WellProbed;
      HoldsIffContains(Store(Buy), Store(Sell), index.slots[..], shape, id);
      IndexProbed(Levels(), index.slots[..], shape);
      var flat := index.FindSlot(id);
      if flat.Some? {
        FlatHolds(index.slots[..], flat.value, id);
      }
      present := flat.Some?;
    }

    /** Fast path: the best maker alone can fill the whole taker. `Ok(None)` means it
        does not apply and nothing happened. */
    method TrySingleFill(order: NewOrder, reports: ReportBuffer) returns (r: Result<Option<MatchSummary>, RejectReason>)
      requires Valid() && reports.Valid() && Validate(View(), instrument, order).None?
      modifies this`bids, this`asks, bidLevels, askLevels, index.slots, reports
      ensures Valid() && reports.Valid() && StockedBook(old(View()))
      ensures r == Ok(None) ==> View() == old(View()) && reports.entries == old(reports.entries)
      ensures r.Err? ==> Conforms(old(View()), shape, instrument, order, reports.capacity - old(|reports.entries|),
                                  old(reports.entries), Err(r.error), View(), reports.entries)
      ensures r.Ok? && r.value.Some? ==>
                Conforms(old(View()), shape, instrument, order, reports.capacity - old(|reports.entries|),
                         old(reports.entries), Ok(r.value.value), View(), reports.entries)
    {
      hide Valid, View, SideMakers, Validate, Conforms, FillHead, ReportsOf, StockedBook;
      ViewStocked();
      var maker := order.side.Opposite();
      var entries := SideIndex(maker).entries;
      if entries == [] || !Crosses(order.side, order.price, entries[0].price) {
        return Ok(None);
      }
      HeadSlot(maker);
      var level := SideLevels(maker)[entries[0].level].value;
      var head := level.slots[level.head].order;
      if head.quantity < order.quantity {
        return Ok(None);
      }
      ValidQuantity(View(), instrument, order);
      ghost var view, before := View(), reports.entries;
      SingleFillConforms(view, shape, instrument, order, reports.capacity - |before|, before);
      var fill := Fill(head.id, entries[0].price, order.quantity);
      var ok := reports.Push(ReportOf(order, fill));
      if !ok {
        return Err(ReportCapacity);
      }
      ApplyFill(maker, FillEntry(entries[0].level, level.head, head.id, entries[0].price, order.quantity));
      r := Ok(Some(MatchSummary(Filled, order.quantity, 0, 0, 1)));
    }

    /** General path: plan against the unchanged book, then apply the plan. */
    method SubmitPlan(order: NewOrder, reports: ReportBuffer) returns (r: Result<MatchSummary, RejectReason>)
      requires Valid() && reports.Valid() && Validate(View(), instrument, order).None?
      modifies this`bids, this`asks, bidLevels, askLevels, index.slots, reports
      ensures Valid() && reports.Valid() && StockedBook(old(View()))
      ensures Conforms(old(View()), shape, instrument, order, reports.capacity - old(|reports.entries|),
                       old(reports.entries), r, View(), reports.entries)
    {
      hide SideOk, Coupled, Stocked, SideView, Validate, Conforms, Makers, ReportsOf, FillsOf, PlanOutcome, Contains, Applied, RestRejection;
      ghost var view, before := View(), reports.entries;
      ghost var makers := SideMakers(order.side.Opposite());
      PlanMatches(order);
      var planned := BuildPlan(order, reports.capacity - |reports.entries|);
      PlanConforms(view, shape, instrument, order, reports.capacity - |before|, before, makers, planned);
      if planned.Err? {
        return Err(planned.error);
      }
      var plan := planned.value;
      ApplyPlan(order, plan, reports);
      var filled := order.quantity - plan.resting - plan.discarded;
      r := Ok(MatchSummary(StateOf(filled, order.quantity), filled, plan.resting, plan.discarded, |plan.fills|));
    }

    lemma {:induction false} PlanMatches(order: NewOrder)
      requires Valid()
      ensures StockedBook(View())
      ensures var maker := order.side.Opposite();
              var m := Match(order.side, order.price, View().At(maker), order.quantity);
              && FillsOf(Plan(order.side, order.price, SideMakers(maker), order.quantity)) == m.fills
              && PlanLeft(order.side, order.price, SideMakers(maker), order.quantity) == m.remaining
    {
      hide SideOk, Coupled, SideView, Makers, Stocked;
      PlanIsMatch(order.side, order.price, order.side.Opposite(), Store(order.side.Opposite()), shape, order.quantity);
    }

    /** Submits one order. A rejection leaves book and reports untouched. */
    method Submit(order: NewOrder, reports: ReportBuffer) returns (r: Result<MatchSummary, RejectReason>)
      requires Valid() && reports.Valid()
      modifies this`bids, this`asks, bidLevels, askLevels, index.slots, reports
      ensures Valid() && reports.Valid() && StockedBook(old(View()))
      ensures Conforms(old(View()), shape, instrument, order, reports.capacity - old(|reports.entries|),
                       old(reports.entries), r, View(), reports.entries)
    {
      hide SideOk, Coupled, Stocked, SideView, Validate, Conforms;
      RejectedConforms(View(), shape, instrument, order, reports.capacity - |reports.entries|, reports.entries);
      var refused := ValidateOrder(order);
      if refused.Some? {
        return Err(refused.value);
      }
      var single := TrySingleFill(order, reports);
      if single.Err? {
        return Err(single.error);
      }
      if single.value.Some? {
        return Ok(single.value.value);
      }
      r := SubmitPlan(order, reports);
    }
  }

  lemma {:induction false} EmptySide(side: Side, s: SideStore, shape: Shape)
    requires s.entries == [] && Partition([], s.free, shape.levels)
    requires |s.levels| == shape.levels && forall f :: 0 <= f < |s.levels| ==> s.levels[f].None?
    ensures SideOk(side, s, shape) && SideView(s) == []
  {
  }

  lemma {:induction false} EmptyCoupled(a: Arena, idx: seq<Slot>, shape: Shape)
    requires WellProbed(idx) && |idx| == PLANES * (shape.levels * shape.orders) && Sized(idx, shape)
    requires forall i :: 0 <= i < |idx| ==> idx[i] == Empty
    requires forall side, f :: 0 <= f < |a.At(side)| ==> a.At(side)[f].None?
    ensures Coupled(a, idx, shape)
  {
    forall loc ensures BodyAt(a, loc).None? {
    }
  }

  /** `order` arrived at the free location `loc`; nothing else moved. */
  ghost predicate Arrived(a: Arena, b: Arena, loc: Location, order: RestingOrder, shape: Shape) {
    && EncodeLocation(loc, shape).Some?
    && BodyAt(a, loc).None? && BodyAt(b, loc) == Some(Body(order))
    && AgreeBut(a, b, loc)
  }

  lemma {:induction false} CoupledRoom(a: Arena, idx: seq<Slot>, shape: Shape, gone: Location, id: OrderId)
    requires CoupledBut(a, idx, shape, gone, id)
    ensures WellProbed(idx)
    ensures exists e :: 0 <= e < |idx| && idx[e].Empty?
  {
    EncodeDecode(gone, shape);
    assert shape.levels > 0 && shape.orders > 0;
    PositiveProduct(shape.levels, shape.orders);
    IndexHasRoom(a, idx, shape, gone, id);
  }

  lemma {:induction false} PositiveProduct(a: nat, b: nat)
    requires a > 0 && b > 0
    ensures a * b > 0
  {
  }

  lemma {:induction false} ListedLevel(s: SideStore, level: nat, slot: nat, k: nat, j: nat)
    requires Listed(s, level, slot, k, j)
    ensures level < |s.levels| && s.levels[level].Some? && k < |s.entries| && s.entries[k].level == level
  {
  }

  lemma {:induction false} ListedHead(side: Side, s: SideStore, shape: Shape, level: nat, slot: nat)
    requires SideOk(side, s, shape) && Listed(s, level, slot, 0, 0)
    ensures s.entries != [] && slot == s.levels[level].value.head
  {
    hide ValidLevel, Chain, Queue;
    assert Backed(s.levels, s.entries[0], shape.orders);
    QueueNonEmpty(s.levels[level].value, shape.orders);
  }

  lemma {:induction false} RemoveListed(side: Side, s: SideStore, shape: Shape, k: nat)
    requires SideOk(side, s, shape) && k < |s.entries|
    ensures SortedEntries(side, s.entries) && Partition(s.entries, s.free, shape.levels)
    ensures s.entries[k].level < |s.levels|
  {
  }

  /** Prices are unique, so an entry's price names it. */
  lemma {:induction false} EntryIs(side: Side, s: SideStore, shape: Shape, k: nat)
    requires SideOk(side, s, shape) && k < |s.entries|
    ensures forall i :: 0 <= i < |s.entries| && s.entries[i].price == s.entries[k].price ==> i == k
  {
  }

  lemma {:induction false} FirstPush(price: Price, orders: nat, order: RestingOrder)
    requires 0 < orders < NIL
    ensures PushTail(NewLevel(price, orders), order).Some?
  {
    hide PushTail, NewLevel, ValidLevel;
    NewLevelLinked(price, orders);
    NewLevelShape(price, orders);
    PushTailValid(NewLevel(price, orders), orders, order);
  }

  lemma {:induction false} PoolInRange(entries: seq<Entry>, free: seq<nat>, n: nat)
    requires Partition(entries, free, n)
    ensures forall i :: 0 <= i < |free| ==> free[i] < n
  {
  }

  /** Opening a level and pushing one order rests it as specified. */
  lemma {:induction false} OpenStep(side: Side, s: SideStore, shape: Shape, p: nat, price: Price, order: RestingOrder, a: Arena)
    requires SideOk(side, s, shape) && s.free != [] && Splits(side, s.entries, price, p) && a.At(side) == s.levels
    requires forall k :: 0 <= k < |s.entries| ==> s.entries[k].price != price
    requires 0 < shape.orders < NIL
    ensures p <= |s.entries| && s.free[|s.free| - 1] < |s.levels|
    ensures PushTail(NewLevel(price, shape.orders), order).Some?
    ensures var level := s.free[|s.free| - 1];
            var (l2, slot) := PushTail(NewLevel(price, shape.orders), order).value;
            var t := SideStore(InsertAt(s.entries, p, Entry(price, level)), s.free[..|s.free| - 1], s.levels[level := Some(l2)]);
            && SideOk(side, t, shape)
            && SideView(t) == AddOrder(side, SideView(s), price, Logical(order))
            && Arrived(a, a.With(side, t.levels), Location(side, level, slot), order, shape)
  {
    hide SideOk, SideView, BodyAt, AgreeBut, EncodeLocation, PushTail, NewLevel, Place;
    NoEntryPlace(side, s, shape, price);
    PlaceIs(side, s, price, p);
    PushNewView(side, s, shape, p, price, order, a);
    hide Splits;
  }

  lemma {:induction false} StoreFacts(side: Side, s: SideStore, shape: Shape)
    requires SideOk(side, s, shape)
    ensures SortedEntries(side, s.entries) && Partition(s.entries, s.free, shape.levels)
    ensures |s.levels| == shape.levels && |s.entries| + |s.free| == shape.levels
    ensures forall k :: 0 <= k < |s.entries| ==> s.entries[k].level < |s.levels| && s.levels[s.entries[k].level].Some?
  {
    forall k | 0 <= k < |s.entries| ensures s.entries[k].level < |s.levels| && s.levels[s.entries[k].level].Some? {
      assert Backed(s.levels, s.entries[k], shape.orders);
    }
  }

  /** An entry is where the specification places its price. */
  lemma {:induction false} EntryPlace(side: Side, s: SideStore, shape: Shape, k: nat)
    requires SideOk(side, s, shape) && k < |s.entries|
    ensures Place(side, SideView(s), s.entries[k].price) == k && HasPrice(side, SideView(s), s.entries[k].price)
  {
    hide ValidLevel, Queue, Chain, Partition, Backed, Place;
    PlaceIs(side, s, s.entries[k].price, k);
  }

  lemma {:induction false} LevelLength(side: Side, s: SideStore, shape: Shape, k: nat)
    requires SideOk(side, s, shape) && k < |s.entries|
    ensures s.entries[k].level < |s.levels| && s.levels[s.entries[k].level].Some?
    ensures |SideView(s)[k].orders| == s.levels[s.entries[k].level].value.len
    ensures SideView(s)[k].orders == Queue(s.levels[s.entries[k].level].value)
  {
    hide ValidLevel, Queue, Chain;
    assert Backed(s.levels, s.entries[k], shape.orders);
    QueueNonEmpty(s.levels[s.entries[k].level].value, shape.orders);
  }

  lemma {:induction false} LevelTotal(side: Side, s: SideStore, shape: Shape, k: nat)
    requires SideOk(side, s, shape) && k < |s.entries|
    ensures s.entries[k].level < |s.levels| && s.levels[s.entries[k].level].Some?
    ensures s.levels[s.entries[k].level].value.aggregate == TotalQuantity(SideView(s)[k].orders)
  {
    hide ValidLevel, Queue, Chain;
    assert Backed(s.levels, s.entries[k], shape.orders);
    QueueNonEmpty(s.levels[s.entries[k].level].value, shape.orders);
  }

  lemma {:induction false} NoEntryPlace(side: Side, s: SideStore, shape: Shape, price: Price)
    requires SideOk(side, s, shape) && forall k :: 0 <= k < |s.entries| ==> s.entries[k].price != price
    ensures !HasPrice(side, SideView(s), price)
  {
  }

  /** A fresh location leaves room for its index entry. */
  lemma {:induction false} RoomToInsert(a: Arena, idx: seq<Slot>, shape: Shape, loc: Location)
    requires Coupled(a, idx, shape) && EncodeLocation(loc, shape).Some?
    ensures WellProbed(idx)
    ensures exists e :: 0 <= e < |idx| && idx[e].Empty?
  {
    EncodeDecode(loc, shape);
    PositiveProduct(shape.levels, shape.orders);
    CoupledHasRoom(a, idx, shape);
  }

  lemma {:induction false} HandleStep(side: Side, s: SideStore, shape: Shape, loc: Location, handle: nat, b: Arena)
    requires SideOk(side, s, shape) && b.At(side) == s.levels && loc.side == side && BodyAt(b, loc).Some?
    ensures loc.level < |s.levels| && s.levels[loc.level].Some?
    ensures var t := s.(levels := s.levels[loc.level := Some(SetHandle(s.levels[loc.level].value, loc.slot, handle))]);
            && SideOk(side, t, shape) && SideView(t) == SideView(s)
            && AgreeBut(b, b.With(side, t.levels), loc)
            && BodyAt(b.With(side, t.levels), loc) == Some(BodyAt(b, loc).value.(indexSlot := handle))
  {
    hide ValidLevel, Queue, Chain, SetHandle;
    LiveIsListed(side, s, shape, loc.level, loc.slot);
    var k: nat, j: nat :| Listed(s, loc.level, loc.slot, k, j);
    var l := s.levels[loc.level].value;
    assert Backed(s.levels, s.entries[k], shape.orders);
    SetHandleValid(l, shape.orders, loc.slot, handle);
    ReplaceLevel(side, s, shape, k, SetHandle(l, loc.slot, handle));
    hide SideOk, SideView;
    SideViewAt(s, k);
  }

  lemma {:induction false} SideViewAt(s: SideStore, k: nat)
    requires k < |s.entries| && LevelAt(s.levels, s.entries[k].level).Some?
    requires LevelAt(s.levels, s.entries[k].level).value.price == s.entries[k].price
    ensures SideView(s)[k := Level(s.entries[k].price, Queue(LevelAt(s.levels, s.entries[k].level).value))] == SideView(s)
  {
    hide Queue;
  }

  lemma {:induction false} AgreeTrans(a: Arena, b: Arena, c: Arena, loc: Location)
    requires AgreeBut(a, b, loc) && AgreeBut(b, c, loc)
    ensures AgreeBut(a, c, loc)
  {
    hide BodyAt;
  }

  lemma {:induction false} InsertKept(a: Arena, b: Arena, idx: seq<Slot>, after: seq<Slot>, shape: Shape, loc: Location, handle: nat)
    requires Coupled(a, idx, shape) && BodyAt(a, loc).None? && AgreeBut(a, b, loc)
    requires BodyAt(b, loc).Some? && BodyAt(b, loc).value.indexSlot == handle
    requires handle < |idx| && idx[handle].Empty? && EncodeLocation(loc, shape).Some? && WellProbed(after)
    requires after == idx[handle := Occupied(BodyAt(b, loc).value.id, EncodeLocation(loc, shape).value)]
    ensures Coupled(b, after, shape)
  {
    hide BodyAt, EncodeLocation, WellProbed, AgreeBut, Coupled;
    InsertCoupled(a, b, idx, shape, loc, handle);
  }

  lemma {:induction false} SetStocked(levels: seq<Level>, k: nat, j: nat, quantity: Quantity)
    requires Stocked(levels) && InLevels(levels, k, j) && quantity < levels[k].orders[j].quantity
    ensures var o := levels[k].orders[j];
            Stocked(SetOrder(levels, k, j, o.(quantity := o.quantity - quantity)))
  {
    var o := levels[k].orders[j];
    var r := SetOrder(levels, k, j, o.(quantity := o.quantity - quantity));
    assert StockedLevel(levels[k]);
    forall i | 0 <= i < |r| ensures StockedLevel(r[i]) {
      assert StockedLevel(levels[i]);
    }
  }

  lemma {:induction false} ListedAlike(side: Side, s: SideStore, levels: seq<Option<PriceLevel>>, shape: Shape, level: nat, slot: nat, k: nat, j: nat)
    requires SideOk(side, s, shape) && LevelsAlike(s.levels, levels, shape.orders) && Listed(s, level, slot, k, j)
    ensures Listed(s.(levels := levels), level, slot, k, j)
  {
    hide ValidLevel, Queue, Chain, Partition, SortedEntries;
    assert Backed(s.levels, s.entries[k], shape.orders);
  }

  lemma {:induction false} HeadExists(side: Side, s: SideStore, shape: Shape)
    requires SideOk(side, s, shape) && Makers(s.entries, s.levels) != []
    ensures s.entries != []
  {
  }

  lemma {:induction false} AddStocked(side: Side, levels: seq<Level>, price: Price, order: Order)
    requires Stocked(levels) && order.quantity > 0
    ensures Stocked(AddOrder(side, levels, price, order))
  {
    var r := AddOrder(side, levels, price, order);
    var p := Place(side, levels, price);
    hide Place;
    forall i | 0 <= i < |r| ensures StockedLevel(r[i]) {
      if HasPrice(side, levels, price) {
        assert StockedLevel(levels[i]);
      } else if i != p {
        assert StockedLevel(levels[if i < p then i else i - 1]);
      }
    }
  }

  /** The book after all fills of `order`, with `resting` of it resting. */
  ghost function Applied(b: Book, order: NewOrder, resting: Quantity): Book
    requires StockedBook(b)
  {
    var maker := order.side.Opposite();
    var matched := b.With(maker, Match(order.side, order.price, b.At(maker), order.quantity).makers);
    if resting == 0 then matched
    else matched.With(order.side, AddOrder(order.side, matched.At(order.side), order.price,
                                           Order(order.orderId, order.accountId, resting, order.sequence)))
  }

  /** `view` lies on the way from `book` to its match with `order`, `rem` still untraded. */
  ghost predicate Toward(book: Book, view: Book, order: NewOrder, rem: Quantity) {
    && StockedBook(book) && StockedBook(view)
    && view.At(order.side) == book.At(order.side)
    && var maker := order.side.Opposite();
    && Match(order.side, order.price, view.At(maker), rem).makers == Match(order.side, order.price, book.At(maker), order.quantity).makers
  }

  lemma {:induction false} TowardStart(book: Book, order: NewOrder)
    requires StockedBook(book)
    ensures Toward(book, book, order, order.quantity)
  {
  }

  lemma {:induction false} TowardStep(book: Book, view: Book, order: NewOrder, rem: Quantity)
    requires Toward(book, view, order, rem) && rem > 0 && InLevels(view.At(order.side.Opposite()), 0, 0)
    requires Crosses(order.side, order.price, view.At(order.side.Opposite())[0].price)
    ensures var makers := view.At(order.side.Opposite());
            var traded := Min(rem, makers[0].orders[0].quantity);
            Toward(book, view.With(order.side.Opposite(), FillHead(makers, traded)), order, rem - traded)
  {
    hide FillHead;
    var makers := view.At(order.side.Opposite());
    FillHeadStocked(makers, Min(rem, makers[0].orders[0].quantity));
  }

  lemma {:induction false} TowardEnd(book: Book, view: Book, order: NewOrder, rem: Quantity, resting: Quantity)
    requires Toward(book, view, order, rem) && Match(order.side, order.price, view.At(order.side.Opposite()), rem).fills == []
    ensures view.At(order.side) == book.At(order.side)
    ensures resting == 0 ==> view == Applied(book, order, resting)
    ensures resting > 0 ==>
              view.With(order.side, AddOrder(order.side, view.At(order.side), order.price,
                                             Order(order.orderId, order.accountId, resting, order.sequence)))
              == Applied(book, order, resting)
  {
    MatchNothing(order.side, order.price, view.At(order.side.Opposite()), rem);
    hide Match, AddOrder;
  }

  /** The next planned fill names the best maker. */
  lemma {:induction false} NextFill(order: NewOrder, makers: seq<Maker>, fills: seq<FillEntry>, rem: Quantity)
    requires fills != [] && fills == Plan(order.side, order.price, makers, rem)
    ensures rem > 0 && makers != [] && Crosses(order.side, order.price, makers[0].rest.price)
    ensures var m := makers[0];
            var traded := Min(rem, m.rest.order.quantity);
            && fills[0] == FillEntry(m.level, m.slot, m.rest.order.id, m.rest.price, traded)
            && fills[1..] == Plan(order.side, order.price, makers[1..], rem - traded)
  {
  }

  lemma {:induction false} NextPlan(order: NewOrder, makers: seq<Maker>, after: seq<Maker>, fills: seq<FillEntry>, rem: Quantity)
    requires makers != [] && fills == Plan(order.side, order.price, makers[1..], rem)
    requires after == makers[1..] || rem == 0
    ensures fills == Plan(order.side, order.price, after, rem)
  {
  }

  lemma {:induction false} NoReports(order: NewOrder)
    ensures ReportsOf(order, FillsOf([])) == []
  {
  }

  lemma {:induction false} ReportsStep(order: NewOrder, fills: seq<FillEntry>, t: nat)
    requires t < |fills|
    ensures ReportsOf(order, FillsOf(fills[..t + 1])) == ReportsOf(order, FillsOf(fills[..t])) + [ReportOf(order, FillOf(fills[t]))]
  {
    assert fills[..t + 1] == fills[..t] + [fills[t]];
  }

  /** The specification finds `id` at `p`, owned by `account`. */
  ghost predicate Found(b: Book, id: OrderId, p: Position, account: AccountId) {
    && Locate(b, id) == Some(p) && InLevels(b.At(p.side), p.level, p.place)
    && OrderOf(b, p).id == id && OrderOf(b, p).account == account
  }

  lemma {:induction false} IndexProbed(a: Arena, idx: seq<Slot>, shape: Shape)
    requires Coupled(a, idx, shape)
    ensures WellProbed(idx)
  {
  }

  lemma {:induction false} FlatHolds(idx: seq<Slot>, i: nat, id: OrderId)
    requires i < |idx| && idx[i].Occupied? && idx[i].key == id
    ensures Holds(idx, id)
  {
  }

  /** An occupied index bucket leads to a listed order of that id. */
  lemma {:induction false} EntryIsListed(bids: SideStore, asks: SideStore, idx: seq<Slot>, shape: Shape, i: nat) returns (k: nat, j: nat)
    requires SideOk(Buy, bids, shape) && SideOk(Sell, asks, shape)
    requires Coupled(Arena(bids.levels, asks.levels), idx, shape)
    requires i < |idx| && idx[i].Occupied?
    ensures DecodeLocation(idx[i].value, shape).Some?
    ensures var loc := DecodeLocation(idx[i].value, shape).value;
            var body := BodyAt(Arena(bids.levels, asks.levels), loc);
            && Listed(if loc.side == Buy then bids else asks, loc.level, loc.slot, k, j)
            && body.Some? && body.value.id == idx[i].key
            && Found(Book(SideView(bids), SideView(asks)), idx[i].key, Position(loc.side, k, j), body.value.account)
  {
    var a := Arena(bids.levels, asks.levels);
    assert Targets(a, idx, i, shape);
    hide SideOk, Coupled, SideView, DecodeLocation, Locate;
    var loc := DecodeLocation(idx[i].value, shape).value;
    var s := if loc.side == Buy then bids else asks;
    LiveIsListed(loc.side, s, shape, loc.level, loc.slot);
    k, j :| Listed(s, loc.level, loc.slot, k, j);
    LocateIs(bids, asks, idx, shape, loc, k, j);
    ListedIsLive(loc.side, s, shape, loc.level, loc.slot, k, j);
  }

  lemma {:induction false} LiveAt(a: Arena, loc: Location, level: PriceLevel)
    requires BodyAt(a, loc).Some? && LevelAt(a.At(loc.side), loc.level) == Some(level)
    ensures IsLive(level.slots, loc.slot) && BodyAt(a, loc).value == Body(level.slots[loc.slot].order)
  {
  }

  lemma {:induction false} BodyIsListed(a: Arena, loc: Location, s: SideStore, k: nat, j: nat)
    requires Listed(s, loc.level, loc.slot, k, j) && a.At(loc.side) == s.levels
    ensures loc.level < |s.levels| && s.levels[loc.level].Some?
    ensures BodyAt(a, loc) == SlotBody(s.levels[loc.level].value, loc.slot)
  {
  }

  lemma {:induction false} RemoveStocked(levels: seq<Level>, k: nat, j: nat)
    requires Stocked(levels) && InLevels(levels, k, j)
    ensures Stocked(RemoveOrder(levels, k, j))
  {
    var r := RemoveOrder(levels, k, j);
    forall i | 0 <= i < |r| ensures StockedLevel(r[i]) {
      if |levels[k].orders| == 1 {
        assert StockedLevel(levels[if i < k then i else i + 1]);
      } else {
        assert StockedLevel(levels[i]);
      }
    }
  }

  lemma {:induction false} SamePrice(side: Side, s: SideStore, shape: Shape, k: nat)
    requires SideOk(side, s, shape) && k < |s.entries|
    ensures s.entries[k].level < |s.levels| && s.levels[s.entries[k].level].Some?
    ensures s.levels[s.entries[k].level].value.price == s.entries[k].price == SideView(s)[k].price
  {
    assert Backed(s.levels, s.entries[k], shape.orders);
  }

  lemma {:induction false} SameEntry(side: Side, s: SideStore, shape: Shape, k: nat, d: nat)
    requires SideOk(side, s, shape) && k < |s.entries| && d < |s.entries|
    ensures s.entries[k].level == s.entries[d].level <==> k == d
  {
  }

  lemma {:induction false} ViewFits(side: Side, s: SideStore, shape: Shape)
    requires SideOk(side, s, shape)
    ensures Fits(side, SideView(s), shape)
  {
    hide ValidLevel, Queue, Chain;
    ViewSorted(side, s, shape);
    forall i | 0 <= i < |SideView(s)| ensures 0 < |SideView(s)[i].orders| <= shape.orders {
      assert Backed(s.levels, s.entries[i], shape.orders);
      QueueNonEmpty(s.levels[s.entries[i].level].value, shape.orders);
    }
  }

  /** Result `r`, book `after` and reports `written` are what the specification says
      for submitting `order` to `before`. */
  ghost predicate Conforms(before: Book, shape: Shape, instrument: InstrumentId, order: NewOrder, room: nat,
                           reports: seq<ExecutionReport>, r: Result<MatchSummary, RejectReason>, after: Book,
                           written: seq<ExecutionReport>)
    requires StockedBook(before)
  {
    match SubmitOrder(before, shape, instrument, order, room)
    case Err(reason) => r == Err(reason) && after == before && written == reports
    case Ok(done) => r == Ok(done.summary) && after == done.book && written == reports + ReportsOf(order, done.fills)
  }

  lemma {:induction false} RejectedConforms(b: Book, shape: Shape, instrument: InstrumentId, order: NewOrder, room: nat, reports: seq<ExecutionReport>)
    requires StockedBook(b)
    ensures Validate(b, instrument, order).Some? ==>
              Conforms(b, shape, instrument, order, room, reports, Err(Validate(b, instrument, order).value), b, reports)
  {
    hide Validate;
  }

  lemma {:induction false} ValidQuantity(b: Book, instrument: InstrumentId, order: NewOrder)
    requires Validate(b, instrument, order).None?
    ensures order.quantity > 0 && !Contains(b, order.orderId)
  {
  }

  /** When the head maker covers the taker, the general specification is one fill. */
  lemma {:induction false} SingleFillConforms(b: Book, shape: Shape, instrument: InstrumentId, order: NewOrder, room: nat, reports: seq<ExecutionReport>)
    requires StockedBook(b) && Validate(b, instrument, order).None? && order.quantity > 0
    requires var makers := b.At(order.side.Opposite());
             && InLevels(makers, 0, 0) && Crosses(order.side, order.price, makers[0].price)
             && order.quantity <= makers[0].orders[0].quantity
    ensures var maker := order.side.Opposite();
            var makers := b.At(maker);
            var fill := Fill(makers[0].orders[0].id, makers[0].price, order.quantity);
            if room == 0 then Conforms(b, shape, instrument, order, room, reports, Err(ReportCapacity), b, reports)
            else Conforms(b, shape, instrument, order, room, reports, Ok(MatchSummary(Filled, order.quantity, 0, 0, 1)),
                          b.With(maker, FillHead(makers, order.quantity)), reports + [ReportOf(order, fill)])
  {
    hide Validate, FillHead, Stocked;
    var makers := b.At(order.side.Opposite());
    FillHeadStocked(makers, order.quantity);
    var m := Match(order.side, order.price, makers, order.quantity);
    var fill := Fill(makers[0].orders[0].id, makers[0].price, order.quantity);
    assert Match(order.side, order.price, FillHead(makers, order.quantity), 0) == Matched(FillHead(makers, order.quantity), [], 0);
    assert m.fills == [fill];
    assert m == Matched(FillHead(makers, order.quantity), [fill], 0);
    assert ReportsOf(order, [fill]) == [ReportOf(order, fill)];
  }

  /** What planning decides is what the specification decides, and applying the plan
      completes it. */
  lemma {:induction false} PlanConforms(b: Book, shape: Shape, instrument: InstrumentId, order: NewOrder, room: nat, reports: seq<ExecutionReport>,
                     makers: seq<Maker>, planned: Result<MatchPlan, RejectReason>)
    requires StockedBook(b) && Validate(b, instrument, order).None?
    requires planned == PlanOutcome(order, makers, b.At(order.side), shape, room)
    requires var m := Match(order.side, order.price, b.At(order.side.Opposite()), order.quantity);
             && FillsOf(Plan(order.side, order.price, makers, order.quantity)) == m.fills
             && PlanLeft(order.side, order.price, makers, order.quantity) == m.remaining
    ensures planned.Err? ==> Conforms(b, shape, instrument, order, room, reports, Err(planned.error), b, reports)
    ensures planned.Ok? ==>
              var plan := planned.value;
              && plan.fills == Plan(order.side, order.price, makers, order.quantity) && |plan.fills| <= room
              && !Contains(b, order.orderId)
              && (plan.resting > 0 ==> RestRejection(order.side, b.At(order.side), order.price, shape).None?)
              && plan.resting + plan.discarded <= order.quantity
              && var filled: Quantity := order.quantity - plan.resting - plan.discarded;
              Conforms(b, shape, instrument, order, room, reports,
                       Ok(MatchSummary(StateOf(filled, order.quantity), filled, plan.resting, plan.discarded, |plan.fills|)),
                       Applied(b, order, plan.resting), reports + ReportsOf(order, FillsOf(plan.fills)))
  {
    hide Validate, Match, Plan, PlanLeft, FillsOf, ReportsOf, Contains, RestRejection, AddOrder, Stocked;
    ValidQuantity(b, instrument, order);
    MatchRemaining(order.side, order.price, b.At(order.side.Opposite()), order.quantity);
    FillsOfSize(Plan(order.side, order.price, makers, order.quantity));
  }

  lemma {:induction false} FillsOfSize(plan: seq<FillEntry>)
    ensures |FillsOf(plan)| == |plan|
  {
  }
}
