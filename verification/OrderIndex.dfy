/** How the order index and the level slots refer to each other: packed locations,
    reverse handles, and what each index update does to them. */
module OrderIndexing {
  import opened Types
  import opened ProbeIndexing
  import opened PriceLevels
  import opened BookSpec
  import opened LevelIndexing
  import opened BookStore

  const PLANES: nat := 4

  datatype Location = Location(side: Side, level: nat, slot: nat)

  /** Packs a location into one word; zero stays free for "empty". */
  function EncodeLocation(loc: Location, shape: Shape): Option<nat> {
    if loc.level >= shape.levels || loc.slot >= shape.orders then None
    else Some((loc.level * shape.orders + loc.slot) * 2 + (if loc.side == Sell then 1 else 0) + 1)
  }

  function DecodeLocation(encoded: nat, shape: Shape): Option<Location> {
    if encoded == 0 || shape.orders == 0 then None
    else
      var e := encoded - 1;
      var flat := e / 2;
      if flat / shape.orders >= shape.levels then None
      else Some(Location(if e % 2 == 0 then Buy else Sell, flat / shape.orders, flat % shape.orders))
  }

  lemma {:induction false} MulMonotone(a: nat, b: nat, d: nat)
    requires a <= b
    ensures a * d <= b * d
  {
  }

  lemma {:induction false} DivMod(q: nat, r: nat, d: nat)
    requires r < d
    ensures (q * d + r) / d == q && (q * d + r) % d == r
  {
    var x := q * d + r;
    assert x == (x / d) * d + x % d;
    if x / d < q {
      MulMonotone(x / d + 1, q, d);
    }
    if x / d > q {
      MulMonotone(q + 1, x / d, d);
    }
  }

  lemma {:induction false} FlatBelow(level: nat, slot: nat, levels: nat, orders: nat)
    requires level < levels && slot < orders
    ensures level * orders + slot < levels * orders
  {
    MulMonotone(level + 1, levels, orders);
  }

  lemma {:induction false} Packed(flat: nat, bit: nat)
    requires bit < 2
    ensures (flat * 2 + bit) / 2 == flat && (flat * 2 + bit) % 2 == bit
  {
  }

  /** Packing is injective on valid locations, decodes back, and never needs more
      than `2 * levels * orders` words; everything else fails closed. */
  lemma {:induction false} EncodeDecode(loc: Location, shape: Shape)
    ensures EncodeLocation(loc, shape).Some? <==> loc.level < shape.levels && loc.slot < shape.orders
    ensures EncodeLocation(loc, shape).Some? ==>
              && DecodeLocation(EncodeLocation(loc, shape).value, shape) == Some(loc)
              && 1 <= EncodeLocation(loc, shape).value <= 2 * (shape.levels * shape.orders)
  {
    if loc.level < shape.levels && loc.slot < shape.orders {
      var flat := loc.level * shape.orders + loc.slot;
      DivMod(loc.level, loc.slot, shape.orders);
      FlatBelow(loc.level, loc.slot, shape.levels, shape.orders);
      Packed(flat, if loc.side == Sell then 1 else 0);
    }
  }

  lemma {:induction false} DecodeEncode(encoded: nat, shape: Shape)
    ensures DecodeLocation(encoded, shape).Some? ==> EncodeLocation(DecodeLocation(encoded, shape).value, shape) == Some(encoded)
  {
    if DecodeLocation(encoded, shape).Some? {
      var e := encoded - 1;
      var flat := e / 2;
      assert flat == (flat / shape.orders) * shape.orders + flat % shape.orders;
    }
  }

  /** The level slots of both sides. */
  datatype Arena = Arena(bids: seq<Option<PriceLevel>>, asks: seq<Option<PriceLevel>>) {
    function At(side: Side): seq<Option<PriceLevel>> {
      if side == Buy then bids else asks
    }

    function With(side: Side, levels: seq<Option<PriceLevel>>): Arena {
      if side == Buy then Arena(levels, asks) else Arena(bids, levels)
    }
  }

  function BodyAt(a: Arena, loc: Location): Option<RestingOrder> {
    match LevelAt(a.At(loc.side), loc.level)
    case Some(l) => SlotBody(l, loc.slot)
    case None => None
  }

  /** Index entry `i` names a live order that names it back. */
  ghost predicate Targets(a: Arena, idx: seq<Slot>, i: nat, shape: Shape)
    requires i < |idx| && idx[i].Occupied?
  {
    var loc := DecodeLocation(idx[i].value, shape);
    && loc.Some?
    && BodyAt(a, loc.value).Some?
    && BodyAt(a, loc.value).value.id == idx[i].key
    && BodyAt(a, loc.value).value.indexSlot == i
  }

  /** If an order lives at `loc`, its stored handle is the bucket of its entry. */
  ghost predicate Exact(a: Arena, idx: seq<Slot>, loc: Location, shape: Shape) {
    match BodyAt(a, loc)
    case None => true
    case Some(o) =>
      && EncodeLocation(loc, shape).Some?
      && o.indexSlot < |idx|
      && idx[o.indexSlot] == Occupied(o.id, EncodeLocation(loc, shape).value)
  }

  ghost predicate Sized(idx: seq<Slot>, shape: Shape) {
    WellProbed(idx) && |idx| == PLANES * (shape.levels * shape.orders)
  }

  /** Index and levels agree in both directions. */
  ghost predicate Coupled(a: Arena, idx: seq<Slot>, shape: Shape) {
    && Sized(idx, shape)
    && (forall i :: 0 <= i < |idx| && idx[i].Occupied? ==> Targets(a, idx, i, shape))
    && (forall loc :: Exact(a, idx, loc, shape))
  }

  /** The same while the order `id` at `gone` is half removed. */
  ghost predicate CoupledBut(a: Arena, idx: seq<Slot>, shape: Shape, gone: Location, id: OrderId) {
    && Sized(idx, shape)
    && EncodeLocation(gone, shape).Some?
    && (forall i :: 0 <= i < |idx| && idx[i].Occupied? && idx[i].key != id ==>
          Targets(a, idx, i, shape) && DecodeLocation(idx[i].value, shape) != Some(gone))
    && (forall i :: 0 <= i < |idx| && idx[i].Occupied? && idx[i].key == id ==> DecodeLocation(idx[i].value, shape) == Some(gone))
    && (forall loc :: loc != gone ==> Exact(a, idx, loc, shape) && (BodyAt(a, loc).Some? ==> BodyAt(a, loc).value.id != id))
  }

  /** Arenas that agree everywhere but at `loc`. */
  ghost predicate AgreeBut(a: Arena, b: Arena, loc: Location) {
    forall other :: other != loc ==> BodyAt(a, other) == BodyAt(b, other)
  }

  lemma {:induction false} BeginRemoval(a: Arena, idx: seq<Slot>, shape: Shape, gone: Location)
    requires Coupled(a, idx, shape) && BodyAt(a, gone).Some?
    ensures var o := BodyAt(a, gone).value;
            && o.indexSlot < |idx| && idx[o.indexSlot].Occupied? && idx[o.indexSlot].key == o.id
            && CoupledBut(a, idx, shape, gone, o.id)
  {
    var o := BodyAt(a, gone).value;
    assert Exact(a, idx, gone, shape);
    EncodeDecode(gone, shape);
    hide EncodeLocation, DecodeLocation, BodyAt;
    forall i | 0 <= i < |idx| && idx[i].Occupied? && idx[i].key != o.id
      ensures Targets(a, idx, i, shape) && DecodeLocation(idx[i].value, shape) != Some(gone)
    {
      assert Targets(a, idx, i, shape);
    }
    forall loc | loc != gone
      ensures Exact(a, idx, loc, shape) && (BodyAt(a, loc).Some? ==> BodyAt(a, loc).value.id != o.id)
    {
      assert Exact(a, idx, loc, shape);
      EncodeDecode(loc, shape);
    }
  }

  lemma {:induction false} AgreeKeeps(a: Arena, b: Arena, idx: seq<Slot>, shape: Shape, gone: Location, id: OrderId)
    requires CoupledBut(a, idx, shape, gone, id) && AgreeBut(a, b, gone)
    ensures CoupledBut(b, idx, shape, gone, id)
  {
    hide EncodeLocation, DecodeLocation, BodyAt, Sized;
    forall i | 0 <= i < |idx| && idx[i].Occupied? && idx[i].key != id
      ensures Targets(b, idx, i, shape) && DecodeLocation(idx[i].value, shape) != Some(gone)
    {
      assert Targets(a, idx, i, shape);
    }
    forall loc | loc != gone
      ensures Exact(b, idx, loc, shape) && (BodyAt(b, loc).Some? ==> BodyAt(b, loc).value.id != id)
    {
      assert Exact(a, idx, loc, shape);
    }
  }

  lemma {:induction false} EndRemoval(a: Arena, idx: seq<Slot>, shape: Shape, gone: Location, id: OrderId)
    requires CoupledBut(a, idx, shape, gone, id) && BodyAt(a, gone).None? && !Holds(idx, id)
    ensures Coupled(a, idx, shape)
  {
    hide EncodeLocation, DecodeLocation, BodyAt, Sized;
    forall loc ensures Exact(a, idx, loc, shape) {
    }
  }

  /** A live order is indexed, an indexed order is live. */
  lemma {:induction false} HoldsIffLive(a: Arena, idx: seq<Slot>, shape: Shape, id: OrderId)
    requires Coupled(a, idx, shape)
    ensures Holds(idx, id) <==> exists loc :: BodyAt(a, loc).Some? && BodyAt(a, loc).value.id == id
  {
    hide EncodeLocation, DecodeLocation, BodyAt, Sized;
    if Holds(idx, id) {
      var i :| 0 <= i < |idx| && idx[i].Occupied? && idx[i].key == id;
      assert Targets(a, idx, i, shape);
    }
    if loc :| BodyAt(a, loc).Some? && BodyAt(a, loc).value.id == id {
      assert Exact(a, idx, loc, shape);
    }
  }

  lemma {:induction false} InsertCoupled(a: Arena, b: Arena, idx: seq<Slot>, shape: Shape, loc: Location, p: nat)
    requires Coupled(a, idx, shape) && BodyAt(a, loc).None? && AgreeBut(a, b, loc)
    requires BodyAt(b, loc).Some? && EncodeLocation(loc, shape).Some?
    requires p < |idx| && idx[p].Empty? && BodyAt(b, loc).value.indexSlot == p
    requires WellProbed(idx[p := Occupied(BodyAt(b, loc).value.id, EncodeLocation(loc, shape).value)])
    ensures Coupled(b, idx[p := Occupied(BodyAt(b, loc).value.id, EncodeLocation(loc, shape).value)], shape)
  {
    hide WellProbed;
    EncodeDecode(loc, shape);
    hide EncodeLocation, DecodeLocation, BodyAt;
    var t := idx[p := Occupied(BodyAt(b, loc).value.id, EncodeLocation(loc, shape).value)];
    forall i | 0 <= i < |t| && t[i].Occupied? ensures Targets(b, t, i, shape) {
      if i != p {
        assert Targets(a, idx, i, shape);
      }
    }
    forall other ensures Exact(b, t, other, shape) {
      assert Exact(a, idx, other, shape);
    }
  }

  /** The order a move names takes the new position as its handle. */
  function ApplyMove(a: Arena, m: Move, shape: Shape): Arena {
    match DecodeLocation(m.value, shape)
    case None => a
    case Some(loc) =>
      match LevelAt(a.At(loc.side), loc.level)
      case None => a
      case Some(l) =>
        if IsLive(l.slots, loc.slot) && l.slots[loc.slot].order.id == m.key
        then a.With(loc.side, a.At(loc.side)[loc.level := Some(SetHandle(l, loc.slot, m.position))])
        else a
  }

  function ApplyMoves(a: Arena, moves: seq<Move>, shape: Shape): Arena {
    if moves == [] then a else ApplyMove(ApplyMoves(a, moves[..|moves| - 1], shape), moves[|moves| - 1], shape)
  }

  /** Does `m` name the order `o` at `loc`? */
  predicate Names(m: Move, loc: Location, o: RestingOrder, shape: Shape) {
    DecodeLocation(m.value, shape) == Some(loc) && m.key == o.id
  }

  lemma {:induction false} ApplyMoveBody(a: Arena, m: Move, shape: Shape, loc: Location)
    ensures BodyAt(ApplyMove(a, m, shape), loc) ==
            match BodyAt(a, loc)
            case None => None
            case Some(o) => if Names(m, loc, o, shape) then Some(o.(indexSlot := m.position)) else Some(o)
  {
    hide DecodeLocation;
  }

  /** After all moves, an order's handle is the position of a move that names it, or unchanged. */
  lemma {:induction false} ApplyMovesBody(a: Arena, moves: seq<Move>, shape: Shape, loc: Location)
    ensures BodyAt(a, loc).None? ==> BodyAt(ApplyMoves(a, moves, shape), loc).None?
    ensures BodyAt(a, loc).Some? ==>
              var o := BodyAt(a, loc).value;
              && BodyAt(ApplyMoves(a, moves, shape), loc).Some?
              && var h := BodyAt(ApplyMoves(a, moves, shape), loc).value.indexSlot;
              && BodyAt(ApplyMoves(a, moves, shape), loc).value == o.(indexSlot := h)
              && (if exists m :: m in moves && Names(m, loc, o, shape)
                  then exists m :: m in moves && Names(m, loc, o, shape) && h == m.position
                  else h == o.indexSlot)
  {
    hide BodyAt, ApplyMove;
    if moves != [] {
      var front, last := moves[..|moves| - 1], moves[|moves| - 1];
      ApplyMovesBody(a, front, shape, loc);
      ApplyMoveBody(ApplyMoves(a, front, shape), last, shape, loc);
      assert forall m :: m in moves <==> m in front || m == last;
    }
  }

  /** Deleting the entry of `id` and applying the logged moves keeps every other
      handle exact. */
  lemma {:induction false} RemovalKeeps(a: Arena, idx: seq<Slot>, after: seq<Slot>, moves: seq<Move>, shape: Shape, gone: Location, id: OrderId)
    requires CoupledBut(a, idx, shape, gone, id)
    requires WellProbed(after) && Relocated(idx, after, id, moves) && EntriesWithout(idx, after, id)
    ensures CoupledBut(ApplyMoves(a, moves, shape), after, shape, gone, id)
    ensures !Holds(after, id)
  {
    var b := ApplyMoves(a, moves, shape);
    hide ApplyMoves, BodyAt, EncodeLocation, DecodeLocation, WellProbed;
    forall i | 0 <= i < |after| && after[i].Occupied?
      ensures after[i].key != id && Targets(b, after, i, shape) && DecodeLocation(after[i].value, shape) != Some(gone)
    {
      RemovalTargets(a, idx, after, moves, shape, gone, id, i);
    }
    forall loc | loc != gone
      ensures Exact(b, after, loc, shape) && (BodyAt(b, loc).Some? ==> BodyAt(b, loc).value.id != id)
    {
      RemovalExact(a, idx, after, moves, shape, gone, id, loc);
    }
  }

  lemma {:induction false} RemovalTargets(a: Arena, idx: seq<Slot>, after: seq<Slot>, moves: seq<Move>, shape: Shape, gone: Location, id: OrderId, i: nat)
    requires CoupledBut(a, idx, shape, gone, id)
    requires WellProbed(after) && Relocated(idx, after, id, moves) && EntriesWithout(idx, after, id)
    requires i < |after| && after[i].Occupied?
    ensures after[i].key != id
    ensures Targets(ApplyMoves(a, moves, shape), after, i, shape) && DecodeLocation(after[i].value, shape) != Some(gone)
  {
    hide ApplyMoves, BodyAt, EncodeLocation, DecodeLocation, Reachable, Exact;
    assert after[i] in after;
    assert after[i] in idx;
    var j :| 0 <= j < |idx| && idx[j] == after[i];
    assert Targets(a, idx, j, shape);
    var loc := DecodeLocation(after[i].value, shape).value;
    ApplyMovesBody(a, moves, shape, loc);
    var o := BodyAt(a, loc).value;
    if exists m :: m in moves && Names(m, loc, o, shape) {
      var m :| m in moves && Names(m, loc, o, shape) && BodyAt(ApplyMoves(a, moves, shape), loc).value.indexSlot == m.position;
      assert after[m.position].key == after[i].key;
    } else {
      assert !Names(Move(after[i].key, after[i].value, i), loc, o, shape) || Move(after[i].key, after[i].value, i) !in moves;
      assert after[i] == idx[i];
    }
  }

  lemma {:induction false} RemovalExact(a: Arena, idx: seq<Slot>, after: seq<Slot>, moves: seq<Move>, shape: Shape, gone: Location, id: OrderId, loc: Location)
    requires CoupledBut(a, idx, shape, gone, id)
    requires WellProbed(after) && Relocated(idx, after, id, moves) && EntriesWithout(idx, after, id)
    requires loc != gone
    ensures var b := ApplyMoves(a, moves, shape);
            Exact(b, after, loc, shape) && (BodyAt(b, loc).Some? ==> BodyAt(b, loc).value.id != id)
  {
    hide ApplyMoves, BodyAt, EncodeLocation, DecodeLocation, WellProbed, Relocated, Targets;
    ApplyMovesBody(a, moves, shape, loc);
    assert Exact(a, idx, loc, shape);
    if BodyAt(a, loc).Some? {
      var o := BodyAt(a, loc).value;
      assert idx[o.indexSlot] in idx;
      assert idx[o.indexSlot] in after;
      var i :| 0 <= i < |after| && after[i] == idx[o.indexSlot];
      RemovalTargets(a, idx, after, moves, shape, gone, id, i);
      EncodeDecode(loc, shape);
      TargetsHandle(ApplyMoves(a, moves, shape), after, i, shape, loc);
    }
  }

  lemma {:induction false} TargetsHandle(a: Arena, idx: seq<Slot>, i: nat, shape: Shape, loc: Location)
    requires i < |idx| && idx[i].Occupied? && Targets(a, idx, i, shape) && DecodeLocation(idx[i].value, shape) == Some(loc)
    ensures BodyAt(a, loc).Some? && BodyAt(a, loc).value.indexSlot == i
  {
  }

  // Load: at most half of the buckets are ever occupied.

  /** Four planes for at most two sides of live orders: probing always meets a gap. */
  lemma {:induction false} IndexHasRoom(a: Arena, idx: seq<Slot>, shape: Shape, gone: Location, id: OrderId)
    requires CoupledBut(a, idx, shape, gone, id)
    requires shape.levels * shape.orders > 0
    ensures exists e :: 0 <= e < |idx| && idx[e].Empty?
  {
    hide EncodeLocation, DecodeLocation, BodyAt, Exact, Reachable;
    forall i | 0 <= i < |idx| && idx[i].Occupied?
      ensures DecodeLocation(idx[i].value, shape).Some?
      ensures 1 <= idx[i].value <= 2 * (shape.levels * shape.orders)
    {
      if idx[i].key != id {
        assert Targets(a, idx, i, shape);
      }
      DecodeEncode(idx[i].value, shape);
      EncodeDecode(DecodeLocation(idx[i].value, shape).value, shape);
    }
    forall i, j | 0 <= i < j < |idx| && idx[i].Occupied? && idx[j].Occupied? ensures idx[i].value != idx[j].value {
    }
    SomeEmpty(idx, 2 * (shape.levels * shape.orders));
  }

  /** A gap in an index with nothing half removed. */
  lemma {:induction false} CoupledHasRoom(a: Arena, idx: seq<Slot>, shape: Shape)
    requires Coupled(a, idx, shape) && shape.levels * shape.orders > 0
    ensures exists e :: 0 <= e < |idx| && idx[e].Empty?
  {
    hide EncodeLocation, DecodeLocation, BodyAt, Exact, Reachable;
    forall i | 0 <= i < |idx| && idx[i].Occupied? ensures 1 <= idx[i].value <= 2 * (shape.levels * shape.orders) {
      assert Targets(a, idx, i, shape);
      DecodeEncode(idx[i].value, shape);
      EncodeDecode(DecodeLocation(idx[i].value, shape).value, shape);
    }
    forall i, j | 0 <= i < j < |idx| && idx[i].Occupied? && idx[j].Occupied? ensures idx[i].value != idx[j].value {
      assert Targets(a, idx, i, shape) && Targets(a, idx, j, shape);
    }
    SomeEmpty(idx, 2 * (shape.levels * shape.orders));
  }

  // Index updates leave the sides alone: a handle is invisible outside its slot.

  /** Levels that differ at most in stored handles. */
  ghost predicate Alike(l: PriceLevel, m: PriceLevel) {
    && l.price == m.price && l.len == m.len && l.aggregate == m.aggregate && l.head == m.head
    && Chain(l) == Chain(m) && Queue(l) == Queue(m)
  }

  ghost predicate LevelsAlike(a: seq<Option<PriceLevel>>, b: seq<Option<PriceLevel>>, orders: nat) {
    && |a| == |b|
    && (forall i :: 0 <= i < |a| ==> a[i].Some? == b[i].Some?)
    && (forall i :: 0 <= i < |a| ==>
          (a[i].Some? && ValidLevel(a[i].value, orders) ==> ValidLevel(b[i].value, orders) && Alike(a[i].value, b[i].value)))
  }

  lemma {:induction false} ApplyMoveAlike(a: Arena, m: Move, shape: Shape, side: Side)
    ensures LevelsAlike(a.At(side), ApplyMove(a, m, shape).At(side), shape.orders)
  {
    hide DecodeLocation, ValidLevel, Chain, Queue, SetHandle;
    match DecodeLocation(m.value, shape)
    case None =>
    case Some(loc) =>
      match LevelAt(a.At(loc.side), loc.level)
      case None =>
      case Some(l) =>
        if ValidLevel(l, shape.orders) {
          SetHandleValid(l, shape.orders, loc.slot, m.position);
          SetHandleHead(l, loc.slot, m.position);
        }
  }

  lemma {:induction false} SetHandleHead(l: PriceLevel, slot: nat, handle: nat)
    ensures SetHandle(l, slot, handle).head == l.head
  {
  }

  lemma {:induction false} ApplyMovesAlike(a: Arena, moves: seq<Move>, shape: Shape, side: Side)
    ensures LevelsAlike(a.At(side), ApplyMoves(a, moves, shape).At(side), shape.orders)
  {
    hide ApplyMove, ValidLevel, Alike;
    if moves != [] {
      var b := ApplyMoves(a, moves[..|moves| - 1], shape);
      ApplyMovesAlike(a, moves[..|moves| - 1], shape, side);
      ApplyMoveAlike(b, moves[|moves| - 1], shape, side);
      AlikeTransitive(a.At(side), b.At(side), ApplyMoves(a, moves, shape).At(side), shape.orders);
    } else {
      AlikeReflexive(a.At(side), shape.orders);
    }
  }

  lemma {:induction false} AlikeReflexive(a: seq<Option<PriceLevel>>, orders: nat)
    ensures LevelsAlike(a, a, orders)
  {
    hide ValidLevel, Chain, Queue;
  }

  lemma {:induction false} AlikeTransitive(a: seq<Option<PriceLevel>>, b: seq<Option<PriceLevel>>, c: seq<Option<PriceLevel>>, orders: nat)
    requires LevelsAlike(a, b, orders) && LevelsAlike(b, c, orders)
    ensures LevelsAlike(a, c, orders)
  {
    hide ValidLevel, Chain, Queue;
  }

  lemma {:induction false} AlikeSide(side: Side, s: SideStore, levels: seq<Option<PriceLevel>>, shape: Shape)
    requires SideOk(side, s, shape) && LevelsAlike(s.levels, levels, shape.orders)
    ensures SideOk(side, s.(levels := levels), shape) && SideView(s.(levels := levels)) == SideView(s)
  {
    hide ValidLevel, Queue, Chain, Partition, SortedEntries;
    forall k | 0 <= k < |s.entries|
      ensures Backed(levels, s.entries[k], shape.orders)
      ensures QueueAt(levels, s.entries[k].level) == QueueAt(s.levels, s.entries[k].level)
    {
      assert Backed(s.levels, s.entries[k], shape.orders);
    }
  }
}
