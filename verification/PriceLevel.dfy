/** One price level: an intrusive doubly linked FIFO over stable slots, with the
    unused slots on a singly linked free list. A level is a plain value that the
    book stores inline, so its operations map a level to the updated level. */
module PriceLevels {
  import opened Types

  const NIL: nat := 0xffff_ffff_ffff_ffff

  datatype RestingOrder = RestingOrder(
    id: OrderId,
    account: AccountId,
    indexSlot: nat,
    quantity: Quantity,
    sequence: Sequence,
    prev: nat,
    next: nat)

  datatype OrderSlot = Free(nextFree: nat) | Live(order: RestingOrder)

  datatype PriceLevel = PriceLevel(
    price: Price,
    aggregate: int,
    slots: seq<OrderSlot>,
    head: nat,
    tail: nat,
    freeHead: nat,
    len: int)

  /** What a resting order means outside its slot. */
  datatype Order = Order(id: OrderId, account: AccountId, quantity: Quantity, sequence: Sequence)

  function Logical(o: RestingOrder): Order {
    Order(o.id, o.account, o.quantity, o.sequence)
  }

  /** Everything an order carries except its links. */
  function Body(o: RestingOrder): RestingOrder {
    o.(prev := NIL, next := NIL)
  }

  predicate IsLive(slots: seq<OrderSlot>, i: nat) {
    i < |slots| && slots[i].Live?
  }

  /** FIFO order of the slots, by following `next` links. */
  function ChainFrom(slots: seq<OrderSlot>, cursor: nat, fuel: nat): (c: seq<nat>)
    ensures |c| <= fuel
    decreases fuel
  {
    if fuel == 0 || !IsLive(slots, cursor) then []
    else [cursor] + ChainFrom(slots, slots[cursor].order.next, fuel - 1)
  }

  function Chain(l: PriceLevel): (c: seq<nat>) {
    ChainFrom(l.slots, l.head, |l.slots|)
  }

  function OrderAt(slots: seq<OrderSlot>, i: nat): Order {
    if IsLive(slots, i) then Logical(slots[i].order) else Order(0, 0, 0, 0)
  }

  function OrdersAt(slots: seq<OrderSlot>, chain: seq<nat>): (q: seq<Order>)
    ensures |q| == |chain|
    ensures forall k :: 0 <= k < |chain| ==> q[k] == OrderAt(slots, chain[k])
  {
    seq(|chain|, k requires 0 <= k < |chain| => OrderAt(slots, chain[k]))
  }

  /** The FIFO queue a level stands for. */
  function Queue(l: PriceLevel): (q: seq<Order>) {
    OrdersAt(l.slots, Chain(l))
  }

  function Without<T>(s: seq<T>, k: nat): (t: seq<T>)
    requires k < |s|
    ensures |t| == |s| - 1
    ensures forall j :: 0 <= j < |t| ==> t[j] == (if j < k then s[j] else s[j + 1])
  {
    s[..k] + s[k + 1..]
  }

  function InsertAt<T>(s: seq<T>, p: nat, x: T): (t: seq<T>)
    requires p <= |s|
    ensures |t| == |s| + 1
    ensures forall k :: 0 <= k < |t| ==> t[k] == if k < p then s[k] else if k == p then x else s[k - 1]
  {
    s[..p] + [x] + s[p..]
  }

  function TotalQuantity(q: seq<Order>): (t: nat) {
    if q == [] then 0 else q[0].quantity + TotalQuantity(q[1..])
  }

  lemma {:induction false} TotalQuantityAppend(a: seq<Order>, b: seq<Order>)
    ensures TotalQuantity(a + b) == TotalQuantity(a) + TotalQuantity(b)
  {
    if a == [] {
      assert a + b == b;
    } else {
      assert (a + b)[1..] == a[1..] + b;
      TotalQuantityAppend(a[1..], b);
    }
  }

  lemma {:induction false} TotalQuantityWithout(q: seq<Order>, k: nat)
    requires k < |q|
    ensures TotalQuantity(Without(q, k)) == TotalQuantity(q) - q[k].quantity
  {
    if k == 0 {
      assert Without(q, 0) == q[1..];
    } else {
      TotalQuantityWithout(q[1..], k - 1);
      assert Without(q, k)[0] == q[0];
      assert Without(q, k)[1..] == Without(q[1..], k - 1);
    }
  }

  lemma {:induction false} TotalQuantityUpdate(q: seq<Order>, k: nat, o: Order)
    requires k < |q|
    ensures TotalQuantity(q[k := o]) == TotalQuantity(q) - q[k].quantity + o.quantity
  {
    var r := q[k := o];
    if k == 0 {
      assert r[1..] == q[1..];
    } else {
      TotalQuantityUpdate(q[1..], k - 1, o);
      assert r[0] == q[0];
      assert r[1..] == q[1..][k - 1 := o];
    }
  }

  function First(s: seq<nat>): nat {
    if s == [] then NIL else s[0]
  }

  function Last(s: seq<nat>): nat {
    if s == [] then NIL else s[|s| - 1]
  }

  ghost predicate Distinct(s: seq<nat>) {
    forall i, j :: 0 <= i < j < |s| ==> s[i] != s[j]
  }

  /** `chain` lists the live slots in FIFO order, linked both ways. */
  ghost predicate LiveLinks(slots: seq<OrderSlot>, chain: seq<nat>) {
    && Distinct(chain)
    && (forall k :: 0 <= k < |chain| ==> IsLive(slots, chain[k]))
    && (forall j, k :: 0 <= j < |chain| && 0 <= k < |chain| && k == j + 1 ==>
          slots[chain[j]].order.next == chain[k] && slots[chain[k]].order.prev == chain[j])
    && (chain != [] ==> slots[chain[0]].order.prev == NIL && slots[chain[|chain| - 1]].order.next == NIL)
    && (forall i :: 0 <= i < |slots| && slots[i].Live? ==> i in chain)
  }

  /** `free` lists the unused slots in allocation order. */
  ghost predicate FreeLinks(slots: seq<OrderSlot>, free: seq<nat>) {
    && Distinct(free)
    && (forall k :: 0 <= k < |free| ==> free[k] < |slots| && slots[free[k]].Free?)
    && (forall j, k :: 0 <= j < |free| && 0 <= k < |free| && k == j + 1 ==> slots[free[j]].nextFree == free[k])
    && (free != [] ==> slots[free[|free| - 1]].nextFree == NIL)
    && (forall i :: 0 <= i < |slots| && slots[i].Free? ==> i in free)
  }

  ghost predicate Linked(l: PriceLevel, chain: seq<nat>, free: seq<nat>) {
    && |l.slots| < NIL
    && |chain| == l.len && |chain| + |free| == |l.slots|
    && l.head == First(chain) && l.tail == Last(chain)
    && l.freeHead == First(free)
    && LiveLinks(l.slots, chain) && FreeLinks(l.slots, free)
    && l.aggregate == TotalQuantity(OrdersAt(l.slots, chain))
  }

  /** A level of capacity `n` whose links, free list, length and aggregate agree. */
  ghost predicate ValidLevel(l: PriceLevel, n: nat) {
    |l.slots| == n && exists free :: Linked(l, Chain(l), free)
  }

  /** Following the links recovers the chain. */
  lemma {:induction false} ChainSuffix(slots: seq<OrderSlot>, chain: seq<nat>, k: nat, fuel: nat)
    requires LiveLinks(slots, chain) && k <= |chain| && |slots| < NIL && fuel >= |chain| - k
    ensures ChainFrom(slots, First(chain[k..]), fuel) == chain[k..]
    decreases |chain| - k
  {
    if k < |chain| {
      ChainSuffix(slots, chain, k + 1, fuel - 1);
      assert chain[k..] == [chain[k]] + chain[k + 1..];
      assert slots[chain[k]].order.next == First(chain[k + 1..]);
    }
  }

  lemma {:induction false} LinkedChain(l: PriceLevel, chain: seq<nat>, free: seq<nat>)
    requires Linked(l, chain, free)
    ensures Chain(l) == chain && Queue(l) == OrdersAt(l.slots, chain)
    ensures ValidLevel(l, |l.slots|)
  {
    ChainSuffix(l.slots, chain, 0, |l.slots|);
    assert chain[0..] == chain;
  }

  function NewLevel(price: Price, n: nat): PriceLevel {
    PriceLevel(price, 0, seq(n, (i: nat) => Free(if i + 1 < n then i + 1 else NIL)), NIL, NIL, if n == 0 then NIL else 0, 0)
  }

  lemma {:induction false} NewLevelLinked(price: Price, n: nat)
    requires n < NIL
    ensures ValidLevel(NewLevel(price, n), n)
    ensures Queue(NewLevel(price, n)) == []
  {
    var l := NewLevel(price, n);
    var free := seq(n, (i: nat) => i);
    forall i | 0 <= i < n ensures i in free {
      assert free[i] == i;
    }
    LinkedChain(l, [], free);
  }

  function SetNext(slots: seq<OrderSlot>, i: nat, next: nat): seq<OrderSlot> {
    if IsLive(slots, i) then slots[i := Live(slots[i].order.(next := next))] else slots
  }

  function SetPrev(slots: seq<OrderSlot>, i: nat, prev: nat): seq<OrderSlot> {
    if IsLive(slots, i) then slots[i := Live(slots[i].order.(prev := prev))] else slots
  }

  /** Appends at the tail; the returned handle stays valid until the slot is unlinked. */
  function PushTail(l: PriceLevel, order: RestingOrder): Option<(PriceLevel, nat)> {
    if l.freeHead == NIL || l.len >= |l.slots| || l.freeHead >= |l.slots| || l.slots[l.freeHead].Live? then None
    else if l.tail != NIL && !IsLive(l.slots, l.tail) then None
    else
      var slot := l.freeHead;
      var slots := if l.tail != NIL then SetNext(l.slots, l.tail, slot) else l.slots;
      Some((l.(slots := slots[slot := Live(order.(prev := l.tail, next := NIL))],
               freeHead := l.slots[slot].nextFree,
               head := if l.tail == NIL then slot else l.head,
               tail := slot,
               len := l.len + 1,
               aggregate := l.aggregate + order.quantity), slot))
  }

  /** Detaches a live slot and returns it to the free list; a stale handle fails closed. */
  function Unlink(l: PriceLevel, slot: nat): Option<(PriceLevel, RestingOrder)> {
    if !IsLive(l.slots, slot) then None
    else
      var order := l.slots[slot].order;
      if order.prev != NIL && !IsLive(l.slots, order.prev) then None
      else if order.next != NIL && !IsLive(l.slots, order.next) then None
      else
        var s1 := if order.prev == NIL then l.slots else SetNext(l.slots, order.prev, order.next);
        var s2 := if order.next == NIL then s1 else SetPrev(s1, order.next, order.prev);
        Some((l.(slots := s2[slot := Free(l.freeHead)],
                 head := if order.prev == NIL then order.next else l.head,
                 tail := if order.next == NIL then order.prev else l.tail,
                 freeHead := slot,
                 len := l.len - 1,
                 aggregate := l.aggregate - order.quantity), order))
  }

  function ReduceQuantity(l: PriceLevel, slot: nat, quantity: Quantity): Option<PriceLevel> {
    if !IsLive(l.slots, slot) || l.slots[slot].order.quantity < quantity then None
    else
      var order := l.slots[slot].order;
      Some(l.(slots := l.slots[slot := Live(order.(quantity := order.quantity - quantity))],
              aggregate := l.aggregate - quantity))
  }

  function SetHandle(l: PriceLevel, slot: nat, handle: nat): PriceLevel {
    if !IsLive(l.slots, slot) then l
    else l.(slots := l.slots[slot := Live(l.slots[slot].order.(indexSlot := handle))])
  }

  function PushSlots(slots: seq<OrderSlot>, tail: nat, slot: nat, order: RestingOrder): seq<OrderSlot>
    requires slot < |slots|
  {
    (if tail != NIL then SetNext(slots, tail, slot) else slots)[slot := Live(order.(prev := tail, next := NIL))]
  }

  lemma {:induction false} PushLive(slots: seq<OrderSlot>, chain: seq<nat>, slot: nat, order: RestingOrder)
    requires LiveLinks(slots, chain) && slot < |slots| < NIL && slots[slot].Free?
    ensures LiveLinks(PushSlots(slots, Last(chain), slot, order), chain + [slot])
  {
    var slots2 := PushSlots(slots, Last(chain), slot, order);
    var chain2 := chain + [slot];
    forall i | 0 <= i < |slots2| && slots2[i].Live? ensures i in chain2 {
      assert i == slot || i in chain;
      assert chain2[|chain|] == slot;
    }
    forall j, k | 0 <= j < |chain2| && 0 <= k < |chain2| && k == j + 1
      ensures slots2[chain2[j]].order.next == chain2[k] && slots2[chain2[k]].order.prev == chain2[j]
    {
      if k < |chain| {
        assert chain2[j] == chain[j] && chain2[k] == chain[k];
      }
    }
  }

  lemma {:induction false} PushKeepsFree(slots: seq<OrderSlot>, tail: nat, slot: nat, order: RestingOrder)
    requires slot < |slots| && slots[slot].Free? && (tail != NIL ==> IsLive(slots, tail))
    ensures var t := PushSlots(slots, tail, slot, order);
            && |t| == |slots| && t[slot] == Live(order.(prev := tail, next := NIL))
            && (forall i :: 0 <= i < |slots| && i != slot ==> t[i].Free? == slots[i].Free?)
            && (forall i :: 0 <= i < |slots| && i != slot && slots[i].Free? ==> t[i] == slots[i])
            && (forall i :: 0 <= i < |slots| && i != slot && slots[i].Live? ==> Body(t[i].order) == Body(slots[i].order))
  {
  }

  lemma {:induction false} PushFree(slots: seq<OrderSlot>, free: seq<nat>, tail: nat, order: RestingOrder)
    requires FreeLinks(slots, free) && free != [] && |slots| < NIL
    requires tail != NIL ==> IsLive(slots, tail)
    ensures FreeLinks(PushSlots(slots, tail, free[0], order), free[1..])
    ensures slots[free[0]].nextFree == First(free[1..])
  {
    hide PushSlots;
    var t := PushSlots(slots, tail, free[0], order);
    PushKeepsFree(slots, tail, free[0], order);
    var rest := free[1..];
    assert forall k :: 0 <= k < |rest| ==> rest[k] == free[k + 1];
    forall j, k | 0 <= j < |rest| && 0 <= k < |rest| && k == j + 1 ensures t[rest[j]].nextFree == rest[k] {
      assert slots[free[j + 1]].nextFree == free[k + 1];
    }
    forall i | 0 <= i < |t| && t[i].Free? ensures i in rest {
      var k :| 0 <= k < |free| && free[k] == i;
      assert rest[k - 1] == i;
    }
  }

  lemma {:induction false} PushSize(slots: seq<OrderSlot>, tail: nat, slot: nat, order: RestingOrder)
    requires slot < |slots|
    ensures |PushSlots(slots, tail, slot, order)| == |slots|
  {
  }

  lemma {:induction false} LinkedEnds(l: PriceLevel, chain: seq<nat>, free: seq<nat>)
    requires Linked(l, chain, free) && free != []
    ensures (l.tail != NIL ==> IsLive(l.slots, l.tail)) && (chain != [] ==> l.tail != NIL)
    ensures l.freeHead == free[0] < |l.slots| && l.slots[free[0]].Free?
  {
  }

  /** Appending extends the queue at its end and takes the first free slot. */
  lemma {:induction false} PushTailLinked(l: PriceLevel, chain: seq<nat>, free: seq<nat>, order: RestingOrder)
    requires Linked(l, chain, free) && free != []
    ensures PushTail(l, order).Some? && PushTail(l, order).value.1 == free[0]
    ensures Linked(PushTail(l, order).value.0, chain + [free[0]], free[1..])
  {
    hide LiveLinks, FreeLinks, PushSlots;
    var slot := free[0];
    LinkedEnds(l, chain, free);
    PushSize(l.slots, l.tail, slot, order);
    PushShape(l, free, order);
    var l2 := PushTail(l, order).value.0;
    assert l2.slots == PushSlots(l.slots, Last(chain), slot, order);
    PushLive(l.slots, chain, slot, order);
    PushFree(l.slots, free, l.tail, order);
    PushOrders(l.slots, chain, slot, order);
    TotalQuantityAppend(OrdersAt(l.slots, chain), [Logical(order)]);
  }

  lemma {:induction false} PushOrders(slots: seq<OrderSlot>, chain: seq<nat>, slot: nat, order: RestingOrder)
    requires LiveLinks(slots, chain) && slot < |slots| < NIL && slots[slot].Free?
    ensures OrdersAt(PushSlots(slots, Last(chain), slot, order), chain + [slot]) == OrdersAt(slots, chain) + [Logical(order)]
  {
    var slots2 := PushSlots(slots, Last(chain), slot, order);
    forall k | 0 <= k < |chain| ensures OrderAt(slots2, chain[k]) == OrderAt(slots, chain[k]) {
      assert chain[k] != slot;
    }
    assert OrderAt(slots2, slot) == Logical(order);
  }

  function UnlinkSlots(slots: seq<OrderSlot>, slot: nat, freeHead: nat): seq<OrderSlot>
    requires IsLive(slots, slot)
  {
    var order := slots[slot].order;
    var s1 := if order.prev == NIL then slots else SetNext(slots, order.prev, order.next);
    var s2 := if order.next == NIL then s1 else SetPrev(s1, order.next, order.prev);
    s2[slot := Free(freeHead)]
  }

  /** Peers of an unlinked slot keep everything but the one link that named it. */
  lemma {:induction false} UnlinkPeers(slots: seq<OrderSlot>, chain: seq<nat>, k: nat, freeHead: nat)
    requires LiveLinks(slots, chain) && k < |chain| && |slots| < NIL
    ensures var t := UnlinkSlots(slots, chain[k], freeHead);
            && |t| == |slots| && t[chain[k]] == Free(freeHead)
            && (forall i :: 0 <= i < |slots| && i != chain[k] && (k == 0 || i != chain[k - 1]) && (k + 1 == |chain| || i != chain[k + 1])
                  ==> t[i] == slots[i])
            && (k > 0 ==> t[chain[k - 1]] == Live(slots[chain[k - 1]].order.(next := if k + 1 < |chain| then chain[k + 1] else NIL)))
            && (k + 1 < |chain| ==> t[chain[k + 1]] == Live(slots[chain[k + 1]].order.(prev := if k > 0 then chain[k - 1] else NIL)))
  {
    var order := slots[chain[k]].order;
    assert order.prev == if k > 0 then chain[k - 1] else NIL;
    assert order.next == if k + 1 < |chain| then chain[k + 1] else NIL;
  }

  lemma {:induction false} WithoutDistinct(chain: seq<nat>, k: nat)
    requires Distinct(chain) && k < |chain|
    ensures Distinct(Without(chain, k))
    ensures forall i :: i in chain && i != chain[k] ==> i in Without(chain, k)
    ensures chain[k] !in Without(chain, k)
  {
    forall i | i in chain && i != chain[k] ensures i in Without(chain, k) {
      var j :| 0 <= j < |chain| && chain[j] == i;
      assert Without(chain, k)[if j < k then j else j - 1] == i;
    }
  }

  lemma {:induction false} UnlinkMembers(slots: seq<OrderSlot>, chain: seq<nat>, k: nat, freeHead: nat)
    requires LiveLinks(slots, chain) && k < |chain| && |slots| < NIL
    ensures var t := UnlinkSlots(slots, chain[k], freeHead);
            && |t| == |slots| && t[chain[k]] == Free(freeHead)
            && (forall i :: 0 <= i < |slots| && i != chain[k] ==> t[i].Live? == slots[i].Live?)
            && (forall i :: 0 <= i < |slots| && i != chain[k] && t[i].Live? ==> Body(t[i].order) == Body(slots[i].order))
  {
    UnlinkPeers(slots, chain, k, freeHead);
  }

  lemma {:induction false} UnlinkAdjacent(slots: seq<OrderSlot>, chain: seq<nat>, k: nat, freeHead: nat, i: nat)
    requires LiveLinks(slots, chain) && k < |chain| && |slots| < NIL && i + 2 < |chain|
    ensures var t, c := UnlinkSlots(slots, chain[k], freeHead), Without(chain, k);
            && IsLive(t, c[i]) && IsLive(t, c[i + 1])
            && t[c[i]].order.next == c[i + 1] && t[c[i + 1]].order.prev == c[i]
  {
    hide UnlinkSlots;
    UnlinkPeers(slots, chain, k, freeHead);
    var i0, j0 := if i < k then i else i + 1, if i + 1 < k then i + 1 else i + 2;
    assert Without(chain, k)[i] == chain[i0] && Without(chain, k)[i + 1] == chain[j0];
    assert IsLive(slots, chain[i0]) && IsLive(slots, chain[j0]);
    if i0 + 1 == j0 {
      assert slots[chain[i0]].order.next == chain[j0] && slots[chain[j0]].order.prev == chain[i0];
    }
  }

  lemma {:induction false} UnlinkOuter(slots: seq<OrderSlot>, chain: seq<nat>, k: nat, freeHead: nat)
    requires LiveLinks(slots, chain) && k < |chain| && |slots| < NIL && |chain| > 1
    ensures var t, c := UnlinkSlots(slots, chain[k], freeHead), Without(chain, k);
            && IsLive(t, c[0]) && IsLive(t, c[|c| - 1])
            && t[c[0]].order.prev == NIL && t[c[|c| - 1]].order.next == NIL
  {
    hide UnlinkSlots, Distinct;
    UnlinkPeers(slots, chain, k, freeHead);
    assert Without(chain, k)[0] == chain[if k == 0 then 1 else 0];
    assert Without(chain, k)[|chain| - 2] == chain[if k == |chain| - 1 then |chain| - 2 else |chain| - 1];
    hide Without;
  }

  lemma {:induction false} UnlinkStillLive(slots: seq<OrderSlot>, chain: seq<nat>, k: nat, freeHead: nat)
    requires LiveLinks(slots, chain) && k < |chain| && |slots| < NIL
    ensures var t, c := UnlinkSlots(slots, chain[k], freeHead), Without(chain, k);
            && Distinct(c)
            && (forall j :: 0 <= j < |c| ==> IsLive(t, c[j]))
            && (forall i :: 0 <= i < |t| && t[i].Live? ==> i in c)
  {
    hide UnlinkSlots, Distinct;
    UnlinkMembers(slots, chain, k, freeHead);
    WithoutDistinct(chain, k);
    var c := Without(chain, k);
    forall j | 0 <= j < |c| ensures IsLive(UnlinkSlots(slots, chain[k], freeHead), c[j]) {
      assert c[j] == chain[if j < k then j else j + 1] && c[j] in c;
    }
  }

  lemma {:induction false} UnlinkLive(slots: seq<OrderSlot>, chain: seq<nat>, k: nat, freeHead: nat)
    requires LiveLinks(slots, chain) && k < |chain| && |slots| < NIL
    ensures LiveLinks(UnlinkSlots(slots, chain[k], freeHead), Without(chain, k))
  {
    hide UnlinkSlots, Without, Distinct;
    var t := UnlinkSlots(slots, chain[k], freeHead);
    var c := Without(chain, k);
    WithoutSize(chain, k);
    UnlinkStillLive(slots, chain, k, freeHead);
    if |c| > 0 {
      UnlinkOuter(slots, chain, k, freeHead);
    }
    forall i, j | 0 <= i < |c| && 0 <= j < |c| && j == i + 1
      ensures t[c[i]].order.next == c[j] && t[c[j]].order.prev == c[i]
    {
      UnlinkAdjacent(slots, chain, k, freeHead, i);
    }
  }

  lemma {:induction false} WithoutSize(chain: seq<nat>, k: nat)
    requires k < |chain|
    ensures |Without(chain, k)| == |chain| - 1
  {
  }

  lemma {:induction false} UnlinkKeepsFree(slots: seq<OrderSlot>, slot: nat, freeHead: nat)
    requires IsLive(slots, slot)
    ensures var t := UnlinkSlots(slots, slot, freeHead);
            && |t| == |slots| && t[slot] == Free(freeHead)
            && (forall i :: 0 <= i < |slots| && i != slot ==> t[i].Free? == slots[i].Free?)
            && (forall i :: 0 <= i < |slots| && slots[i].Free? ==> t[i] == slots[i])
  {
  }

  lemma {:induction false} UnlinkFree(slots: seq<OrderSlot>, free: seq<nat>, slot: nat)
    requires FreeLinks(slots, free) && IsLive(slots, slot)
    ensures FreeLinks(UnlinkSlots(slots, slot, First(free)), [slot] + free)
  {
    hide UnlinkSlots, FreeLinks;
    var t := UnlinkSlots(slots, slot, First(free));
    UnlinkKeepsFree(slots, slot, First(free));
    FreedCovers(slots, t, free, slot);
    FreedChain(slots, t, free, slot);
    FreedLinks(t, [slot] + free);
  }

  lemma {:induction false} FreedCovers(slots: seq<OrderSlot>, t: seq<OrderSlot>, free: seq<nat>, slot: nat)
    requires FreeLinks(slots, free) && |t| == |slots| && slot < |slots|
    requires forall i :: 0 <= i < |slots| && i != slot ==> t[i].Free? == slots[i].Free?
    ensures forall i :: 0 <= i < |t| && t[i].Free? ==> i in [slot] + free
  {
    var free2 := [slot] + free;
    forall i | 0 <= i < |t| && t[i].Free? ensures i in free2 {
      if i == slot {
        assert free2[0] == i;
      } else {
        var k :| 0 <= k < |free| && free[k] == i;
        assert free2[k + 1] == i;
      }
    }
  }

  lemma {:induction false} FreedChain(slots: seq<OrderSlot>, t: seq<OrderSlot>, free: seq<nat>, slot: nat)
    requires FreeLinks(slots, free) && |t| == |slots| && IsLive(slots, slot) && t[slot] == Free(First(free))
    requires forall i :: 0 <= i < |slots| && slots[i].Free? ==> t[i] == slots[i]
    ensures FreeRun(t, [slot] + free)
  {
    var free2 := [slot] + free;
    forall j | 0 <= j < |free2| ensures free2[j] < |t| && t[free2[j]].Free? {
      assert j > 0 ==> free2[j] == free[j - 1] && slots[free[j - 1]].Free?;
    }
    forall j, k | 0 <= j < |free2| && 0 <= k < |free2| && k == j + 1 ensures t[free2[j]].nextFree == free2[k] {
      assert free2[k] == free[k - 1];
      assert j > 0 ==> free2[j] == free[j - 1] && slots[free[j - 1]].Free?;
    }
    if free != [] {
      assert free2[|free2| - 1] == free[|free| - 1] && slots[free[|free| - 1]].Free?;
    }
    forall i, j | 0 <= i < j < |free2| ensures free2[i] != free2[j] {
      assert free2[j] == free[j - 1];
      assert slots[free[j - 1]].Free?;
    }
  }

  /** Distinct free slots, each naming the next. */
  ghost predicate FreeRun(slots: seq<OrderSlot>, free: seq<nat>) {
    && Distinct(free)
    && (forall j :: 0 <= j < |free| ==> free[j] < |slots| && slots[free[j]].Free?)
    && (forall j, k :: 0 <= j < |free| && 0 <= k < |free| && k == j + 1 ==> slots[free[j]].nextFree == free[k])
    && (free != [] ==> slots[free[|free| - 1]].nextFree == NIL)
  }

  lemma {:induction false} FreedLinks(slots: seq<OrderSlot>, free: seq<nat>)
    requires FreeRun(slots, free) && forall i :: 0 <= i < |slots| && slots[i].Free? ==> i in free
    ensures FreeLinks(slots, free)
  {
    hide Distinct;
  }

  lemma {:induction false} Neighbours(slots: seq<OrderSlot>, chain: seq<nat>, k: nat)
    requires LiveLinks(slots, chain) && k < |chain| && |slots| < NIL
    ensures IsLive(slots, chain[k])
    ensures slots[chain[k]].order.prev == if k > 0 then chain[k - 1] else NIL
    ensures slots[chain[k]].order.next == if k + 1 < |chain| then chain[k + 1] else NIL
    ensures k > 0 ==> IsLive(slots, chain[k - 1]) && chain[k - 1] != NIL
    ensures k + 1 < |chain| ==> IsLive(slots, chain[k + 1]) && chain[k + 1] != NIL
  {
  }

  lemma {:induction false} WithoutEnds(chain: seq<nat>, k: nat)
    requires k < |chain|
    ensures First(Without(chain, k)) == if k > 0 then chain[0] else if k + 1 < |chain| then chain[k + 1] else NIL
    ensures Last(Without(chain, k)) == if k + 1 < |chain| then chain[|chain| - 1] else if k > 0 then chain[k - 1] else NIL
  {
  }

  /** Unlinking removes exactly that slot from the chain and frees it; every other
      order keeps its slot, its place and its contents. */
  lemma {:induction false} UnlinkLinked(l: PriceLevel, chain: seq<nat>, free: seq<nat>, k: nat)
    requires Linked(l, chain, free) && k < |chain|
    ensures IsLive(l.slots, chain[k])
    ensures Unlink(l, chain[k]).Some? && Unlink(l, chain[k]).value.1 == l.slots[chain[k]].order
    ensures Linked(Unlink(l, chain[k]).value.0, Without(chain, k), [chain[k]] + free)
  {
    hide LiveLinks, FreeLinks, UnlinkSlots, Unlink, OrdersAt, TotalQuantity, Without;
    Neighbours(l.slots, chain, k);
    UnlinkLive(l.slots, chain, k, First(free));
    UnlinkFree(l.slots, free, chain[k]);
    UnlinkMembers(l.slots, chain, k, First(free));
    UnlinkOrders(l, chain, free, k);
    WithoutEnds(chain, k);
    TotalQuantityWithout(OrdersAt(l.slots, chain), k);
    UnlinkShape(l, chain[k]);
  }

  /** `Unlink` field by field, once its links are known to be sound. */
  lemma {:induction false} UnlinkShape(l: PriceLevel, slot: nat)
    requires IsLive(l.slots, slot)
    requires var o := l.slots[slot].order;
             (o.prev == NIL || IsLive(l.slots, o.prev)) && (o.next == NIL || IsLive(l.slots, o.next))
    ensures Unlink(l, slot).Some?
    ensures var (l2, o) := Unlink(l, slot).value;
            && o == l.slots[slot].order
            && l2 == PriceLevel(l.price, l.aggregate - o.quantity, UnlinkSlots(l.slots, slot, l.freeHead),
                                if o.prev == NIL then o.next else l.head, if o.next == NIL then o.prev else l.tail,
                                slot, l.len - 1)
  {
  }

  lemma {:induction false} UnlinkOrders(l: PriceLevel, chain: seq<nat>, free: seq<nat>, k: nat)
    requires Linked(l, chain, free) && k < |chain| && IsLive(l.slots, chain[k])
    ensures var t := UnlinkSlots(l.slots, chain[k], First(free));
            var q := OrdersAt(l.slots, chain);
            OrdersAt(t, Without(chain, k)) == Without(q, k)
  {
    hide UnlinkSlots, LiveLinks, FreeLinks, Without, OrdersAt, OrderAt, TotalQuantity;
    var t := UnlinkSlots(l.slots, chain[k], First(free));
    var c := Without(chain, k);
    forall j | 0 <= j < |c| ensures OrderAt(t, c[j]) == OrderAt(l.slots, c[j]) {
      UnlinkOrderAt(l.slots, chain, k, First(free), j);
    }
    OrdersWithout(l.slots, t, chain, k);
  }

  lemma {:induction false} UnlinkOrderAt(slots: seq<OrderSlot>, chain: seq<nat>, k: nat, freeHead: nat, j: nat)
    requires LiveLinks(slots, chain) && k < |chain| && |slots| < NIL && j < |Without(chain, k)|
    ensures OrderAt(UnlinkSlots(slots, chain[k], freeHead), Without(chain, k)[j]) == OrderAt(slots, Without(chain, k)[j])
  {
    hide UnlinkSlots, Distinct, LiveLinks, Without;
    LinksDistinct(slots, chain);
    WithoutDistinct(chain, k);
    UnlinkMembers(slots, chain, k, freeHead);
    UnlinkStillLive(slots, chain, k, freeHead);
    assert Without(chain, k)[j] in Without(chain, k);
  }

  lemma {:induction false} LinksDistinct(slots: seq<OrderSlot>, chain: seq<nat>)
    requires LiveLinks(slots, chain)
    ensures Distinct(chain)
  {
  }

  lemma {:induction false} OrdersWithout(slots: seq<OrderSlot>, t: seq<OrderSlot>, chain: seq<nat>, k: nat)
    requires k < |chain| && forall j :: 0 <= j < |Without(chain, k)| ==> OrderAt(t, Without(chain, k)[j]) == OrderAt(slots, Without(chain, k)[j])
    ensures OrdersAt(t, Without(chain, k)) == Without(OrdersAt(slots, chain), k)
  {
    hide OrderAt;
    var c := Without(chain, k);
    forall j | 0 <= j < |c| ensures OrderAt(t, c[j]) == OrdersAt(slots, chain)[if j < k then j else j + 1] {
      assert c[j] == chain[if j < k then j else j + 1];
    }
  }

  // What the book relies on, stated for valid levels.

  /** Order in slot `i`, links aside. */
  function SlotBody(l: PriceLevel, i: nat): Option<RestingOrder> {
    if IsLive(l.slots, i) then Some(Body(l.slots[i].order)) else None
  }

  lemma {:induction false} QueueNonEmpty(l: PriceLevel, n: nat)
    requires ValidLevel(l, n)
    ensures |Queue(l)| == |Chain(l)| == l.len
    ensures l.head == First(Chain(l))
    ensures l.aggregate == TotalQuantity(Queue(l))
    ensures forall k :: 0 <= k < |Chain(l)| ==> IsLive(l.slots, Chain(l)[k])
    ensures forall i :: IsLive(l.slots, i) <==> i in Chain(l)
    ensures Distinct(Chain(l))
    ensures forall k :: 0 <= k < |Chain(l)| ==> Queue(l)[k] == Logical(l.slots[Chain(l)[k]].order)
    ensures n < NIL && l.len <= n
  {
  }

  lemma {:induction false} TotalBounded(q: seq<Order>)
    ensures TotalQuantity(q) <= |q| * (U64_BOUND - 1)
  {
    if q != [] {
      TotalBounded(q[1..]);
    }
  }

  /** The maintained total of a valid level always fits 128 bits: its unchecked additions
      never wrap. */
  lemma {:induction false} AggregateFits(l: PriceLevel, n: nat)
    requires ValidLevel(l, n)
    ensures 0 <= l.aggregate < U128_BOUND
  {
    hide ValidLevel, Queue, Chain;
    QueueNonEmpty(l, n);
    TotalBounded(Queue(l));
    assert |Queue(l)| < U64_BOUND;
    assert |Queue(l)| * (U64_BOUND - 1) <= (U64_BOUND - 1) * (U64_BOUND - 1);
  }

  /** `PushTail` field by field, once the free list and the tail are known to be sound. */
  lemma {:induction false} PushShape(l: PriceLevel, free: seq<nat>, order: RestingOrder)
    requires PushTail(l, order).Some?
    ensures l.freeHead < |l.slots| && l.slots[l.freeHead].Free? && (l.tail != NIL ==> IsLive(l.slots, l.tail))
    ensures var (l2, slot) := PushTail(l, order).value;
            && slot == l.freeHead && l2.price == l.price && l2.len == l.len + 1
            && l2.slots == PushSlots(l.slots, l.tail, slot, order)
  {
  }

  lemma {:induction false} PushBodies(l: PriceLevel, order: RestingOrder)
    requires PushTail(l, order).Some?
    ensures var (l2, slot) := PushTail(l, order).value;
            && |l2.slots| == |l.slots| && slot < |l.slots| && l.slots[slot].Free?
            && SlotBody(l, slot).None? && SlotBody(l2, slot) == Some(Body(order))
            && forall i: nat :: i != slot ==> SlotBody(l2, i) == SlotBody(l, i)
  {
    hide PushTail;
    PushShape(l, [], order);
    PushKeepsFree(l.slots, l.tail, l.freeHead, order);
    hide PushSlots;
  }

  lemma {:induction false} PushTailValid(l: PriceLevel, n: nat, order: RestingOrder)
    requires ValidLevel(l, n) && l.len < n
    ensures PushTail(l, order).Some?
    ensures var (l2, slot) := PushTail(l, order).value;
            && ValidLevel(l2, n) && l2.price == l.price && l2.len == l.len + 1
            && Chain(l2) == Chain(l) + [slot]
            && Queue(l2) == Queue(l) + [Logical(order)]
            && slot < n && SlotBody(l, slot).None? && SlotBody(l2, slot) == Some(Body(order))
            && forall i: nat :: i != slot ==> SlotBody(l2, i) == SlotBody(l, i)
  {
    hide PushTail, PushSlots, LiveLinks, FreeLinks, TotalQuantity, OrdersAt, Chain, Queue, SlotBody;
    var chain := Chain(l);
    var free :| Linked(l, chain, free);
    PushTailLinked(l, chain, free, order);
    PushShape(l, free, order);
    PushBodies(l, order);
    PushOrders(l.slots, chain, free[0], order);
    LinkedChain(l, chain, free);
    LinkedChain(PushTail(l, order).value.0, chain + [free[0]], free[1..]);
  }

  lemma {:induction false} UnlinkBodies(l: PriceLevel, chain: seq<nat>, free: seq<nat>, k: nat)
    requires Linked(l, chain, free) && k < |chain|
    ensures IsLive(l.slots, chain[k]) && Unlink(l, chain[k]).Some?
    ensures var (l2, order) := Unlink(l, chain[k]).value;
            && l2.price == l.price && l2.len == l.len - 1 && l2.slots == UnlinkSlots(l.slots, chain[k], First(free))
            && order == l.slots[chain[k]].order
            && SlotBody(l2, chain[k]).None?
            && forall i: nat :: i != chain[k] ==> SlotBody(l2, i) == SlotBody(l, i)
  {
    Neighbours(l.slots, chain, k);
    UnlinkShape(l, chain[k]);
    UnlinkMembers(l.slots, chain, k, First(free));
    hide Unlink, UnlinkSlots, LiveLinks, FreeLinks, TotalQuantity, OrdersAt;
  }

  lemma {:induction false} UnlinkValid(l: PriceLevel, n: nat, k: nat)
    requires ValidLevel(l, n) && k < |Chain(l)|
    ensures Unlink(l, Chain(l)[k]).Some?
    ensures var slot := Chain(l)[k];
            var (l2, order) := Unlink(l, slot).value;
            && ValidLevel(l2, n) && l2.price == l.price && l2.len == l.len - 1
            && k < |Queue(l)| && Chain(l2) == Without(Chain(l), k)
            && Queue(l2) == Without(Queue(l), k)
            && IsLive(l.slots, slot) && order == l.slots[slot].order && Logical(order) == Queue(l)[k]
            && SlotBody(l2, slot).None?
            && forall i: nat :: i != slot ==> SlotBody(l2, i) == SlotBody(l, i)
  {
    hide Unlink, UnlinkSlots, LiveLinks, FreeLinks, TotalQuantity, Chain, SlotBody, OrdersAt;
    var chain := Chain(l);
    var free :| Linked(l, chain, free);
    UnlinkLinked(l, chain, free, k);
    UnlinkBodies(l, chain, free, k);
    UnlinkOrders(l, chain, free, k);
    LinkedChain(l, chain, free);
    hide Queue;
    LinkedChain(Unlink(l, chain[k]).value.0, Without(chain, k), [chain[k]] + free);
  }

  /** Rewriting the contents of one live slot, links untouched, keeps the links. */
  lemma {:induction false} RewriteLinks(slots: seq<OrderSlot>, chain: seq<nat>, free: seq<nat>, slot: nat, order: RestingOrder)
    requires LiveLinks(slots, chain) && FreeLinks(slots, free) && IsLive(slots, slot)
    requires order.prev == slots[slot].order.prev && order.next == slots[slot].order.next
    ensures LiveLinks(slots[slot := Live(order)], chain) && FreeLinks(slots[slot := Live(order)], free)
  {
  }

  lemma {:induction false} RewriteOrders(slots: seq<OrderSlot>, chain: seq<nat>, k: nat, order: RestingOrder)
    requires Distinct(chain) && k < |chain| && IsLive(slots, chain[k])
    ensures OrdersAt(slots[chain[k] := Live(order)], chain) == OrdersAt(slots, chain)[k := Logical(order)]
  {
  }

  lemma {:induction false} RewriteValid(l: PriceLevel, n: nat, k: nat, order: RestingOrder)
    requires ValidLevel(l, n) && k < |Chain(l)| && IsLive(l.slots, Chain(l)[k])
    requires order.prev == l.slots[Chain(l)[k]].order.prev && order.next == l.slots[Chain(l)[k]].order.next
    ensures var slot := Chain(l)[k];
            var was := l.slots[slot].order;
            var l2 := l.(slots := l.slots[slot := Live(order)], aggregate := l.aggregate - was.quantity + order.quantity);
            && ValidLevel(l2, n) && Chain(l2) == Chain(l) && k < |Queue(l)| && Queue(l2) == Queue(l)[k := Logical(order)]
            && SlotBody(l2, slot) == Some(Body(order))
            && forall i: nat :: i != slot ==> SlotBody(l2, i) == SlotBody(l, i)
  {
    hide LiveLinks, FreeLinks, TotalQuantity, Chain;
    var chain := Chain(l);
    var free :| Linked(l, chain, free);
    var was := l.slots[chain[k]].order;
    var l2 := l.(slots := l.slots[chain[k] := Live(order)], aggregate := l.aggregate - was.quantity + order.quantity);
    RewriteLinks(l.slots, chain, free, chain[k], order);
    LinksDistinct(l.slots, chain);
    RewriteOrders(l.slots, chain, k, order);
    TotalQuantityUpdate(OrdersAt(l.slots, chain), k, Logical(order));
    assert OrdersAt(l.slots, chain)[k] == Logical(was);
    LinkedChain(l2, chain, free);
  }

  lemma {:induction false} ReduceValid(l: PriceLevel, n: nat, k: nat, quantity: Quantity)
    requires ValidLevel(l, n) && k < |Queue(l)| && quantity <= Queue(l)[k].quantity
    ensures k < |Chain(l)| && ReduceQuantity(l, Chain(l)[k], quantity).Some?
    ensures var slot := Chain(l)[k];
            var l2 := ReduceQuantity(l, slot, quantity).value;
            var left: Quantity := Queue(l)[k].quantity - quantity;
            && ValidLevel(l2, n) && l2.price == l.price && l2.len == l.len && Chain(l2) == Chain(l)
            && Queue(l2) == Queue(l)[k := Queue(l)[k].(quantity := left)]
            && SlotBody(l, slot).Some? && SlotBody(l2, slot) == Some(SlotBody(l, slot).value.(quantity := left))
            && forall i: nat :: i != slot ==> SlotBody(l2, i) == SlotBody(l, i)
  {
    hide ValidLevel, Chain, Queue;
    QueueNonEmpty(l, n);
    var order := l.slots[Chain(l)[k]].order;
    RewriteValid(l, n, k, order.(quantity := order.quantity - quantity));
  }

  lemma {:induction false} SetHandleValid(l: PriceLevel, n: nat, slot: nat, handle: nat)
    requires ValidLevel(l, n)
    ensures var l2 := SetHandle(l, slot, handle);
            && ValidLevel(l2, n) && l2.price == l.price && l2.len == l.len && l2.aggregate == l.aggregate
            && Chain(l2) == Chain(l) && Queue(l2) == Queue(l)
            && SlotBody(l2, slot) == (if SlotBody(l, slot).Some? then Some(SlotBody(l, slot).value.(indexSlot := handle)) else None)
            && forall i: nat :: i != slot ==> SlotBody(l2, i) == SlotBody(l, i)
  {
    hide ValidLevel, Chain, Queue;
    QueueNonEmpty(l, n);
    if IsLive(l.slots, slot) {
      var k :| 0 <= k < |Chain(l)| && Chain(l)[k] == slot;
      RewriteValid(l, n, k, l.slots[slot].order.(indexSlot := handle));
      assert Queue(l)[k := Queue(l)[k]] == Queue(l);
    }
  }
}
