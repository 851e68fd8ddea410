/** Orders and reservations stay in one-to-one correspondence through every command,
    so no internal error path can be taken. */
module GatewayLaws {
  import opened Types
  import opened PriceLevels
  import opened BookSpec
  import opened BookLaws
  import opened BookIds
  import opened Priority
  import opened Reports
  import opened GatewaySpec
  import R = RiskSpec

  ghost function Ids(list: seq<Resting>): set<OrderId> {
    set r | r in list :: r.order.id
  }

  /** Every listed order has a reservation with its owner, side and quantity. */
  ghost predicate Matches(list: seq<Resting>, side: Side, m: map<OrderId, R.Reservation>) {
    forall r :: r in list ==> r.order.id in m && m[r.order.id] == R.Reservation(r.order.account, side, r.order.quantity)
  }

  /** Resting orders and reservations are one-to-one, but for the ids in `extra`. */
  ghost predicate Paired(b: Book, m: map<OrderId, R.Reservation>, extra: set<OrderId>) {
    && Matches(Flatten(b.bids), Buy, m) && Matches(Flatten(b.asks), Sell, m)
    && m.Keys == Ids(Flatten(b.bids)) + Ids(Flatten(b.asks)) + extra
  }

  predicate AtMost(a: Option<OrderId>, b: Option<OrderId>) {
    a.Some? ==> b.Some? && a.value <= b.value
  }

  /** The cross-component invariant of the gateway. */
  ghost predicate SoundGateway(cfg: Config, g: GatewayState) {
    && 0 < cfg.book.orders && 0 < g.expected
    && SoundBook(g.book, cfg.book, g.expected) && R.SoundRisk(g.risk, cfg.risk)
    && Paired(g.book, g.risk.reservations, {})
    && AtMost(g.risk.maximum, g.maximum)
  }

  // Pairing under each change of one side.

  lemma {:induction false} IdsWithout(list: seq<Resting>, p: nat)
    requires DistinctKeys(list) && p < |list|
    ensures Ids(Without(list, p)) == Ids(list) - {list[p].order.id}
  {
    var rest, id := Without(list, p), list[p].order.id;
    forall r | r in rest ensures r in list && r.order.id != id {
      var i :| 0 <= i < |rest| && rest[i] == r;
      var i0 := if i < p then i else i + 1;
      assert list[i0] == r && i0 != p;
    }
    forall r | r in list && r.order.id != id ensures r in rest {
      var i :| 0 <= i < |list| && list[i] == r;
      assert rest[if i < p then i else i - 1] == r;
    }
    hide Without, DistinctKeys;
  }

  lemma {:induction false} IdsUpdate(list: seq<Resting>, p: nat, r: Resting)
    requires p < |list| && r.order.id == list[p].order.id
    ensures Ids(list[p := r]) == Ids(list)
  {
    var after := list[p := r];
    forall x ensures x in Ids(after) <==> x in Ids(list) {
      if x in Ids(after) {
        var i :| 0 <= i < |after| && after[i].order.id == x;
        assert list[i] in list && list[i].order.id == x;
      }
      if x in Ids(list) {
        var i :| 0 <= i < |list| && list[i].order.id == x;
        assert after[i] in after && after[i].order.id == x;
      }
    }
  }

  lemma {:induction false} IdsInsert(list: seq<Resting>, p: nat, r: Resting)
    requires p <= |list|
    ensures Ids(InsertAt(list, p, r)) == Ids(list) + {r.order.id}
  {
    var after := InsertAt(list, p, r);
    forall x ensures x in Ids(after) <==> x in Ids(list) || x == r.order.id {
      if x in Ids(after) {
        var i :| 0 <= i < |after| && after[i].order.id == x;
        assert i != p ==> after[i] == list[if i < p then i else i - 1];
      }
      if x in Ids(list) {
        var i :| 0 <= i < |list| && list[i].order.id == x;
        assert after[if i < p then i else i + 1] == list[i];
      }
      assert after[p] == r;
    }
  }

  lemma {:induction false} MatchesApart(list: seq<Resting>, side: Side, m: map<OrderId, R.Reservation>, n: map<OrderId, R.Reservation>, id: OrderId)
    requires Matches(list, side, m) && id !in Ids(list)
    requires forall x :: x in m && x != id ==> x in n && n[x] == m[x]
    ensures Matches(list, side, n)
  {
    forall r | r in list ensures r.order.id in n && n[r.order.id] == R.Reservation(r.order.account, side, r.order.quantity) {
      assert r.order.id in Ids(list);
    }
  }

  lemma {:induction false} MatchesWithout(list: seq<Resting>, p: nat, side: Side, m: map<OrderId, R.Reservation>)
    requires DistinctKeys(list) && p < |list| && Matches(list, side, m)
    ensures Matches(Without(list, p), side, m - {list[p].order.id})
  {
    IdsWithout(list, p);
    forall r | r in Without(list, p) ensures r in list && r.order.id in Ids(Without(list, p)) {
      WithoutMembers(list, p, r);
    }
  }

  lemma {:induction false} MatchesUpdate(list: seq<Resting>, p: nat, side: Side, m: map<OrderId, R.Reservation>, quantity: Quantity)
    requires DistinctKeys(list) && p < |list| && Matches(list, side, m)
    ensures var o := list[p].order;
            Matches(list[p := list[p].(order := o.(quantity := quantity))], side, m[o.id := R.Reservation(o.account, side, quantity)])
  {
    var o := list[p].order;
    var after := list[p := list[p].(order := o.(quantity := quantity))];
    forall r | r in after
      ensures r == after[p] || (r in list && r.order.id != o.id)
    {
      var i :| 0 <= i < |after| && after[i] == r;
    }
  }

  /** What pairing says of one side and of the rest. */
  lemma {:induction false} PairedSide(b: Book, m: map<OrderId, R.Reservation>, extra: set<OrderId>, side: Side)
    ensures Paired(b, m, extra) <==>
            && Matches(Flatten(b.At(side)), side, m) && Matches(Flatten(b.At(side.Opposite())), side.Opposite(), m)
            && m.Keys == Ids(Flatten(b.At(side))) + Ids(Flatten(b.At(side.Opposite()))) + extra
  {
    hide Flatten, Ids, Matches;
  }

  lemma {:induction false} SidesApart(b: Book, side: Side, p: nat)
    requires SoundKeys(b) && p < |Flatten(b.At(side))|
    ensures Flatten(b.At(side))[p].order.id !in Ids(Flatten(b.At(side.Opposite())))
  {
    hide Flatten;
    assert Flatten(b.At(side))[p] in Flatten(b.At(side));
  }

  /** Removing one order and its reservation keeps the rest paired. */
  lemma {:induction false} PairedRemove(b: Book, side: Side, levels: seq<Level>, p: nat, m: map<OrderId, R.Reservation>, extra: set<OrderId>)
    requires SoundKeys(b) && Paired(b, m, extra) && p < |Flatten(b.At(side))|
    requires Flatten(levels) == Without(Flatten(b.At(side)), p)
    requires Flatten(b.At(side))[p].order.id !in extra
    ensures Paired(b.With(side, levels), m - {Flatten(b.At(side))[p].order.id}, extra)
  {
    hide Flatten, Ids, Matches;
    var list, other, id := Flatten(b.At(side)), Flatten(b.At(side.Opposite())), Flatten(b.At(side))[p].order.id;
    SidesApart(b, side, p);
    PairedSide(b, m, extra, side);
    PairedSide(b.With(side, levels), m - {id}, extra, side);
    IdsWithout(list, p);
    MatchesWithout(list, p, side, m);
    MatchesApart(other, side.Opposite(), m, m - {id}, id);
  }

  /** Changing one quantity in book and reservation alike keeps them paired. */
  lemma {:induction false} PairedUpdate(b: Book, side: Side, levels: seq<Level>, p: nat, quantity: Quantity, m: map<OrderId, R.Reservation>, extra: set<OrderId>)
    requires SoundKeys(b) && Paired(b, m, extra) && p < |Flatten(b.At(side))|
    requires var list := Flatten(b.At(side));
             Flatten(levels) == list[p := list[p].(order := list[p].order.(quantity := quantity))]
    ensures var o := Flatten(b.At(side))[p].order;
            Paired(b.With(side, levels), m[o.id := R.Reservation(o.account, side, quantity)], extra)
  {
    hide Flatten, Ids, Matches;
    var list, other := Flatten(b.At(side)), Flatten(b.At(side.Opposite()));
    var o := list[p].order;
    var n := m[o.id := R.Reservation(o.account, side, quantity)];
    SidesApart(b, side, p);
    PairedSide(b, m, extra, side);
    PairedSide(b.With(side, levels), n, extra, side);
    IdsUpdate(list, p, list[p].(order := o.(quantity := quantity)));
    MatchesUpdate(list, p, side, m, quantity);
    MatchesApart(other, side.Opposite(), m, n, o.id);
    IdIn(list, p);
    assert n.Keys == m.Keys;
  }

  lemma {:induction false} IdIn(list: seq<Resting>, p: nat)
    requires p < |list|
    ensures list[p].order.id in Ids(list)
  {
    assert list[p] in list;
  }

  /** Resting an order whose reservation is held turns it from extra into paired. */
  lemma {:induction false} PairedAdd(b: Book, side: Side, price: Price, o: Order, m: map<OrderId, R.Reservation>)
    requires Paired(b, m, {o.id}) && o.id in m && m[o.id] == R.Reservation(o.account, side, o.quantity)
    ensures Paired(b.With(side, AddOrder(side, b.At(side), price, o)), m, {})
  {
    hide Flatten, Ids, Matches, AddOrder;
    var levels := AddOrder(side, b.At(side), price, o);
    var p := Rank(side, b.At(side), price);
    FlattenAdd(side, b.At(side), price, o);
    PairedSide(b, m, {o.id}, side);
    PairedSide(b.With(side, levels), m, {}, side);
    IdsInsert(Flatten(b.At(side)), p, Resting(price, o));
    MatchesInsert(Flatten(b.At(side)), p, Resting(price, o), side, m);
  }

  lemma {:induction false} MatchesInsert(list: seq<Resting>, p: nat, r: Resting, side: Side, m: map<OrderId, R.Reservation>)
    requires p <= |list| && Matches(list, side, m)
    requires r.order.id in m && m[r.order.id] == R.Reservation(r.order.account, side, r.order.quantity)
    ensures Matches(InsertAt(list, p, r), side, m)
  {
  }

  lemma {:induction false} HasIdIds(levels: seq<Level>, id: OrderId)
    ensures HasId(levels, id) <==> id in Ids(Flatten(levels))
  {
    hide Flatten;
  }

  /** A reservation outside `extra` is a resting order of the same owner and quantity. */
  lemma {:induction false} PairedLocates(b: Book, m: map<OrderId, R.Reservation>, extra: set<OrderId>, id: OrderId)
    requires Paired(b, m, extra) && id !in extra
    ensures id in m <==> Locate(b, id).Some?
    ensures id in m ==>
              var p := Locate(b, id).value;
              && InLevels(b.At(p.side), p.level, p.place) && OrderOf(b, p).id == id
              && m[id] == R.Reservation(OrderOf(b, p).account, p.side, OrderOf(b, p).quantity)
  {
    ContainsIffHasId(b, id);
    HasIdIds(b.bids, id);
    HasIdIds(b.asks, id);
    if id in m {
      LocatedIn(b, id);
      hide Flatten, Locate, HasId;
      var p := Locate(b, id).value;
      var levels := b.At(p.side);
      FlattenAt(levels, p.level, p.place);
      assert Flatten(levels)[Offset(levels, p.level) + p.place] in Flatten(levels);
      PairedSide(b, m, extra, p.side);
    }
  }

  // Settling the fills of one order.

  /** `order` still holds `rem`, besides everything that rests. */
  ghost predicate Holding(b: Book, risk: R.RiskState, order: NewOrder, rem: Quantity) {
    && Paired(b, risk.reservations, if rem > 0 then {order.orderId} else {})
    && (rem > 0 ==> order.orderId in risk.reservations
                    && risk.reservations[order.orderId] == R.Reservation(order.accountId, order.side, rem))
  }

  /** The taker trades `traded` with the head maker. */
  predicate HeadTrade(b: Book, order: NewOrder, rem: Quantity, head: Order, traded: Quantity) {
    && InLevels(b.At(order.side.Opposite()), 0, 0) && head == b.At(order.side.Opposite())[0].orders[0]
    && 0 < traded == Min(rem, head.quantity)
  }

  /** The book after that trade is held by `risk`. */
  ghost predicate HoldingAfter(b: Book, risk: R.RiskState, order: NewOrder, rem: Quantity, traded: Quantity)
  {
    var maker := order.side.Opposite();
    && InLevels(b.At(maker), 0, 0) && traded <= b.At(maker)[0].orders[0].quantity && traded <= rem
    && Holding(b.With(maker, FillHead(b.At(maker), traded)), risk, order, rem - traded)
  }

  /** One fill against the head maker: both risk updates succeed and match the book. */
  lemma {:induction false} FillSettles(cfg: Config, b: Book, risk: R.RiskState, order: NewOrder, rem: Quantity, head: Order, traded: Quantity)
    returns (made: R.RiskState, taken: R.RiskState)
    requires HeadTrade(b, order, rem, head, traded)
    requires R.SoundRisk(risk, cfg.risk) && Holding(b, risk, order, rem)
    requires SoundKeys(b) && !HasId(b.bids, order.orderId) && !HasId(b.asks, order.orderId)
    ensures R.RecordFill(risk, head.id, traded) == Ok(made) && R.RecordFill(made, order.orderId, traded) == Ok(taken)
    ensures R.SoundRisk(taken, cfg.risk) && taken.maximum == risk.maximum
    ensures HoldingAfter(b, taken, order, rem, traded)
    ensures R.NetPosition(taken.accounts) == R.NetPosition(risk.accounts)
  {
    hide R.SoundRisk, R.RecordFill, R.NetPosition, Flatten, FillHead, HasId, Ids, Matches, Paired, SoundKeys;
    HeadReserved(b, risk, order, order.side.Opposite());
    made, taken := BothFill(cfg, risk, head.id, order.orderId, traded);
    FillPairs(b, risk.reservations, order, rem, traded);
  }

  lemma {:induction false} HeadStocked(b: Book, side: Side)
    requires StockedBook(b) && InLevels(b.At(side), 0, 0)
    ensures b.At(side)[0].orders[0].quantity > 0
  {
    assert StockedLevel(b.At(side)[0]);
  }

  /** A fill within both reservations settles on both sides and moves no net position. */
  lemma {:induction false} BothFill(cfg: Config, risk: R.RiskState, maker: OrderId, taker: OrderId, traded: Quantity)
    returns (made: R.RiskState, taken: R.RiskState)
    requires R.SoundRisk(risk, cfg.risk) && maker != taker && traded > 0
    requires maker in risk.reservations && traded <= risk.reservations[maker].quantity
    requires taker in risk.reservations && traded <= risk.reservations[taker].quantity
    requires risk.reservations[maker].side != risk.reservations[taker].side
    ensures R.RecordFill(risk, maker, traded) == Ok(made) && R.RecordFill(made, taker, traded) == Ok(taken)
    ensures R.SoundRisk(taken, cfg.risk) && taken.maximum == risk.maximum
    ensures taker in Filled(risk.reservations, maker, traded)
    ensures traded <= Filled(risk.reservations, maker, traded)[taker].quantity
    ensures taken.reservations == Filled(Filled(risk.reservations, maker, traded), taker, traded)
    ensures R.NetPosition(taken.accounts) == R.NetPosition(risk.accounts)
  {
    hide R.SoundRisk, R.RecordFill, R.NetPosition;
    R.RecordFillSound(risk, maker, traded, cfg.risk);
    made := R.RecordFill(risk, maker, traded).value;
    R.RecordFillSound(made, taker, traded, cfg.risk);
    taken := R.RecordFill(made, taker, traded).value;
    R.FillMovesPosition(risk, maker, traded);
    R.FillMovesPosition(made, taker, traded);
    FillKeepsMaximum(risk, maker, traded);
    FillKeepsMaximum(made, taker, traded);
  }

  lemma {:induction false} FillKeepsMaximum(s: R.RiskState, id: OrderId, filled: Quantity)
    requires R.RecordFill(s, id, filled).Ok?
    ensures R.RecordFill(s, id, filled).value.maximum == s.maximum && R.RecordFill(s, id, filled).value.killed == s.killed
  {
  }

  lemma {:induction false} HeadReserved(b: Book, risk: R.RiskState, order: NewOrder, side: Side)
    requires InLevels(b.At(side), 0, 0) && Paired(b, risk.reservations, {order.orderId})
    requires !HasId(b.bids, order.orderId) && !HasId(b.asks, order.orderId)
    ensures var head := b.At(side)[0].orders[0];
            && head.id in risk.reservations && head.id != order.orderId
            && risk.reservations[head.id] == R.Reservation(head.account, side, head.quantity)
  {
    FlattenAt(b.At(side), 0, 0);
    hide Flatten;
    PairedSide(b, risk.reservations, {order.orderId}, side);
    assert Flatten(b.At(side))[0] in Flatten(b.At(side));
  }

  /** The reservations after one quantity is filled. */
  function Filled(m: map<OrderId, R.Reservation>, id: OrderId, traded: Quantity): map<OrderId, R.Reservation>
    requires id in m && traded <= m[id].quantity
  {
    if traded == m[id].quantity then m - {id} else m[id := m[id].(quantity := m[id].quantity - traded)]
  }

  lemma {:induction false} FillPairs(b: Book, m: map<OrderId, R.Reservation>, order: NewOrder, rem: Quantity, traded: Quantity)
    requires SoundKeys(b) && Paired(b, m, {order.orderId}) && InLevels(b.At(order.side.Opposite()), 0, 0)
    requires !HasId(b.bids, order.orderId) && !HasId(b.asks, order.orderId)
    requires order.orderId in m && m[order.orderId] == R.Reservation(order.accountId, order.side, rem)
    requires var head := b.At(order.side.Opposite())[0].orders[0];
             && head.id in m && head.id != order.orderId && m[head.id] == R.Reservation(head.account, order.side.Opposite(), head.quantity)
             && 0 < traded == Min(rem, head.quantity)
    ensures var makers := b.At(order.side.Opposite());
            var made := Filled(m, makers[0].orders[0].id, traded);
            && order.orderId in made && made[order.orderId].quantity == rem
            && var n := Filled(made, order.orderId, traded);
            && Paired(b.With(order.side.Opposite(), FillHead(makers, traded)), n, if rem > traded then {order.orderId} else {})
            && (rem > traded ==> order.orderId in n && n[order.orderId] == R.Reservation(order.accountId, order.side, rem - traded))
  {
    hide Flatten, HasId, Ids, Matches, Paired, RemoveOrder, SetOrder, SoundKeys;
    var side := order.side.Opposite();
    var makers := b.At(side);
    var head := makers[0].orders[0];
    FlattenAt(makers, 0, 0);
    if traded == head.quantity {
      FlattenRemove(makers, 0, 0);
      PairedRemove(b, side, FillHead(makers, traded), 0, m, {order.orderId});
    } else {
      var left := head.(quantity := head.quantity - traded);
      FlattenSet(makers, 0, 0, left);
      PairedUpdate(b, side, FillHead(makers, traded), 0, head.quantity - traded, m, {order.orderId});
    }
    hide FillHead;
    var c := b.With(side, FillHead(makers, traded));
    FillHeadIdsGone(b, side, traded, order.orderId);
    ExtraFilled(c, Filled(m, head.id, traded), order.orderId, traded);
  }

  lemma {:induction false} FillHeadIdsGone(b: Book, side: Side, traded: Quantity, id: OrderId)
    requires InLevels(b.At(side), 0, 0) && traded <= b.At(side)[0].orders[0].quantity
    requires !HasId(b.bids, id) && !HasId(b.asks, id)
    ensures var c := b.With(side, FillHead(b.At(side), traded)); !HasId(c.bids, id) && !HasId(c.asks, id)
  {
    hide HasId, FillHead;
    if HasId(FillHead(b.At(side), traded), id) {
      FillHeadIds(b.At(side), traded, id);
    }
  }

  /** Filling the taker's own reservation touches no resting order. */
  lemma {:induction false} ExtraFilled(b: Book, m: map<OrderId, R.Reservation>, id: OrderId, traded: Quantity)
    requires Paired(b, m, {id}) && !HasId(b.bids, id) && !HasId(b.asks, id) && id in m && traded <= m[id].quantity
    ensures Paired(b, Filled(m, id, traded), if traded < m[id].quantity then {id} else {})
  {
    HasIdIds(b.bids, id);
    HasIdIds(b.asks, id);
    hide Flatten, HasId, Ids, Matches;
    MatchesApart(Flatten(b.bids), Buy, m, Filled(m, id, traded), id);
    MatchesApart(Flatten(b.asks), Sell, m, Filled(m, id, traded), id);
  }

  /** All fills of one match settle without error, and book and reservations agree after. */
  lemma {:induction false} MatchSettles(cfg: Config, b: Book, risk: R.RiskState, order: NewOrder, rem: Quantity)
    requires R.SoundRisk(risk, cfg.risk) && Holding(b, risk, order, rem)
    requires SoundKeys(b) && StockedBook(b)
    requires !HasId(b.bids, order.orderId) && !HasId(b.asks, order.orderId)
    ensures var maker := order.side.Opposite();
            var m := Match(order.side, order.price, b.At(maker), rem);
            var (after, failed) := SettleReports(risk, ReportsOf(order, m.fills));
            && failed.None? && R.SoundRisk(after, cfg.risk)
            && Holding(b.With(maker, m.makers), after, order, m.remaining)
            && R.NetPosition(after.accounts) == R.NetPosition(risk.accounts) && after.maximum == risk.maximum
    decreases rem
  {
    hide R.SoundRisk, R.RecordFill, Holding, HasId, FillHead, SoundKeys, ReportsOf;
    var maker := order.side.Opposite();
    var makers := b.At(maker);
    if rem == 0 || makers == [] || !Crosses(order.side, order.price, makers[0].price) {
      assert ReportsOf(order, []) == [];
      assert b.With(maker, makers) == b;
    } else {
      assert StockedLevel(makers[0]);
      var head := makers[0].orders[0];
      var traded := Min(rem, head.quantity);
      FillHeadStocked(makers, traded);
      HeadStocked(b, maker);
      var made, taken := FillSettles(cfg, b, risk, order, rem, head, traded);
      var c := b.With(maker, FillHead(makers, traded));
      FillHeadNarrower(makers, traded);
      NarrowSide(b, maker, FillHead(makers, traded));
      FillHeadIdsGone(b, maker, traded, order.orderId);
      MatchSettles(cfg, c, taken, order, rem - traded);
      ReportsCons(order, Fill(head.id, makers[0].price, traded), Match(order.side, order.price, FillHead(makers, traded), rem - traded).fills);
    }
  }

  lemma {:induction false} ReportsCons(order: NewOrder, f: Fill, rest: seq<Fill>)
    ensures ReportsOf(order, [f] + rest) == [ReportOf(order, f)] + ReportsOf(order, rest)
    ensures ReportsOf(order, [f] + rest) != [] && ReportsOf(order, [f] + rest)[0] == ReportOf(order, f)
    ensures ReportsOf(order, [f] + rest)[1..] == ReportsOf(order, rest)
  {
    assert ([ReportOf(order, f)] + ReportsOf(order, rest))[1..] == ReportsOf(order, rest);
  }
}
