/** What matching promises a trader: best price first, oldest first within a price,
    each maker exhausted before the next, and no quantity created or lost. */
module PriceTime {
  import opened Types
  import opened PriceLevels
  import opened BookSpec
  import opened Priority
  import opened BookLaws

  predicate Full(list: seq<Resting>, fills: seq<Fill>, k: nat)
    requires k < |fills| <= |list|
  {
    fills[k].quantity == list[k].order.quantity
  }

  /** Price-time execution of a taker against a priority list, as a rulebook states it. */
  ghost predicate PriceTimeFills(taker: Side, limit: Price, list: seq<Resting>, quantity: Quantity, fills: seq<Fill>) {
    && |fills| <= |list| && Traded(fills) <= quantity
    // Fill k trades with the k-th order in priority, at that order's price, within the limit.
    && (forall k :: 0 <= k < |fills| ==>
          && fills[k].maker == list[k].order.id && fills[k].price == list[k].price
          && Crosses(taker, limit, list[k].price) && 0 < fills[k].quantity <= list[k].order.quantity)
    // Nobody is passed over: only the last maker may be left with a remainder.
    && (forall k :: 0 <= k < |fills| - 1 ==> Full(list, fills, k))
    // The taker stops early only when nobody crossing is left.
    && (Traded(fills) < quantity ==>
          && (forall k :: 0 <= k < |fills| ==> Full(list, fills, k))
          && (|fills| < |list| ==> !Crosses(taker, limit, list[|fills|].price)))
  }

  predicate Positive(list: seq<Resting>) {
    forall k :: 0 <= k < |list| ==> list[k].order.quantity > 0
  }

  lemma {:induction false} TradedAppend(fills: seq<Fill>, f: Fill)
    ensures Traded([f] + fills) == f.quantity + Traded(fills)
  {
    assert ([f] + fills)[1..] == fills;
  }

  lemma {:induction false} TradedMember(fills: seq<Fill>, k: nat)
    requires k < |fills|
    ensures fills[k].quantity <= Traded(fills)
  {
    if k > 0 {
      TradedMember(fills[1..], k - 1);
    }
  }

  lemma {:induction false} TradesKeepRules(taker: Side, limit: Price, list: seq<Resting>, quantity: Quantity)
    requires Positive(list)
    ensures PriceTimeFills(taker, limit, list, quantity, Trades(taker, limit, list, quantity))
  {
    hide PriceTimeFills;
    var fills := Trades(taker, limit, list, quantity);
    if quantity > 0 && list != [] && Crosses(taker, limit, list[0].price) {
      var traded := Min(quantity, list[0].order.quantity);
      var rest := Trades(taker, limit, list[1..], quantity - traded);
      TradesKeepRules(taker, limit, list[1..], quantity - traded);
      assert fills == [fills[0]] + rest;
      RestIsOpen(taker, limit, list[1..], quantity - traded, rest);
      RulesCons(taker, limit, list, quantity, fills[0], rest);
    } else {
      NothingToTrade(taker, limit, list, quantity);
    }
  }

  lemma {:induction false} NothingToTrade(taker: Side, limit: Price, list: seq<Resting>, quantity: Quantity)
    requires quantity == 0 || list == [] || !Crosses(taker, limit, list[0].price)
    ensures PriceTimeFills(taker, limit, list, quantity, [])
  {
  }

  /** Fills trade something, so there was something left to trade. */
  lemma {:induction false} RestIsOpen(taker: Side, limit: Price, list: seq<Resting>, quantity: Quantity, fills: seq<Fill>)
    requires PriceTimeFills(taker, limit, list, quantity, fills)
    ensures fills != [] ==> 0 < quantity
  {
    if |fills| > 0 {
      TradedMember(fills, 0);
    }
  }

  lemma {:induction false} RulesCons(taker: Side, limit: Price, list: seq<Resting>, quantity: Quantity, f: Fill, rest: seq<Fill>)
    requires Positive(list) && list != [] && quantity > 0 && Crosses(taker, limit, list[0].price)
    requires f == Fill(list[0].order.id, list[0].price, Min(quantity, list[0].order.quantity))
    requires PriceTimeFills(taker, limit, list[1..], quantity - f.quantity, rest)
    requires |rest| > 0 ==> 0 < quantity - f.quantity
    ensures PriceTimeFills(taker, limit, list, quantity, [f] + rest)
  {
    var fills := [f] + rest;
    TradedAppend(rest, f);
    forall k | 0 <= k < |fills|
      ensures fills[k].maker == list[k].order.id && fills[k].price == list[k].price
              && Crosses(taker, limit, list[k].price) && 0 < fills[k].quantity <= list[k].order.quantity
    {
      if k > 0 {
        assert fills[k] == rest[k - 1] && list[k] == list[1..][k - 1];
      }
    }
    forall k | 0 <= k < |fills| - 1 ensures Full(list, fills, k) {
      if k > 0 {
        assert Full(list[1..], rest, k - 1);
      }
    }
    if Traded(fills) < quantity {
      forall k | 0 <= k < |fills| ensures Full(list, fills, k) {
        if k > 0 {
          assert Full(list[1..], rest, k - 1);
        }
      }
    }
  }

  /** The rules leave one execution only, and it is the one the book performs. */
  lemma {:induction false} RulesFixTrades(taker: Side, limit: Price, list: seq<Resting>, quantity: Quantity, fills: seq<Fill>)
    requires Positive(list) && PriceTimeFills(taker, limit, list, quantity, fills)
    ensures fills == Trades(taker, limit, list, quantity)
    decreases |list|
  {
    hide PriceTimeFills, Traded, Positive, Trades, Crosses;
    if |fills| == 0 {
      NoFills(taker, limit, list, quantity, fills);
    } else {
      FirstFill(taker, limit, list, quantity, fills);
      RulesTail(taker, limit, list, quantity, fills);
      PositiveTail(list);
      TradesFirst(taker, limit, list, quantity);
      RulesFixTrades(taker, limit, list[1..], quantity - fills[0].quantity, fills[1..]);
      assert fills == [fills[0]] + fills[1..];
    }
  }

  /** No fills at all means nobody crossing, or nothing to trade. */
  lemma {:induction false} NoFills(taker: Side, limit: Price, list: seq<Resting>, quantity: Quantity, fills: seq<Fill>)
    requires PriceTimeFills(taker, limit, list, quantity, fills) && fills == []
    ensures Trades(taker, limit, list, quantity) == []
  {
  }

  lemma {:induction false} TradesFirst(taker: Side, limit: Price, list: seq<Resting>, quantity: Quantity)
    requires quantity > 0 && list != [] && Crosses(taker, limit, list[0].price)
    ensures var traded := Min(quantity, list[0].order.quantity);
            Trades(taker, limit, list, quantity)
            == [Fill(list[0].order.id, list[0].price, traded)] + Trades(taker, limit, list[1..], quantity - traded)
  {
  }

  lemma {:induction false} PositiveTail(list: seq<Resting>)
    requires Positive(list) && list != []
    ensures Positive(list[1..])
  {
  }

  /** The first fill takes all it can from the first maker. */
  lemma {:induction false} FirstFill(taker: Side, limit: Price, list: seq<Resting>, quantity: Quantity, fills: seq<Fill>)
    requires Positive(list) && PriceTimeFills(taker, limit, list, quantity, fills) && |fills| > 0
    ensures list != [] && quantity > 0 && Crosses(taker, limit, list[0].price)
    ensures fills[0] == Fill(list[0].order.id, list[0].price, Min(quantity, list[0].order.quantity))
    ensures Traded(fills) == fills[0].quantity + Traded(fills[1..])
  {
    TradedMember(fills, 0);
    if |fills| > 1 {
      assert Full(list, fills, 0);
      TradedMember(fills[1..], 0);
      assert fills[1..][0] == fills[1];
    } else if fills[0].quantity < quantity {
      assert Traded(fills) == fills[0].quantity;
      assert Full(list, fills, 0);
    }
  }

  lemma {:induction false} RulesTail(taker: Side, limit: Price, list: seq<Resting>, quantity: Quantity, fills: seq<Fill>)
    requires Positive(list) && PriceTimeFills(taker, limit, list, quantity, fills) && |fills| > 0
    requires fills[0].quantity <= quantity && Traded(fills) == fills[0].quantity + Traded(fills[1..])
    ensures PriceTimeFills(taker, limit, list[1..], quantity - fills[0].quantity, fills[1..])
  {
    var rest := fills[1..];
    forall k | 0 <= k < |rest| - 1 ensures Full(list[1..], rest, k) {
      assert Full(list, fills, k + 1);
    }
    if Traded(rest) < quantity - fills[0].quantity {
      forall k | 0 <= k < |rest| ensures Full(list[1..], rest, k) {
        assert Full(list, fills, k + 1);
      }
    }
  }

  lemma {:induction false} StockedPositive(levels: seq<Level>)
    requires Stocked(levels)
    ensures Positive(Flatten(levels))
  {
    forall k | 0 <= k < |Flatten(levels)| ensures Flatten(levels)[k].order.quantity > 0 {
      var i, j := FlattenIndex(levels, k);
      FlattenAt(levels, i, j);
      assert StockedLevel(levels[i]);
    }
  }

  /** A fill sequence is the book's if and only if it obeys price-time priority. */
  lemma {:induction false} MatchIsPriceTime(taker: Side, limit: Price, makers: seq<Level>, quantity: Quantity, fills: seq<Fill>)
    requires Stocked(makers)
    ensures fills == Match(taker, limit, makers, quantity).fills <==>
            PriceTimeFills(taker, limit, Flatten(makers), quantity, fills)
  {
    hide Flatten, Match, PriceTimeFills, Stocked;
    StockedPositive(makers);
    MatchIsWalk(taker, limit, makers, quantity);
    TradesKeepRules(taker, limit, Flatten(makers), quantity);
    if PriceTimeFills(taker, limit, Flatten(makers), quantity, fills) {
      RulesFixTrades(taker, limit, Flatten(makers), quantity, fills);
    }
  }

  // Conservation.

  function Volume(list: seq<Resting>): nat {
    if list == [] then 0 else list[0].order.quantity + Volume(list[1..])
  }

  lemma {:induction false} VolumeWithout(list: seq<Resting>, p: nat)
    requires p < |list|
    ensures Volume(Without(list, p)) == Volume(list) - list[p].order.quantity
  {
    if p == 0 {
      assert Without(list, 0) == list[1..];
    } else {
      VolumeWithout(list[1..], p - 1);
      assert Without(list, p)[0] == list[0];
      assert Without(list, p)[1..] == Without(list[1..], p - 1);
    }
  }

  lemma {:induction false} VolumeUpdate(list: seq<Resting>, p: nat, r: Resting)
    requires p < |list|
    ensures Volume(list[p := r]) == Volume(list) - list[p].order.quantity + r.order.quantity
  {
    var t := list[p := r];
    if p == 0 {
      assert t[1..] == list[1..];
    } else {
      VolumeUpdate(list[1..], p - 1, r);
      assert t[0] == list[0] && t[1..] == list[1..][p - 1 := r];
    }
  }

  lemma {:induction false} VolumeInsert(list: seq<Resting>, p: nat, r: Resting)
    requires p <= |list|
    ensures Volume(InsertAt(list, p, r)) == Volume(list) + r.order.quantity
  {
    var t := InsertAt(list, p, r);
    if p == 0 {
      assert t[1..] == list;
    } else {
      VolumeInsert(list[1..], p - 1, r);
      assert t[0] == list[0] && t[1..] == InsertAt(list[1..], p - 1, r);
    }
  }

  function Depth(levels: seq<Level>): nat {
    Volume(Flatten(levels))
  }

  lemma {:induction false} FillHeadDepth(levels: seq<Level>, quantity: Quantity)
    requires InLevels(levels, 0, 0) && quantity <= levels[0].orders[0].quantity
    ensures Depth(FillHead(levels, quantity)) == Depth(levels) - quantity
  {
    hide Flatten, RemoveOrder, SetOrder, Volume;
    var head := levels[0].orders[0];
    FlattenAt(levels, 0, 0);
    if quantity == head.quantity {
      FlattenRemove(levels, 0, 0);
      VolumeWithout(Flatten(levels), 0);
    } else {
      FlattenSet(levels, 0, 0, head.(quantity := head.quantity - quantity));
      VolumeUpdate(Flatten(levels), 0, Resting(levels[0].price, head.(quantity := head.quantity - quantity)));
    }
  }

  lemma {:induction false} MatchDepth(taker: Side, limit: Price, makers: seq<Level>, quantity: Quantity)
    requires Stocked(makers)
    ensures var m := Match(taker, limit, makers, quantity);
            && Depth(m.makers) == Depth(makers) - Traded(m.fills) && Traded(m.fills) + m.remaining == quantity
    decreases quantity
  {
    hide Depth, FillHead;
    if quantity != 0 && makers != [] && Crosses(taker, limit, makers[0].price) {
      assert StockedLevel(makers[0]);
      var traded := Min(quantity, makers[0].orders[0].quantity);
      FillHeadStocked(makers, traded);
      FillHeadDepth(makers, traded);
      MatchDepth(taker, limit, FillHead(makers, traded), quantity - traded);
      var rest := Match(taker, limit, FillHead(makers, traded), quantity - traded);
      TradedAppend(rest.fills, Fill(makers[0].orders[0].id, makers[0].price, traded));
    }
  }

  lemma {:induction false} AddDepth(side: Side, levels: seq<Level>, price: Price, order: Order)
    ensures Depth(AddOrder(side, levels, price, order)) == Depth(levels) + order.quantity
  {
    hide Flatten, AddOrder, Volume;
    FlattenAdd(side, levels, price, order);
    VolumeInsert(Flatten(levels), Rank(side, levels, price), Resting(price, order));
  }

  /** Conservation of one accepted order: filled, resting and discarded add up to its
      quantity, the fills add up to filled, the makers lose exactly what was filled
      and the own side gains exactly what rests. */
  lemma {:induction false} SubmitConserves(b: Book, shape: Shape, instrument: InstrumentId, order: NewOrder, room: nat)
    requires Stocked(b.bids) && Stocked(b.asks)
    requires SubmitOrder(b, shape, instrument, order, room).Ok?
    ensures var done := SubmitOrder(b, shape, instrument, order, room).value;
            var s := done.summary;
            var maker := order.side.Opposite();
            && s.filled + s.resting + s.discarded == order.quantity
            && Traded(done.fills) == s.filled && |done.fills| == s.reportCount <= room
            && Depth(done.book.At(maker)) == Depth(b.At(maker)) - s.filled
            && Depth(done.book.At(order.side)) == Depth(b.At(order.side)) + s.resting
            && (s.discarded > 0 ==> order.tif == Ioc) && (order.tif == Fok ==> s.filled == order.quantity)
  {
    hide SubmitOrder, Match, AddOrder, Depth, Validate, RestRejection, Stocked;
    var maker := order.side.Opposite();
    var m := Match(order.side, order.price, b.At(maker), order.quantity);
    AcceptedShape(b, shape, instrument, order, room);
    MatchDepth(order.side, order.price, b.At(maker), order.quantity);
    if m.remaining > 0 && Rests(order.tif) {
      AddDepth(order.side, b.At(order.side), order.price, Order(order.orderId, order.accountId, m.remaining, order.sequence));
    }
  }
}
