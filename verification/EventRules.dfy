/** What a published batch says, field by field, of the command, its answer and the lists
    before and after it. */
module EventRules {
  import opened Types
  import opened BookSpec
  import opened BookRules
  import opened Priority
  import opened PriceTime
  import opened GatewaySpec
  import opened GatewayLaws
  import opened GatewayRuns
  import opened GatewayRules
  import opened Events
  import D = Decisions
  import P = PriceLevels
  import R = RiskSpec
  import K = RiskRules

  // The terminal event.

  predicate IdentifiedAs(e: Event, orderId: OrderId, account: AccountId, instrument: InstrumentId)
    requires e.Terminal()
  {
    e.orderId == orderId && e.account == account && e.instrument == instrument
  }

  predicate RejectionTold(c: Command, reason: RejectReason, e: Event) {
    && e.RejectedEvent? && e.reason == reason
    && match c
       case New(o) => e.kind == NewKind && IdentifiedAs(e, o.orderId, o.accountId, o.instrument)
       case Cancel(x) => e.kind == CancelKind && IdentifiedAs(e, x.orderId, x.accountId, x.instrument)
       case Replace(r) => e.kind == ReplaceKind && IdentifiedAs(e, r.orderId, r.accountId, r.instrument)
  }

  /** The first event carries the answer: every field of an outcome, or the reason. */
  predicate TerminalTold(c: Command, result: Result<GatewayOutcome, GatewayError>, e: Event) {
    && e.id.sequence == c.SequenceOf() && e.id.ordinal == 0
    && match (c, result)
       case (New(o), Ok(Accepted(s))) =>
         && e.AcceptedEvent? && IdentifiedAs(e, o.orderId, o.accountId, o.instrument)
         && e.state == s.state && e.filled == s.filled && e.resting == s.resting && e.discarded == s.discarded
       case (Cancel(x), Ok(Cancelled(a))) =>
         e.CancelledEvent? && IdentifiedAs(e, x.orderId, x.accountId, x.instrument) && e.quantity == a.quantity
       case (Replace(r), Ok(Replaced(a))) =>
         && e.ReplacedEvent? && IdentifiedAs(e, r.orderId, r.accountId, r.instrument)
         && e.oldQuantity == a.oldQuantity && e.newQuantity == r.quantity && e.price == r.price
         && (e.priorityLost <==> a.priorityLost)
       case (_, Err(RiskRefused(reason))) => RejectionTold(c, reason, e)
       case (_, Err(BookRefused(reason))) => RejectionTold(c, reason, e)
       case _ => false
  }

  // The trades.

  /** Event `k + 1` tells the `k`-th reached order of the list the command traded against. */
  ghost predicate TradesTold(order: NewOrder, facing: seq<Resting>, n: nat, batch: seq<Event>) {
    && n < |batch| && n <= |facing|
    && (forall k: nat :: k < n <==> Reached(order.side, order.price, order.quantity, facing, k))
    && forall k :: 0 <= k < n ==>
         var e := batch[k + 1];
         && e.TradeEvent? && e.id.sequence == order.sequence && e.id.ordinal == k + 1
         && e.maker == facing[k].order.id && e.taker == order.orderId && e.instrument == order.instrument
         && e.price == facing[k].price && Volume(facing[..k]) <= order.quantity
         && e.quantity == Lesser(facing[k].order.quantity, order.quantity - Volume(facing[..k]))
  }

  // The top of book.

  function VolumeAt(list: seq<Resting>, price: Price): nat {
    if list == [] then 0 else (if list[0].price == price then list[0].order.quantity else 0) + VolumeAt(list[1..], price)
  }

  /** The first price of a list, all that rests there, and in how many orders. */
  function Best(list: seq<Resting>): Option<(Price, nat, nat)> {
    if list == [] then None else Some((list[0].price, VolumeAt(list, list[0].price), CountAt(list, list[0].price)))
  }

  predicate Shows(top: Option<TopLevel>, list: seq<Resting>) {
    match Best(list)
    case None => top.None?
    case Some(b) => top.Some? && top.value.price == b.0 && top.value.aggregate == b.1 && top.value.count == b.2
  }

  predicate BestMoved(before: Book, after: Book) {
    Best(Own(before, Buy)) != Best(Own(after, Buy)) || Best(Own(before, Sell)) != Best(Own(after, Sell))
  }

  /** Behind `n` trades there is a top of book exactly when a best level moved, and it shows
      both sides as they are after the command. */
  predicate TopTold(before: Book, after: Book, c: Command, n: nat, batch: seq<Event>) {
    if BestMoved(before, after) then
      && |batch| == n + 2
      && var e := batch[n + 1];
      && e.TopEvent? && e.id.sequence == c.SequenceOf() && e.id.ordinal == n + 1 && e.instrument == c.InstrumentOf()
      && Shows(e.bid, Own(after, Buy)) && Shows(e.ask, Own(after, Sell))
    else |batch| == n + 1
  }

  lemma {:induction false} VolumeAppend(a: seq<Resting>, b: seq<Resting>, price: Price)
    ensures VolumeAt(a + b, price) == VolumeAt(a, price) + VolumeAt(b, price)
  {
    if a == [] {
      assert a + b == b;
    } else {
      VolumeAppend(a[1..], b, price);
      assert (a + b)[1..] == a[1..] + b;
    }
  }

  lemma {:induction false} LevelVolume(price: Price, orders: seq<P.Order>)
    ensures VolumeAt(AtPrice(price, orders), price) == P.TotalQuantity(orders)
  {
    if orders != [] {
      LevelVolume(price, orders[1..]);
      assert AtPrice(price, orders)[1..] == AtPrice(price, orders[1..]);
    }
  }

  lemma {:induction false} ElsewhereVolume(levels: seq<Level>, price: Price)
    requires forall i :: 0 <= i < |levels| ==> levels[i].price != price
    ensures VolumeAt(Flatten(levels), price) == 0
  {
    if levels != [] {
      ElsewhereVolume(levels[1..], price);
      OtherPrice(levels[0].price, levels[0].orders, price);
      VolumeAppend(AtPrice(levels[0].price, levels[0].orders), Flatten(levels[1..]), price);
    }
  }

  lemma {:induction false} OtherPrice(level: Price, orders: seq<P.Order>, price: Price)
    requires level != price
    ensures VolumeAt(AtPrice(level, orders), price) == 0
  {
    if orders != [] {
      OtherPrice(level, orders[1..], price);
      assert AtPrice(level, orders)[1..] == AtPrice(level, orders[1..]);
    }
  }

  /** The best level shows the first price with its volume and number of orders. */
  lemma {:induction false} TopShows(side: Side, levels: seq<Level>)
    requires Sorted(side, levels) && Stocked(levels)
    ensures Shows(TopOf(levels), Flatten(levels))
  {
    if levels != [] {
      assert StockedLevel(levels[0]);
      FlattenAt(levels, 0, 0);
      var price := levels[0].price;
      SortedTail(side, levels);
      VolumeAppend(AtPrice(price, levels[0].orders), Flatten(levels[1..]), price);
      LevelVolume(price, levels[0].orders);
      ElsewhereVolume(levels[1..], price);
      hide VolumeAt, Flatten, CountAt, Place, P.TotalQuantity;
      CountIs(side, levels, price);
      PlaceOf(side, levels, 0);
      FlattenSplit(levels, levels[0], levels[1..]);
      assert levels == [levels[0]] + levels[1..];
    } else {
      NothingListed(levels);
    }
  }

  lemma {:induction false} SameShown(a: Option<TopLevel>, b: Option<TopLevel>, x: seq<Resting>, y: seq<Resting>)
    requires Shows(a, x) && Shows(b, y)
    ensures a == b <==> Best(x) == Best(y)
  {
    hide VolumeAt, CountAt;
  }

  /** Both tops of a book are those of its lists. */
  lemma {:induction false} TopsShow(b: Book, shape: Shape)
    requires Shaped(b, shape)
    ensures Shows(TopsOf(b).bid, Own(b, Buy)) && Shows(TopsOf(b).ask, Own(b, Sell))
  {
    hide Flatten, Shows, TopOf, Stocked, Sorted;
    ShapedSides(b, shape, Buy);
    TopShows(Buy, b.bids);
    TopShows(Sell, b.asks);
  }

  // The whole batch.

  /** A batch told field by field. */
  ghost predicate Told(before: Book, c: Command, s: Step, batch: seq<Event>) {
    && |s.reports| < |batch|
    && TerminalTold(c, s.result, batch[0])
    && (c.New? && s.result.Ok? ==> TradesTold(c.order, Facing(before, c.order.side), |s.reports|, batch))
    && (!c.New? || s.result.Err? ==> s.reports == [])
    && TopTold(before, s.state.book, c, |s.reports|, batch)
  }

  lemma {:induction false} AnswerKind(cfg: Config, g: GatewayState, c: Command, room: nat)
    requires SoundGateway(cfg, g)
    ensures StockedBook(g.book)
    ensures var s := Process(cfg, g, c, room);
            s.result.Ok? ==>
              && (c.New? ==> s.result.value.Accepted? && ReportsReached(c.order, Facing(g.book, c.order.side), s.reports))
              && (c.Cancel? ==> s.result.value.Cancelled? && s.reports == []
                                && s.result.value.cancelled.orderId == c.cancel.orderId && s.result.value.cancelled.accountId == c.cancel.accountId)
              && (c.Replace? ==> s.result.value.Replaced? && s.reports == []
                                 && var a := s.result.value.replaced;
                                    a.orderId == c.replace.orderId && a.accountId == c.replace.accountId
                                    && a.newQuantity == c.replace.quantity && a.price == c.replace.price)
  {
    hide SoundGateway, Process, Reached, ReportsReached, Volume, Shifted, Leftover, AddsUp, RestsLast, MeetingVolume, Queued, K.Discharged, K.Adjusts, Own, Facing, PlaceHeld, Known, D.AllHold, D.Verdict;
    match c
    case New(order) => NewEffect(cfg, g, order, room);
    case Cancel(cancel) => GatewayCancelDecided(cfg, g, cancel, room);
    case Replace(replace) => GatewayReplaceDecided(cfg, g, replace, room);
  }

  lemma {:induction false} TerminalIs(c: Command, s: Step, batch: seq<Event>, before: Tops, after: Tops)
    requires |s.reports| <= MAX_REPORTS
    requires Publication(IdentityOf(c), c.SequenceOf(), before, after, s.reports, s.result) == Ok(batch)
    requires s.result.Ok? ==>
               && (c.New? ==> s.result.value.Accepted?)
               && (c.Cancel? ==> s.result.value.Cancelled? && s.result.value.cancelled.orderId == c.cancel.orderId && s.result.value.cancelled.accountId == c.cancel.accountId)
               && (c.Replace? ==> s.result.value.Replaced?
                                  && var a := s.result.value.replaced;
                                     a.orderId == c.replace.orderId && a.accountId == c.replace.accountId
                                     && a.newQuantity == c.replace.quantity && a.price == c.replace.price)
    ensures batch != [] && TerminalTold(c, s.result, batch[0])
  {
    hide TradeEvents;
  }

  lemma {:induction false} TradesAreTold(order: NewOrder, facing: seq<Resting>, s: Step, batch: seq<Event>, before: Tops, after: Tops)
    requires |s.reports| <= MAX_REPORTS && s.result.Ok? && ReportsReached(order, facing, s.reports)
    requires Publication(IdentityOf(New(order)), order.sequence, before, after, s.reports, s.result) == Ok(batch)
    ensures TradesTold(order, facing, |s.reports|, batch)
  {
    hide Reached, Volume, TradeEvents, TerminalEvent, Lesser;
    var trades := TradeEvents(s.reports, order.sequence);
    forall k | 0 <= k < |s.reports| ensures batch[k + 1] == trades[k] {
    }
  }

  lemma {:induction false} TopIsTold(cfg: Config, b: Book, c: Command, s: Step, batch: seq<Event>)
    requires |s.reports| <= MAX_REPORTS && Shaped(b, cfg.book) && Shaped(s.state.book, cfg.book)
    requires Publication(IdentityOf(c), c.SequenceOf(), TopsOf(b), TopsOf(s.state.book), s.reports, s.result) == Ok(batch)
    requires s.result.Err? ==> s.state.book == b && s.reports == []
    ensures |s.reports| < |batch| && TopTold(b, s.state.book, c, |s.reports|, batch)
  {
    hide Shaped, TopsOf, Shows, Own, Best, TradeEvents, TerminalEvent;
    TopsShow(b, cfg.book);
    TopsShow(s.state.book, cfg.book);
    SameShown(TopsOf(b).bid, TopsOf(s.state.book).bid, Own(b, Buy), Own(s.state.book, Buy));
    SameShown(TopsOf(b).ask, TopsOf(s.state.book).ask, Own(b, Sell), Own(s.state.book, Sell));
  }

  lemma {:induction false} SoundShapes(cfg: Config, g: GatewayState)
    requires SoundGateway(cfg, g)
    ensures Shaped(g.book, cfg.book)
  {
    SoundShape(g.book, cfg.book, g.expected);
  }

  /** Whatever command is admitted, its batch tells the answer, the trades and the tops. */
  lemma {:induction false} PublicationTold(cfg: Config, g: GatewayState, c: Command, room: nat)
    requires SoundGateway(cfg, g) && SequenceDefect(g, c.SequenceOf()).None? && room <= MAX_REPORTS
    ensures StockedBook(g.book) && |Process(cfg, g, c, room).reports| <= room
    ensures var s := Process(cfg, g, c, room);
            var p := Publication(IdentityOf(c), c.SequenceOf(), TopsOf(g.book), TopsOf(s.state.book), s.reports, s.result);
            p.Ok? && Told(g.book, c, s, p.value)
  {
    hide SoundGateway, Process, R.NetPosition, Shaped, Publication, TopsOf, TerminalTold, TradesTold, TopTold, ReportsReached, SequenceDefect, Facing, Own;
    ProcessKeeps(cfg, g, c, room);
    ReportsAreTrades(cfg, g, c, room);
    AnswerKind(cfg, g, c, room);
    var s := Process(cfg, g, c, room);
    SoundShapes(cfg, g);
    SoundShapes(cfg, s.state);
    PublishesBatch(c, s, TopsOf(g.book), TopsOf(s.state.book));
    var batch := Publication(IdentityOf(c), c.SequenceOf(), TopsOf(g.book), TopsOf(s.state.book), s.reports, s.result).value;
    TerminalIs(c, s, batch, TopsOf(g.book), TopsOf(s.state.book));
    TopIsTold(cfg, g.book, c, s, batch);
    if c.New? && s.result.Ok? {
      TradesAreTold(c.order, Facing(g.book, c.order.side), s, batch, TopsOf(g.book), TopsOf(s.state.book));
    }
  }

  lemma {:induction false} PublishesBatch(c: Command, s: Step, before: Tops, after: Tops)
    requires |s.reports| <= MAX_REPORTS && (s.result.Err? ==> Business(s.result.error))
    ensures Publication(IdentityOf(c), c.SequenceOf(), before, after, s.reports, s.result).Ok?
  {
    hide AcceptedBatch;
  }
}
