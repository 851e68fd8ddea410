/** Event batches: one terminal event, then trades in fill order, then at most one top
    of book. Every published batch passes the independent validator. */
module Events {
  import opened Types
  import opened BookSpec
  import opened GatewaySpec
  import opened GatewayLaws
  import opened GatewayRuns
  import BookLaws
  import R = RiskSpec

  datatype EventId = EventId(sequence: Sequence, ordinal: U16)

  datatype CommandKind = NewKind | CancelKind | ReplaceKind

  datatype Event =
    | AcceptedEvent(id: EventId, orderId: OrderId, account: AccountId, instrument: InstrumentId, state: OrderState,
                    filled: Quantity, resting: Quantity, discarded: Quantity)
    | RejectedEvent(id: EventId, kind: CommandKind, orderId: OrderId, account: AccountId, instrument: InstrumentId, reason: RejectReason)
    | TradeEvent(id: EventId, maker: OrderId, taker: OrderId, instrument: InstrumentId, price: Price, quantity: Quantity)
    | CancelledEvent(id: EventId, orderId: OrderId, account: AccountId, instrument: InstrumentId, quantity: Quantity)
    | ReplacedEvent(id: EventId, orderId: OrderId, account: AccountId, instrument: InstrumentId, oldQuantity: Quantity,
                    newQuantity: Quantity, price: Price, priorityLost: bool)
    | TopEvent(id: EventId, instrument: InstrumentId, bid: Option<TopLevel>, ask: Option<TopLevel>)
  {
    predicate Terminal() {
      AcceptedEvent? || RejectedEvent? || CancelledEvent? || ReplacedEvent?
    }
  }

  datatype EventEngineError = Backpressured | GatewayBroken(gateway: GatewayError) | EventCapacityInvariant | PublicationInvariant

  datatype Identity = Identity(kind: CommandKind, orderId: OrderId, account: AccountId, instrument: InstrumentId)

  function IdentityOf(c: Command): Identity {
    match c
    case New(o) => Identity(NewKind, o.orderId, o.accountId, o.instrument)
    case Cancel(x) => Identity(CancelKind, x.orderId, x.accountId, x.instrument)
    case Replace(r) => Identity(ReplaceKind, r.orderId, r.accountId, r.instrument)
  }

  /** Both best levels. */
  datatype Tops = Tops(bid: Option<TopLevel>, ask: Option<TopLevel>)

  function TopsOf(b: Book): Tops {
    Tops(TopOf(b.bids), TopOf(b.asks))
  }

  function TerminalEvent(outcome: GatewayOutcome, who: Identity, id: EventId): Event {
    match outcome
    case Accepted(s) => AcceptedEvent(id, who.orderId, who.account, who.instrument, s.state, s.filled, s.resting, s.discarded)
    case Cancelled(c) => CancelledEvent(id, c.orderId, c.accountId, who.instrument, c.quantity)
    case Replaced(r) => ReplacedEvent(id, r.orderId, r.accountId, who.instrument, r.oldQuantity, r.newQuantity, r.price, r.priorityLost)
  }

  function Trade(report: ExecutionReport, id: EventId): Event {
    TradeEvent(id, report.makerOrderId, report.takerOrderId, report.instrument, report.price, report.quantity)
  }

  /** At most this many reports, so that every ordinal fits 16 bits. */
  const MAX_REPORTS: nat := U16_BOUND - 2

  function TradeEvents(reports: seq<ExecutionReport>, sequence: Sequence): (t: seq<Event>)
    requires |reports| <= MAX_REPORTS
    ensures |t| == |reports|
    ensures forall k :: 0 <= k < |t| ==> t[k] == Trade(reports[k], EventId(sequence, k + 1))
  {
    seq(|reports|, k requires 0 <= k < |reports| => Trade(reports[k], EventId(sequence, k + 1)))
  }

  /** The batch of a command that succeeded. */
  function AcceptedBatch(who: Identity, sequence: Sequence, before: Tops, after: Tops, reports: seq<ExecutionReport>, outcome: GatewayOutcome): seq<Event>
    requires |reports| <= MAX_REPORTS
  {
    [TerminalEvent(outcome, who, EventId(sequence, 0))] + TradeEvents(reports, sequence)
    + if before != after then [TopEvent(EventId(sequence, |reports| + 1), who.instrument, after.bid, after.ask)] else []
  }

  /** What is published for a command: a batch, or a fatal error. */
  function Publication(who: Identity, sequence: Sequence, before: Tops, after: Tops, reports: seq<ExecutionReport>,
                       result: Result<GatewayOutcome, GatewayError>): Result<seq<Event>, EventEngineError>
    requires |reports| <= MAX_REPORTS
  {
    match result
    case Ok(outcome) => Ok(AcceptedBatch(who, sequence, before, after, reports, outcome))
    case Err(RiskRefused(reason)) => Ok([RejectedEvent(EventId(sequence, 0), who.kind, who.orderId, who.account, who.instrument, reason)])
    case Err(BookRefused(reason)) => Ok([RejectedEvent(EventId(sequence, 0), who.kind, who.orderId, who.account, who.instrument, reason)])
    case Err(e) => Err(GatewayBroken(e))
  }

  /** A batch under construction; its capacity is fixed. */
  class EventBatch {
    const capacity: nat
    var events: seq<Event>

    constructor (capacity: nat)
      ensures this.capacity == capacity && events == []
    {
      this.capacity := capacity;
      events := [];
    }

    method TryPush(event: Event) returns (ok: bool)
      modifies this
      ensures ok <==> old(|events|) < capacity
      ensures events == if ok then old(events) + [event] else old(events)
    {
      if |events| >= capacity {
        return false;
      }
      events := events + [event];
      ok := true;
    }
  }

  /** Builds the batch event by event. With the configured capacity no push can fail
      and no ordinal can overflow. */
  method BuildBatch(who: Identity, sequence: Sequence, before: Tops, after: Tops, reports: seq<ExecutionReport>,
                    result: Result<GatewayOutcome, GatewayError>, capacity: nat) returns (r: Result<seq<Event>, EventEngineError>)
    requires |reports| <= MAX_REPORTS && |reports| + 2 <= capacity
    ensures r == Publication(who, sequence, before, after, reports, result)
  {
    var batch := new EventBatch(capacity);
    match result {
      case Ok(outcome) =>
        var ordinal: U16 := 0;
        var pushed := batch.TryPush(TerminalEvent(outcome, who, EventId(sequence, ordinal)));
        if !pushed {
          return Err(EventCapacityInvariant);
        }
        ordinal := ordinal + 1;
        for k := 0 to |reports|
          invariant ordinal == k + 1 && batch.capacity == capacity && fresh(batch)
          invariant batch.events == [TerminalEvent(outcome, who, EventId(sequence, 0))] + TradeEvents(reports, sequence)[..k]
        {
          assert TradeEvents(reports, sequence)[..k + 1] == TradeEvents(reports, sequence)[..k] + [TradeEvents(reports, sequence)[k]];
          pushed := batch.TryPush(Trade(reports[k], EventId(sequence, ordinal)));
          if !pushed {
            return Err(EventCapacityInvariant);
          }
          ordinal := ordinal + 1;
        }
        assert TradeEvents(reports, sequence)[..|reports|] == TradeEvents(reports, sequence);
        assert batch.events + [] == batch.events;
        if before != after {
          pushed := batch.TryPush(TopEvent(EventId(sequence, ordinal), who.instrument, after.bid, after.ask));
          if !pushed {
            return Err(EventCapacityInvariant);
          }
        }
        r := Ok(batch.events);
      case Err(RiskRefused(reason)) =>
        var rejection := RejectedEvent(EventId(sequence, 0), who.kind, who.orderId, who.account, who.instrument, reason);
        var pushed := batch.TryPush(rejection);
        if !pushed {
          return Err(EventCapacityInvariant);
        }
        assert batch.events == [rejection];
        r := Ok(batch.events);
      case Err(BookRefused(reason)) =>
        var rejection := RejectedEvent(EventId(sequence, 0), who.kind, who.orderId, who.account, who.instrument, reason);
        var pushed := batch.TryPush(rejection);
        if !pushed {
          return Err(EventCapacityInvariant);
        }
        assert batch.events == [rejection];
        r := Ok(batch.events);
      case Err(e) => r := Err(GatewayBroken(e));
    }
  }

  // The validator, written without the publisher.

  datatype BatchDefect =
    | EmptyBatch | WrongInstrument | WrongSequence | WrongOrdinal | TerminalNotFirst | TerminalCount
    | DuplicateTopOfBook | TopOfBookNotLast | UnexpectedTrade | UnexpectedTopOfBook

  /** A batch as a consumer may rely on it. */
  ghost predicate WellFormed(batch: seq<Event>, instrument: InstrumentId, sequence: Sequence) {
    && batch != []
    && (forall i :: 0 <= i < |batch| ==>
          && batch[i].instrument == instrument && batch[i].id == EventId(sequence, batch[i].id.ordinal) && batch[i].id.ordinal == i
          && (batch[i].Terminal() <==> i == 0)
          && (batch[i].TradeEvent? ==> batch[0].AcceptedEvent?)
          && (batch[i].TopEvent? ==> i == |batch| - 1 && !batch[0].RejectedEvent?))
  }

  /** What is wrong with the `i`-th event, in the order the validator looks. A second top
      of book cannot come up: the first one, not being last, is reported before it. */
  function EventDefect(batch: seq<Event>, i: nat, instrument: InstrumentId, sequence: Sequence): Option<BatchDefect>
    requires i < |batch|
  {
    if batch[i].instrument != instrument then Some(WrongInstrument)
    else if batch[i].id.sequence != sequence then Some(WrongSequence)
    else if batch[i].id.ordinal != i then Some(WrongOrdinal)
    else if batch[i].Terminal() && i != 0 then Some(TerminalNotFirst)
    else if batch[i].TradeEvent? && !batch[0].AcceptedEvent? then Some(UnexpectedTrade)
    else if batch[i].TopEvent? && batch[0].RejectedEvent? then Some(UnexpectedTopOfBook)
    else if batch[i].TopEvent? && i + 1 != |batch| then Some(TopOfBookNotLast)
    else None
  }

  ghost predicate SoundUpTo(batch: seq<Event>, n: nat, instrument: InstrumentId, sequence: Sequence) {
    n <= |batch| && forall i :: 0 <= i < n ==> EventDefect(batch, i, instrument, sequence).None?
  }

  /** The first thing wrong with a batch: a missing terminal event is noticed last. */
  ghost predicate FirstDefect(batch: seq<Event>, instrument: InstrumentId, sequence: Sequence, defect: BatchDefect) {
    if batch == [] then defect == EmptyBatch
    else if SoundUpTo(batch, |batch|, instrument, sequence) then defect == TerminalCount && !batch[0].Terminal()
    else exists i :: 0 <= i < |batch| && SoundUpTo(batch, i, instrument, sequence)
                     && EventDefect(batch, i, instrument, sequence) == Some(defect)
  }

  /** What a consumer counts. The fingerprint folds a hash over the events in order. */
  datatype EventSummary = EventSummary(
    events: nat, terminals: nat, accepted: nat, rejected: nat, cancelled: nat, replaced: nat, trades: nat, tops: nat,
    fingerprint: U64)

  function One(b: bool): nat {
    if b then 1 else 0
  }

  function Summary(hash: (U64, Event) -> U64, batch: seq<Event>): (s: EventSummary)
    ensures s.events == |batch| == s.terminals + s.trades + s.tops
    ensures s.terminals == s.accepted + s.rejected + s.cancelled + s.replaced
  {
    if batch == [] then EventSummary(0, 0, 0, 0, 0, 0, 0, 0, 0)
    else
      var s := Summary(hash, batch[..|batch| - 1]);
      var e := batch[|batch| - 1];
      EventSummary(s.events + 1, s.terminals + One(e.Terminal()), s.accepted + One(e.AcceptedEvent?),
                   s.rejected + One(e.RejectedEvent?), s.cancelled + One(e.CancelledEvent?), s.replaced + One(e.ReplacedEvent?),
                   s.trades + One(e.TradeEvent?), s.tops + One(e.TopEvent?), hash(s.fingerprint, e))
  }

  /** In a well-formed prefix the terminal event is counted once and a top of book only at
      the end. */
  lemma {:induction false} SummaryUpTo(hash: (U64, Event) -> U64, batch: seq<Event>, n: nat, instrument: InstrumentId, sequence: Sequence)
    requires 0 < n && SoundUpTo(batch, n, instrument, sequence)
    ensures var s := Summary(hash, batch[..n]);
            s.terminals == One(batch[0].Terminal()) && s.tops == One(n == |batch| && batch[n - 1].TopEvent?)
  {
    assert batch[..n][..n - 1] == batch[..n - 1];
    assert EventDefect(batch, n - 1, instrument, sequence).None?;
    if n > 1 {
      SummaryUpTo(hash, batch, n - 1, instrument, sequence);
    } else {
      assert batch[..0] == [];
    }
  }

  lemma {:induction false} SummaryStep(hash: (U64, Event) -> U64, batch: seq<Event>, n: nat)
    requires n < |batch|
    ensures var s, t, e := Summary(hash, batch[..n]), Summary(hash, batch[..n + 1]), batch[n];
            && t.events == s.events + 1 && t.terminals == s.terminals + One(e.Terminal())
            && t.accepted == s.accepted + One(e.AcceptedEvent?) && t.rejected == s.rejected + One(e.RejectedEvent?)
            && t.cancelled == s.cancelled + One(e.CancelledEvent?) && t.replaced == s.replaced + One(e.ReplacedEvent?)
            && t.trades == s.trades + One(e.TradeEvent?) && t.tops == s.tops + One(e.TopEvent?)
            && t.fingerprint == hash(s.fingerprint, e)
  {
    assert batch[..n + 1][..n] == batch[..n];
  }

  lemma {:induction false} NoDefectIff(batch: seq<Event>, instrument: InstrumentId, sequence: Sequence)
    requires batch != []
    ensures WellFormed(batch, instrument, sequence) <==>
            SoundUpTo(batch, |batch|, instrument, sequence) && batch[0].Terminal()
  {
    if WellFormed(batch, instrument, sequence) {
      forall i | 0 <= i < |batch| ensures EventDefect(batch, i, instrument, sequence).None? {
      }
    }
    if SoundUpTo(batch, |batch|, instrument, sequence) && batch[0].Terminal() {
      forall i | 0 <= i < |batch|
        ensures batch[i].instrument == instrument && batch[i].id == EventId(sequence, batch[i].id.ordinal) && batch[i].id.ordinal == i
        ensures batch[i].Terminal() <==> i == 0
        ensures batch[i].TradeEvent? ==> batch[0].AcceptedEvent?
        ensures batch[i].TopEvent? ==> i == |batch| - 1 && !batch[0].RejectedEvent?
      {
        assert EventDefect(batch, i, instrument, sequence).None?;
      }
    }
  }

  lemma {:induction false} StartsSound(batch: seq<Event>, instrument: InstrumentId, sequence: Sequence)
    ensures SoundUpTo(batch, 0, instrument, sequence) && (batch == [] ==> FirstDefect(batch, instrument, sequence, EmptyBatch) && !WellFormed(batch, instrument, sequence))
  {
  }

  lemma {:induction false} NoTerminal(batch: seq<Event>, instrument: InstrumentId, sequence: Sequence)
    requires batch != [] && SoundUpTo(batch, |batch|, instrument, sequence) && !batch[0].Terminal()
    ensures FirstDefect(batch, instrument, sequence, TerminalCount)
  {
    hide SoundUpTo;
  }

  lemma {:induction false} FoundDefect(batch: seq<Event>, i: nat, instrument: InstrumentId, sequence: Sequence)
    requires i < |batch| && SoundUpTo(batch, i, instrument, sequence)
    ensures match EventDefect(batch, i, instrument, sequence)
            case Some(defect) => FirstDefect(batch, instrument, sequence, defect) && !SoundUpTo(batch, |batch|, instrument, sequence)
            case None => SoundUpTo(batch, i + 1, instrument, sequence)
  {
    hide EventDefect;
  }

  /** Accepts exactly the well-formed batches and summarises them; of any other batch it
      reports the first defect. */
  method ValidateBatch(batch: seq<Event>, instrument: InstrumentId, sequence: Sequence, hash: (U64, Event) -> U64)
    returns (r: Result<EventSummary, BatchDefect>)
    ensures r.Ok? <==> WellFormed(batch, instrument, sequence)
    ensures r.Ok? ==> r.value == Summary(hash, batch) && r.value.terminals == 1 && r.value.tops <= 1
    ensures r.Err? ==> FirstDefect(batch, instrument, sequence, r.error)
  {
    hide Summary, WellFormed, FirstDefect, SoundUpTo;
    StartsSound(batch, instrument, sequence);
    if batch == [] {
      return Err(EmptyBatch);
    }
    NoDefectIff(batch, instrument, sequence);
    var terminals, tops, trades, fingerprint: U64 := 0, 0, 0, 0;
    var accepted, rejected, cancelled, replaced := 0, 0, 0, 0;
    var wasAccepted, wasRejected := batch[0].AcceptedEvent?, batch[0].RejectedEvent?;
    NothingCounted(hash, batch);
    for i := 0 to |batch|
      invariant SoundUpTo(batch, i, instrument, sequence)
      invariant Summary(hash, batch[..i]) == EventSummary(i, terminals, accepted, rejected, cancelled, replaced, trades, tops, fingerprint)
    {
      var event := batch[i];
      if i > 0 {
        SummaryUpTo(hash, batch, i, instrument, sequence);
      }
      SummaryStep(hash, batch, i);
      FoundDefect(batch, i, instrument, sequence);
      if event.instrument != instrument {
        return Err(WrongInstrument);
      }
      if event.id.sequence != sequence {
        return Err(WrongSequence);
      }
      if event.id.ordinal != i {
        return Err(WrongOrdinal);
      }
      if event.Terminal() {
        terminals := terminals + 1;
        if i != 0 {
          return Err(TerminalNotFirst);
        }
      }
      match event {
        case TradeEvent(_, _, _, _, _, _) =>
          if !wasAccepted {
            return Err(UnexpectedTrade);
          }
          trades := trades + 1;
        case TopEvent(_, _, _, _) =>
          if wasRejected {
            return Err(UnexpectedTopOfBook);
          }
          tops := tops + 1;
          if tops > 1 {
            return Err(DuplicateTopOfBook);
          }
          if i + 1 != |batch| {
            return Err(TopOfBookNotLast);
          }
        case AcceptedEvent(_, _, _, _, _, _, _, _) => accepted := accepted + 1;
        case RejectedEvent(_, _, _, _, _, _) => rejected := rejected + 1;
        case CancelledEvent(_, _, _, _, _) => cancelled := cancelled + 1;
        case ReplacedEvent(_, _, _, _, _, _, _, _) => replaced := replaced + 1;
      }
      fingerprint := hash(fingerprint, event);
    }
    assert batch[..|batch|] == batch;
    SummaryUpTo(hash, batch, |batch|, instrument, sequence);
    if terminals != 1 {
      NoTerminal(batch, instrument, sequence);
      return Err(TerminalCount);
    }
    r := Ok(EventSummary(|batch|, terminals, accepted, rejected, cancelled, replaced, trades, tops, fingerprint));
  }

  lemma {:induction false} NothingCounted(hash: (U64, Event) -> U64, batch: seq<Event>)
    ensures Summary(hash, batch[..0]) == EventSummary(0, 0, 0, 0, 0, 0, 0, 0, 0)
  {
    assert batch[..0] == [];
  }

  // Every published batch is well formed.

  lemma {:induction false} PublicationWellFormed(who: Identity, sequence: Sequence, before: Tops, after: Tops, reports: seq<ExecutionReport>,
                                                 result: Result<GatewayOutcome, GatewayError>)
    requires |reports| <= MAX_REPORTS && Publication(who, sequence, before, after, reports, result).Ok?
    requires reports != [] ==> result.Ok? && result.value.Accepted?
    requires forall k :: 0 <= k < |reports| ==> reports[k].instrument == who.instrument
    ensures var batch := Publication(who, sequence, before, after, reports, result).value;
            && WellFormed(batch, who.instrument, sequence) && |batch| <= |reports| + 2
            && (result.Ok? ==> |reports| < |batch| && forall k :: 0 <= k < |reports| ==> batch[k + 1] == Trade(reports[k], EventId(sequence, k + 1)))
  {
    var batch := Publication(who, sequence, before, after, reports, result).value;
    if result.Ok? {
      AcceptedWellFormed(who, sequence, before, after, reports, result.value);
      hide WellFormed, AcceptedBatch;
    }
  }

  lemma {:induction false} AcceptedWellFormed(who: Identity, sequence: Sequence, before: Tops, after: Tops, reports: seq<ExecutionReport>, outcome: GatewayOutcome)
    requires |reports| <= MAX_REPORTS && (reports != [] ==> outcome.Accepted?)
    requires forall k :: 0 <= k < |reports| ==> reports[k].instrument == who.instrument
    ensures var batch := AcceptedBatch(who, sequence, before, after, reports, outcome);
            && WellFormed(batch, who.instrument, sequence) && |reports| < |batch| <= |reports| + 2
            && forall k :: 0 <= k < |reports| ==> batch[k + 1] == Trade(reports[k], EventId(sequence, k + 1))
  {
    var batch := AcceptedBatch(who, sequence, before, after, reports, outcome);
    var trades := TradeEvents(reports, sequence);
    hide TradeEvents;
    forall i | 0 <= i < |batch|
      ensures batch[i].instrument == who.instrument && batch[i].id == EventId(sequence, i)
      ensures (batch[i].Terminal() <==> i == 0) && (batch[i].TradeEvent? ==> batch[0].AcceptedEvent?)
      ensures batch[i].TopEvent? ==> i == |batch| - 1 && !batch[0].RejectedEvent?
    {
      if 0 < i <= |reports| {
        assert batch[i] == trades[i - 1];
      }
    }
  }

  /** What the reports of one command can be. */
  lemma {:induction false} ReportsAreTrades(cfg: Config, g: GatewayState, c: Command, room: nat)
    requires SoundGateway(cfg, g)
    ensures StockedBook(g.book)
    ensures var s := Process(cfg, g, c, room);
            && |s.reports| <= room
            && (s.reports != [] ==> s.result.Ok? && s.result.value.Accepted?)
            && forall k :: 0 <= k < |s.reports| ==> s.reports[k].instrument == c.InstrumentOf()
  {
    hide SoundGateway, R.NetPosition, Unmoved, ProcessReplace, ProcessCancel, ProcessNew, SequenceDefect;
    ProcessKeeps(cfg, g, c, room);
    if SequenceDefect(g, c.SequenceOf()).None? {
      var h := g.(expected := g.expected + 1);
      match c
      case New(order) => NewReports(cfg, h, order, room);
      case Cancel(cancel) => NoCancelReports(cfg, h, cancel);
      case Replace(replace) => NoReplaceReports(cfg, h, replace);
    }
  }

  lemma {:induction false} NoCancelReports(cfg: Config, g: GatewayState, cancel: CancelOrder)
    ensures ProcessCancel(cfg, g, cancel).reports == []
  {
    hide CancelResting, R.CancelReservation, R.OwnerDefect;
  }

  lemma {:induction false} NoReplaceReports(cfg: Config, g: GatewayState, replace: ReplaceOrder)
    ensures ProcessReplace(cfg, g, replace).reports == []
  {
    hide ReplaceResting, R.Adjust, R.Restore;
  }

  lemma {:induction false} NewReports(cfg: Config, g: GatewayState, order: NewOrder, room: nat)
    requires StockedBook(g.book)
    requires ProcessNew(cfg, g, order, room).result.Err? ==> ProcessNew(cfg, g, order, room).reports == []
    ensures var s := ProcessNew(cfg, g, order, room);
            && |s.reports| <= room
            && (s.reports != [] ==> s.result.Ok? && s.result.value.Accepted?)
            && forall k :: 0 <= k < |s.reports| ==> s.reports[k].instrument == order.instrument
  {
    var s := ProcessNew(cfg, g, order, room);
    if s.result.Ok? {
      NewOutcome(cfg, g, order, room);
      hide ProcessNew, Stocked, SubmitOrder, R.Reserve, R.Settle, SettleReports;
      BookLaws.AcceptedShape(g.book, cfg.book, cfg.instrument, order, room);
    }
  }
}
