/** Book and array model side by side, command by command: over every run they hold the
    same levels and give the same answers and fills, but for the reason they give when a
    replace is wrong twice. */
module ModelRuns {
  import opened Types
  import opened BookSpec
  import opened Reports
  import B = OrderBooks
  import M = ModelBooks
  import O = OrderIndexing
  import P = PriceLevels

  /** What the book says to a command; the reports it writes are part of the answer. */
  datatype BookAnswer =
    | BookSubmitted(submission: Result<MatchSummary, RejectReason>, reports: seq<ExecutionReport>)
    | BookCancelled(cancellation: Result<CancelledOrder, RejectReason>)
    | BookReplaced(replacement: Result<ReplacedOrder, RejectReason>)

  /** What the array model says. */
  datatype ModelAnswer =
    | ModelSubmitted(submission: Result<M.ModelOutcome, RejectReason>)
    | ModelCancelled(cancellation: Result<CancelledOrder, RejectReason>)
    | ModelReplaced(replacement: Result<(Quantity, bool), RejectReason>)

  /** What stays fixed over a run: instrument, capacities, room for reports. */
  datatype Market = Market(instrument: InstrumentId, shape: Shape, room: nat)

  /** The book after a command, and its answer. */
  function Answered(m: Market, b: Book, command: Command): (Book, BookAnswer)
    requires StockedBook(b)
  {
    match command
    case New(order) =>
      (match SubmitOrder(b, m.shape, m.instrument, order, m.room)
       case Err(e) => (b, BookSubmitted(Err(e), []))
       case Ok(done) => (done.book, BookSubmitted(Ok(done.summary), ReportsOf(order, done.fills))))
    case Cancel(cancel) =>
      (match CancelResting(b, m.instrument, cancel)
       case Err(e) => (b, BookCancelled(Err(e)))
       case Ok(done) => (done.0, BookCancelled(Ok(done.1))))
    case Replace(replace) =>
      match ReplaceResting(b, m.shape, m.instrument, replace)
      case Err(e) => (b, BookReplaced(Err(e)))
      case Ok(done) => (done.0, BookReplaced(Ok(done.1)))
  }

  /** The model's answer when it holds the levels of `b`. */
  function ModelAnswered(m: Market, b: Book, command: Command): ModelAnswer
    requires StockedBook(b)
  {
    match command
    case New(order) =>
      (match SubmitOrder(b, m.shape, m.instrument, order, m.room)
       case Err(e) => ModelSubmitted(Err(e))
       case Ok(done) => ModelSubmitted(Ok(M.OutcomeOf(done))))
    case Cancel(cancel) =>
      (match CancelResting(b, m.instrument, cancel)
       case Err(e) => ModelCancelled(Err(e))
       case Ok(done) => ModelCancelled(Ok(done.1)))
    case Replace(replace) =>
      if replace.price <= 0 then ModelReplaced(Err(InvalidPrice))
      else if replace.quantity == 0 then ModelReplaced(Err(InvalidQuantity))
      else match ReplaceResting(b, m.shape, m.instrument, replace)
        case Err(e) => ModelReplaced(Err(e))
        case Ok(done) => ModelReplaced(Ok((done.1.oldQuantity, done.1.priorityLost)))
  }

  /** The same rejection, or the same outcome: summaries, cancelled orders and amendments
      are equal, and the reports are the model's fills in order. */
  predicate Same(command: Command, mine: BookAnswer, theirs: ModelAnswer) {
    match (command, mine, theirs)
    case (New(order), BookSubmitted(Err(a), reports), ModelSubmitted(Err(b))) => a == b && reports == []
    case (New(order), BookSubmitted(Ok(s), reports), ModelSubmitted(Ok(o))) =>
      && s == MatchSummary(o.state, o.filled, o.resting, o.discarded, |o.fills|)
      && reports == ReportsOf(order, o.fills)
    case (Cancel(_), BookCancelled(a), ModelCancelled(b)) => a == b
    case (Replace(_), BookReplaced(Err(a)), ModelReplaced(Err(b))) => a == b
    case (Replace(replace), BookReplaced(Ok(r)), ModelReplaced(Ok(o))) =>
      r == ReplacedOrder(replace.orderId, replace.accountId, o.0, replace.quantity, replace.price, o.1)
    case _ => false
  }

  /** A replace whose price or quantity is invalid. */
  predicate BadValue(command: Command) {
    command.Replace? && (command.replace.price <= 0 || command.replace.quantity == 0)
  }

  /** A replace that is wrong twice: invalid in price or quantity, and not the account's order. */
  predicate WrongTwice(b: Book, command: Command) {
    && BadValue(command)
    && var at := Locate(b, command.replace.orderId);
    !(at.Some? && OrderOf(b, at.value).account == command.replace.accountId)
  }

  // One command.

  /** Book and model answer the same unless the command is a replace that is wrong twice,
      and then they do not. */
  lemma {:induction false} AgreeIff(m: Market, b: Book, command: Command)
    requires StockedBook(b) && command.InstrumentOf() == m.instrument
    ensures Same(command, Answered(m, b, command).1, ModelAnswered(m, b, command)) <==> !WrongTwice(b, command)
  {
    match command
    case New(order) => SubmissionsAgree(m, b, order);
    case Cancel(cancel) =>
      hide Locate;
    case Replace(replace) => ReplacesAgree(m, b, replace);
  }

  lemma {:induction false} SubmissionsAgree(m: Market, b: Book, order: NewOrder)
    requires StockedBook(b)
    ensures Same(New(order), Answered(m, b, New(order)).1, ModelAnswered(m, b, New(order)))
  {
    hide Match, Stocked, Validate, RestRejection, AddOrder, ReportsOf;
  }

  lemma {:induction false} ReplacesAgree(m: Market, b: Book, replace: ReplaceOrder)
    requires StockedBook(b) && replace.instrument == m.instrument
    ensures Same(Replace(replace), Answered(m, b, Replace(replace)).1, ModelAnswered(m, b, Replace(replace)))
            <==> !WrongTwice(b, Replace(replace))
  {
    hide Locate, MoveRejection, Stocked, SetOrder, AddOrder, RemoveOrder;
    M.ReplaceAgreesIff(b, m.shape, replace);
  }

  lemma {:induction false} BadRefused(b: Book, shape: Shape, replace: ReplaceOrder)
    requires BadValue(Replace(replace))
    ensures ReplaceResting(b, shape, replace.instrument, replace).Err?
  {
    hide Locate, MoveRejection;
  }

  /** The difference is real: price zero for an id that nobody rests. */
  lemma {:induction false} UnknownAtZero(m: Market, replace: ReplaceOrder)
    requires replace.instrument == m.instrument && replace.price == 0
    ensures Answered(m, Book([], []), Replace(replace)) == (Book([], []), BookReplaced(Err(UnknownOrder)))
    ensures ModelAnswered(m, Book([], []), Replace(replace)) == ModelReplaced(Err(InvalidPrice))
  {
    assert FindLevel([], replace.orderId).None?;
  }

  // Whole runs.

  lemma {:induction false} MatchStocked(taker: Side, limit: Price, makers: seq<Level>, quantity: Quantity)
    requires Stocked(makers)
    ensures Stocked(Match(taker, limit, makers, quantity).makers)
    decreases quantity
  {
    hide Stocked, FillHead, Crosses;
    if quantity > 0 && makers != [] && Crosses(taker, limit, makers[0].price) {
      BestPositive(makers);
      var traded := Min(quantity, makers[0].orders[0].quantity);
      FillHeadStocked(makers, traded);
      MatchStocked(taker, limit, FillHead(makers, traded), quantity - traded);
    }
  }

  lemma {:induction false} BestPositive(makers: seq<Level>)
    requires Stocked(makers) && makers != []
    ensures makers[0].orders != [] && makers[0].orders[0].quantity > 0
  {
    assert StockedLevel(makers[0]);
  }

  lemma {:induction false} WithStocked(b: Book, side: Side, levels: seq<Level>)
    requires StockedBook(b) && Stocked(levels)
    ensures StockedBook(b.With(side, levels))
  {
  }

  lemma {:induction false} SubmittedStocked(m: Market, b: Book, order: NewOrder)
    requires StockedBook(b)
    ensures StockedBook(Answered(m, b, New(order)).0)
  {
    hide Match, Stocked, Validate, RestRejection, AddOrder, ReportsOf;
    var maker := order.side.Opposite();
    var matched := Match(order.side, order.price, b.At(maker), order.quantity);
    MatchStocked(order.side, order.price, b.At(maker), order.quantity);
    WithStocked(b, maker, matched.makers);
    if matched.remaining > 0 {
      var c := b.With(maker, matched.makers);
      var rest := P.Order(order.orderId, order.accountId, matched.remaining, order.sequence);
      B.AddStocked(order.side, c.At(order.side), order.price, rest);
      WithStocked(c, order.side, AddOrder(order.side, c.At(order.side), order.price, rest));
    }
  }

  lemma {:induction false} CancelledStocked(m: Market, b: Book, cancel: CancelOrder)
    requires StockedBook(b)
    ensures StockedBook(Answered(m, b, Cancel(cancel)).0)
  {
    hide Stocked, RemoveOrder, Locate;
    if CancelResting(b, m.instrument, cancel).Ok? {
      var p := Locate(b, cancel.orderId).value;
      B.RemoveStocked(b.At(p.side), p.level, p.place);
    }
  }

  lemma {:induction false} ReplacedStocked(m: Market, b: Book, replace: ReplaceOrder)
    requires StockedBook(b)
    ensures StockedBook(Answered(m, b, Replace(replace)).0)
  {
    hide Stocked, RemoveOrder, AddOrder, SetOrder, Locate, MoveRejection;
    if ReplaceResting(b, m.shape, m.instrument, replace).Ok? {
      var p := Locate(b, replace.orderId).value;
      var levels := b.At(p.side);
      var order := OrderOf(b, p);
      if replace.price == levels[p.level].price && replace.quantity < order.quantity {
        ReducedStocked(levels, p.level, p.place, replace.quantity);
      } else {
        B.RemoveStocked(levels, p.level, p.place);
        B.AddStocked(p.side, RemoveOrder(levels, p.level, p.place), replace.price,
                     P.Order(replace.orderId, replace.accountId, replace.quantity, replace.sequence));
      }
    }
  }

  lemma {:induction false} ReducedStocked(levels: seq<Level>, i: nat, j: nat, quantity: Quantity)
    requires Stocked(levels) && InLevels(levels, i, j) && 0 < quantity < levels[i].orders[j].quantity
    ensures Stocked(SetOrder(levels, i, j, levels[i].orders[j].(quantity := quantity)))
  {
    var order := levels[i].orders[j];
    assert order.(quantity := order.quantity - (order.quantity - quantity)) == order.(quantity := quantity);
    B.SetStocked(levels, i, j, order.quantity - quantity);
  }

  lemma {:induction false} AnsweredStocked(m: Market, b: Book, command: Command)
    requires StockedBook(b)
    ensures StockedBook(Answered(m, b, command).0)
  {
    match command
    case New(order) => SubmittedStocked(m, b, order);
    case Cancel(cancel) => CancelledStocked(m, b, cancel);
    case Replace(replace) => ReplacedStocked(m, b, replace);
  }

  /** The book a run of commands leaves behind, from empty. */
  function After(m: Market, commands: seq<Command>): (b: Book)
    ensures StockedBook(b)
  {
    if commands == [] then Book([], [])
    else
      var before := After(m, commands[..|commands| - 1]);
      AnsweredStocked(m, before, commands[|commands| - 1]);
      Answered(m, before, commands[|commands| - 1]).0
  }

  lemma {:induction false} AfterStep(m: Market, commands: seq<Command>, k: nat)
    requires k < |commands|
    ensures After(m, commands[..k + 1]) == Answered(m, After(m, commands[..k]), commands[k]).0
  {
    hide Answered;
    assert commands[..k + 1][..k] == commands[..k];
  }

  /** Gives one command to both and compares what they say. Book and model both take the
      command's effect, and go on holding the same levels. */
  method Compare(book: B.OrderBook, model: M.ModelBook, command: Command, reports: ReportBuffer)
    returns (mine: BookAnswer, theirs: ModelAnswer, same: bool)
    requires book.Valid() && model.Mirrors(book.View()) && reports.Valid() && command.InstrumentOf() == book.instrument
    modifies model, reports, book`bids, book`asks, book.bidLevels, book.askLevels, book.index.slots
    ensures book.Valid() && reports.Valid() && StockedBook(old(book.View()))
    ensures var m := Market(book.instrument, book.shape, reports.capacity);
            && (book.View(), mine) == Answered(m, old(book.View()), command)
            && theirs == ModelAnswered(m, old(book.View()), command)
    ensures model.Mirrors(book.View())
    ensures same <==> Same(command, mine, theirs)
    ensures same <==> !WrongTwice(old(book.View()), command)
  {
    hide B.OrderBook.Valid, B.OrderBook.View, M.ModelBook.Mirrors, SubmitOrder, ReplaceResting, CancelResting, UniqueIds, ReportsOf, StockedBook, Same, WrongTwice, M.OutcomeOf;
    ghost var b := book.View();
    book.ViewStocked();
    book.ViewUnique();
    AgreeIff(Market(book.instrument, book.shape, reports.capacity), b, command);
    match command {
      case New(order) =>
        reports.Clear();
        var r := book.Submit(order, reports);
        var s := model.Submit(order, reports.capacity, book.shape, b);
        mine, theirs := BookSubmitted(r, reports.entries), ModelSubmitted(s);
        assert forall x: seq<ExecutionReport> :: [] + x == x;
      case Cancel(cancel) =>
        var r := book.Cancel(cancel);
        var s := model.Cancel(cancel, b);
        mine, theirs := BookCancelled(r), ModelCancelled(s);
      case Replace(replace) =>
        if BadValue(command) {
          BadRefused(b, book.shape, replace);
        }
        var r := book.Replace(replace);
        var s := model.Replace(replace, book.shape, b);
        mine, theirs := BookReplaced(r), ModelReplaced(s);
    }
    same := Same(command, mine, theirs);
  }

  /** The answers to the first `|mine|` commands, and where they differ. */
  ghost predicate Recorded(m: Market, commands: seq<Command>, mine: seq<BookAnswer>, theirs: seq<ModelAnswer>, differences: seq<nat>) {
    && |mine| == |theirs| <= |commands|
    && (forall k :: 0 <= k < |mine| ==> mine[k] == Answered(m, After(m, commands[..k]), commands[k]).1)
    && (forall k :: 0 <= k < |mine| ==> theirs[k] == ModelAnswered(m, After(m, commands[..k]), commands[k]))
    && (forall i, j :: 0 <= i < j < |differences| ==> differences[i] < differences[j])
    && (forall k: nat :: k in differences <==> k < |mine| && !Same(commands[k], mine[k], theirs[k]))
  }

  lemma {:induction false} RunStart(m: Market, commands: seq<Command>)
    ensures After(m, commands[..0]) == Book([], []) && Recorded(m, commands, [], [], [])
  {
  }

  lemma {:induction false} RecordedStep(m: Market, commands: seq<Command>, mine: seq<BookAnswer>, theirs: seq<ModelAnswer>,
                                        differences: seq<nat>, a: BookAnswer, o: ModelAnswer)
    requires Recorded(m, commands, mine, theirs, differences) && |mine| < |commands|
    requires a == Answered(m, After(m, commands[..|mine|]), commands[|mine|]).1
    requires o == ModelAnswered(m, After(m, commands[..|mine|]), commands[|mine|])
    ensures Recorded(m, commands, mine + [a], theirs + [o],
                     if Same(commands[|mine|], a, o) then differences else differences + [|mine|])
  {
    hide Answered, ModelAnswered, Same, After;
    var n := |mine|;
    var more := if Same(commands[n], a, o) then differences else differences + [n];
    assert forall k :: 0 <= k < n ==> (mine + [a])[k] == mine[k] && (theirs + [o])[k] == theirs[k];
    assert forall k :: 0 <= k < |differences| ==> differences[k] in differences;
    assert forall k: nat :: k in more <==> k in differences || (k == n && !Same(commands[n], a, o));
  }

  lemma {:induction false} RecordedDiffer(m: Market, commands: seq<Command>, mine: seq<BookAnswer>, theirs: seq<ModelAnswer>, differences: seq<nat>)
    requires Recorded(m, commands, mine, theirs, differences) && |mine| == |commands|
    requires forall k :: 0 <= k < |commands| ==> commands[k].InstrumentOf() == m.instrument
    ensures forall k: nat :: k in differences <==> k < |commands| && WrongTwice(After(m, commands[..k]), commands[k])
  {
    hide Answered, ModelAnswered, Same, After, WrongTwice;
    forall k: nat | k < |commands|
      ensures Same(commands[k], mine[k], theirs[k]) <==> !WrongTwice(After(m, commands[..k]), commands[k])
    {
      AgreeIff(m, After(m, commands[..k]), commands[k]);
    }
  }

  /** A whole run from empty, with whatever sequence numbers. Every answer of book and
      model is the one their specifications give after the commands before it, the two
      differ exactly at the replaces that are wrong twice, and at the end both hold the
      book the run leaves behind. */
  method CompareRun(m: Market, commands: seq<Command>)
    returns (book: B.OrderBook, model: M.ModelBook, mine: seq<BookAnswer>, theirs: seq<ModelAnswer>, differences: seq<nat>)
    requires 0 < m.shape.orders < P.NIL && O.PLANES * (m.shape.levels * m.shape.orders) <= U32_BOUND
    requires forall k :: 0 <= k < |commands| ==> commands[k].InstrumentOf() == m.instrument
    ensures book.Valid() && book.View() == After(m, commands) && model.Mirrors(After(m, commands))
    ensures |mine| == |commands| && Recorded(m, commands, mine, theirs, differences)
    ensures forall k: nat :: k in differences <==> k < |commands| && WrongTwice(After(m, commands[..k]), commands[k])
  {
    hide B.OrderBook.Valid, B.OrderBook.View, M.ModelBook.Mirrors, Answered, ModelAnswered, Same, WrongTwice, After, Recorded, StockedBook;
    RunStart(m, commands);
    book := new B.OrderBook(m.instrument, m.shape);
    model := new M.ModelBook();
    var reports := new ReportBuffer(m.room);
    mine, theirs, differences := [], [], [];
    for k := 0 to |commands|
      invariant fresh(book) && fresh(model) && fresh(reports)
      invariant fresh(book.bidLevels) && fresh(book.askLevels) && fresh(book.index.slots)
      invariant book.Valid() && reports.Valid() && reports.capacity == m.room
      invariant book.instrument == m.instrument && book.shape == m.shape
      invariant book.View() == After(m, commands[..k]) && model.Mirrors(book.View())
      invariant |mine| == k && Recorded(m, commands, mine, theirs, differences)
    {
      AfterStep(m, commands, k);
      var a, o, same := Compare(book, model, commands[k], reports);
      RecordedStep(m, commands, mine, theirs, differences, a, o);
      mine, theirs := mine + [a], theirs + [o];
      if !same {
        differences := differences + [k];
      }
    }
    assert commands[..|commands|] == commands;
    RecordedDiffer(m, commands, mine, theirs, differences);
  }
}
