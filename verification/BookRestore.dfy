/** Rebuilding a book from its exported state: what is accepted, that the rebuilt
    book exports the same state, and that every reachable book is accepted. */
module BookRestore {
  import opened Types
  import opened PriceLevels
  import opened BookSpec
  import opened BookStore
  import opened OrderIndexing
  import opened Priority
  import opened BookIds
  import opened BookLaws
  import opened OrderBooks

  datatype BookOrderState = BookOrderState(id: OrderId, account: AccountId, side: Side, price: Price, quantity: Quantity, sequence: Sequence)
  datatype BookLevelState = BookLevelState(side: Side, price: Price, orders: seq<BookOrderState>)
  datatype BookState = BookState(instrument: InstrumentId, bids: seq<BookLevelState>, asks: seq<BookLevelState>)

  datatype BookStateError =
    | WrongInstrument | LevelCapacity | OrderCapacityExceeded | WrongSide | WrongPrice
    | WrongQuantity | WrongSequence | LevelOrder | RepeatedOrderId | Crossed

  function ExportOrders(side: Side, price: Price, orders: seq<Order>): (s: seq<BookOrderState>)
    ensures |s| == |orders|
    ensures forall j :: 0 <= j < |s| ==>
              s[j] == BookOrderState(orders[j].id, orders[j].account, side, price, orders[j].quantity, orders[j].sequence)
  {
    seq(|orders|, j requires 0 <= j < |orders| =>
      BookOrderState(orders[j].id, orders[j].account, side, price, orders[j].quantity, orders[j].sequence))
  }

  function ExportSide(side: Side, levels: seq<Level>): (s: seq<BookLevelState>)
    ensures |s| == |levels|
    ensures forall i :: 0 <= i < |s| ==> s[i] == BookLevelState(side, levels[i].price, ExportOrders(side, levels[i].price, levels[i].orders))
  {
    seq(|levels|, i requires 0 <= i < |levels| =>
      BookLevelState(side, levels[i].price, ExportOrders(side, levels[i].price, levels[i].orders)))
  }

  function ExportBook(instrument: InstrumentId, b: Book): BookState {
    BookState(instrument, ExportSide(Buy, b.bids), ExportSide(Sell, b.asks))
  }

  function ImportOrders(orders: seq<BookOrderState>): (q: seq<Order>)
    ensures |q| == |orders|
    ensures forall j :: 0 <= j < |q| ==> q[j] == Order(orders[j].id, orders[j].account, orders[j].quantity, orders[j].sequence)
  {
    seq(|orders|, j requires 0 <= j < |orders| => Order(orders[j].id, orders[j].account, orders[j].quantity, orders[j].sequence))
  }

  function ImportSide(levels: seq<BookLevelState>): (s: seq<Level>)
    ensures |s| == |levels|
    ensures forall i :: 0 <= i < |s| ==> s[i] == Level(levels[i].price, ImportOrders(levels[i].orders))
  {
    seq(|levels|, i requires 0 <= i < |levels| => Level(levels[i].price, ImportOrders(levels[i].orders)))
  }

  function ImportBook(s: BookState): Book {
    Book(ImportSide(s.bids), ImportSide(s.asks))
  }

  function OrdersError(orders: seq<BookOrderState>, side: Side, price: Price): Option<BookStateError> {
    if orders == [] then None
    else if orders[0].side != side then Some(WrongSide)
    else if orders[0].price != price then Some(WrongPrice)
    else if orders[0].quantity == 0 then Some(WrongQuantity)
    else if orders[0].sequence == 0 then Some(WrongSequence)
    else OrdersError(orders[1..], side, price)
  }

  predicate Aging(orders: seq<BookOrderState>) {
    forall i, j :: 0 <= i < |orders| && 0 <= j < |orders| && j == i + 1 ==> orders[i].sequence < orders[j].sequence
  }

  /** First defect of one side, level by level. */
  function SideError(levels: seq<BookLevelState>, side: Side, shape: Shape, prior: Option<Price>): Option<BookStateError> {
    if levels == [] then None
    else
      var l := levels[0];
      if l.side != side then Some(WrongSide)
      else if l.price <= 0 then Some(WrongPrice)
      else if |l.orders| == 0 || |l.orders| > shape.orders then Some(OrderCapacityExceeded)
      else if prior.Some? && !Better(side, prior.value, l.price) then Some(LevelOrder)
      else if OrdersError(l.orders, side, l.price).Some? then OrdersError(l.orders, side, l.price)
      else if !Aging(l.orders) then Some(WrongSequence)
      else SideError(levels[1..], side, shape, Some(l.price))
  }

  function AllOrders(s: BookState): seq<Resting> {
    Flatten(ImportSide(s.bids)) + Flatten(ImportSide(s.asks))
  }

  function Occurrences(list: seq<Resting>, hit: Resting -> bool): nat {
    if list == [] then 0 else (if hit(list[0]) then 1 else 0) + Occurrences(list[1..], hit)
  }

  /** First order whose id or sequence occurs more than once in the whole book. */
  function KeyError(all: seq<Resting>, from: nat): Option<BookStateError>
    decreases |all| - from
  {
    if from >= |all| then None
    else if Occurrences(all, (r: Resting) => r.order.id == all[from].order.id) != 1 then Some(RepeatedOrderId)
    else if Occurrences(all, (r: Resting) => r.order.sequence == all[from].order.sequence) != 1 then Some(WrongSequence)
    else KeyError(all, from + 1)
  }

  function StateError(s: BookState, shape: Shape): Option<BookStateError> {
    if |s.bids| > shape.levels || |s.asks| > shape.levels then Some(LevelCapacity)
    else if SideError(s.bids, Buy, shape, None).Some? then SideError(s.bids, Buy, shape, None)
    else if SideError(s.asks, Sell, shape, None).Some? then SideError(s.asks, Sell, shape, None)
    else if s.bids != [] && s.asks != [] && s.bids[0].price >= s.asks[0].price then Some(Crossed)
    else KeyError(AllOrders(s), 0)
  }

  // Acceptance, declaratively.

  lemma {:induction false} OrdersErrorNone(orders: seq<BookOrderState>, side: Side, price: Price)
    ensures OrdersError(orders, side, price).None? <==>
            forall j :: 0 <= j < |orders| ==>
              orders[j].side == side && orders[j].price == price && orders[j].quantity > 0 && orders[j].sequence > 0
  {
    if orders != [] {
      OrdersErrorNone(orders[1..], side, price);
      assert forall j :: 0 < j < |orders| ==> orders[j] == orders[1..][j - 1];
    }
  }

  lemma {:induction false} AgingYoung(orders: seq<BookOrderState>, i: nat, j: nat)
    requires Aging(orders) && i < j < |orders|
    ensures orders[i].sequence < orders[j].sequence
    decreases j
  {
    if i + 1 < j {
      AgingYoung(orders, i, j - 1);
    }
  }

  predicate LevelAccepted(l: BookLevelState, side: Side, shape: Shape) {
    && l.side == side && l.price > 0 && 0 < |l.orders| <= shape.orders && Aging(l.orders)
    && forall j :: 0 <= j < |l.orders| ==>
         l.orders[j].side == side && l.orders[j].price == l.price && l.orders[j].quantity > 0 && l.orders[j].sequence > 0
  }

  ghost predicate Descends(side: Side, levels: seq<BookLevelState>, prior: Option<Price>) {
    && (forall i, j :: 0 <= i < j < |levels| && j == i + 1 ==> Better(side, levels[i].price, levels[j].price))
    && (prior.Some? && levels != [] ==> Better(side, prior.value, levels[0].price))
  }

  lemma {:induction false} SideErrorNone(levels: seq<BookLevelState>, side: Side, shape: Shape, prior: Option<Price>)
    ensures SideError(levels, side, shape, prior).None? <==>
            Descends(side, levels, prior) && forall i :: 0 <= i < |levels| ==> LevelAccepted(levels[i], side, shape)
  {
    if levels != [] {
      var l, rest := levels[0], levels[1..];
      OrdersErrorNone(l.orders, side, l.price);
      SideErrorNone(rest, side, shape, Some(l.price));
      hide OrdersError, Aging;
      assert forall i :: 0 < i < |levels| ==> levels[i] == rest[i - 1];
      DescendsCons(side, levels, prior);
    }
  }

  lemma {:induction false} DescendsCons(side: Side, levels: seq<BookLevelState>, prior: Option<Price>)
    requires levels != []
    ensures Descends(side, levels, prior) <==>
            Descends(side, levels[1..], Some(levels[0].price)) && (prior.Some? ==> Better(side, prior.value, levels[0].price))
  {
    var rest := levels[1..];
    if Descends(side, levels, prior) {
      forall i, j | 0 <= i && j == i + 1 && j < |rest| ensures Better(side, rest[i].price, rest[j].price) {
        assert rest[i] == levels[i + 1] && rest[j] == levels[j + 1];
      }
    }
    if Descends(side, rest, Some(levels[0].price)) {
      forall i, j | 0 <= i < j < |levels| && j == i + 1 ensures Better(side, levels[i].price, levels[j].price) {
        if i > 0 {
          assert Better(side, rest[i - 1].price, rest[j - 1].price);
        }
      }
    }
  }

  lemma {:induction false} DescendsSorted(side: Side, levels: seq<BookLevelState>, i: nat, j: nat)
    requires Descends(side, levels, None) && i < j < |levels|
    ensures Better(side, levels[i].price, levels[j].price)
    decreases j
  {
    if i + 1 < j {
      DescendsSorted(side, levels, i, j - 1);
    }
  }

  lemma {:induction false} OccurrencesAppend(a: seq<Resting>, b: seq<Resting>, hit: Resting -> bool)
    ensures Occurrences(a + b, hit) == Occurrences(a, hit) + Occurrences(b, hit)
  {
    if a == [] {
      assert a + b == b;
    } else {
      assert (a + b)[1..] == a[1..] + b;
      OccurrencesAppend(a[1..], b, hit);
    }
  }

  lemma {:induction false} OccurrencesAt(list: seq<Resting>, hit: Resting -> bool, i: nat)
    requires i < |list| && hit(list[i])
    ensures Occurrences(list, hit) >= 1
    ensures forall j :: 0 <= j < |list| && j != i && hit(list[j]) ==> Occurrences(list, hit) >= 2
    ensures (forall j :: 0 <= j < |list| && j != i ==> !hit(list[j])) ==> Occurrences(list, hit) == 1
  {
    OccurrencesAppend(list[..i], list[i..], hit);
    OccurrencesAppend([list[i]], list[i + 1..], hit);
    assert list == list[..i] + list[i..];
    assert list[i..] == [list[i]] + list[i + 1..];
    SingleOccurrence(list[i], hit);
    OccurrencesAny(list[..i], hit);
    OccurrencesAny(list[i + 1..], hit);
    forall j | 0 <= j < |list| && j != i && hit(list[j]) ensures Occurrences(list, hit) >= 2 {
      if j < i {
        assert list[..i][j] == list[j];
      } else {
        assert list[i + 1..][j - i - 1] == list[j];
      }
    }
  }

  lemma {:induction false} SingleOccurrence(r: Resting, hit: Resting -> bool)
    requires hit(r)
    ensures Occurrences([r], hit) == 1
  {
    assert [r][1..] == [];
  }

  lemma {:induction false} OccurrencesAny(list: seq<Resting>, hit: Resting -> bool)
    ensures (exists j :: 0 <= j < |list| && hit(list[j])) <==> Occurrences(list, hit) >= 1
  {
    if list != [] {
      OccurrencesAny(list[1..], hit);
      assert forall j :: 0 < j < |list| ==> list[j] == list[1..][j - 1];
      if j :| 0 <= j < |list| && hit(list[j]) {
        if j > 0 {
          assert hit(list[1..][j - 1]);
        }
      }
    }
  }

  lemma {:induction false} KeyErrorNone(all: seq<Resting>, from: nat)
    ensures KeyError(all, from).None? <==>
            forall i, j :: from <= i < |all| && 0 <= j < |all| && i != j ==>
              all[i].order.id != all[j].order.id && all[i].order.sequence != all[j].order.sequence
    decreases |all| - from
  {
    if from < |all| {
      OccurrencesAt(all, (r: Resting) => r.order.id == all[from].order.id, from);
      OccurrencesAt(all, (r: Resting) => r.order.sequence == all[from].order.sequence, from);
      KeyErrorNone(all, from + 1);
    }
  }

  // Which states are accepted, and what they rebuild to.

  lemma {:induction false} LevelAcceptedIff(l: BookLevelState, side: Side, shape: Shape)
    ensures LevelAccepted(l, side, shape) <==>
            && GoodLevel(Level(l.price, ImportOrders(l.orders)), shape, U64_BOUND)
            && l == BookLevelState(side, l.price, ExportOrders(side, l.price, ImportOrders(l.orders)))
  {
    if LevelAccepted(l, side, shape) {
      forall i: nat, j: nat | i < j < |l.orders| ensures l.orders[i].sequence < l.orders[j].sequence {
        AgingYoung(l.orders, i, j);
      }
      assert l.orders == ExportOrders(side, l.price, ImportOrders(l.orders));
    }
    if GoodLevel(Level(l.price, ImportOrders(l.orders)), shape, U64_BOUND) {
      forall i, j | 0 <= i && j == i + 1 && j < |l.orders| ensures l.orders[i].sequence < l.orders[j].sequence {
        assert ImportOrders(l.orders)[i].sequence < ImportOrders(l.orders)[j].sequence;
      }
      forall j | 0 <= j < |l.orders| ensures l.orders[j].quantity > 0 && l.orders[j].sequence > 0 {
        assert ImportOrders(l.orders)[j].quantity > 0;
      }
    }
  }

  lemma {:induction false} SideAcceptedIff(levels: seq<BookLevelState>, side: Side, shape: Shape)
    ensures |levels| <= shape.levels && SideError(levels, side, shape, None).None? <==>
            GoodSide(side, ImportSide(levels), shape, U64_BOUND) && levels == ExportSide(side, ImportSide(levels))
  {
    hide SideError, LevelAccepted, GoodLevel;
    SideErrorNone(levels, side, shape, None);
    forall i | 0 <= i < |levels|
      ensures LevelAccepted(levels[i], side, shape) <==>
              GoodLevel(ImportSide(levels)[i], shape, U64_BOUND) && levels[i] == ExportSide(side, ImportSide(levels))[i]
    {
      LevelAcceptedIff(levels[i], side, shape);
    }
    SortedDescends(levels, side);
  }

  lemma {:induction false} SortedDescends(levels: seq<BookLevelState>, side: Side)
    ensures Descends(side, levels, None) <==> Sorted(side, ImportSide(levels))
  {
    if Descends(side, levels, None) {
      forall i, j | 0 <= i < j < |levels| ensures Better(side, levels[i].price, levels[j].price) {
        DescendsSorted(side, levels, i, j);
      }
    }
    if Sorted(side, ImportSide(levels)) {
      forall i, j | 0 <= i < j < |levels| && j == i + 1 ensures Better(side, levels[i].price, levels[j].price) {
        assert Better(side, ImportSide(levels)[i].price, ImportSide(levels)[j].price);
      }
    }
  }

  lemma {:induction false} KeysIff(x: seq<Resting>, y: seq<Resting>)
    ensures KeyError(x + y, 0).None? <==> DistinctKeys(x) && DistinctKeys(y) && Apart(x, y)
  {
    KeyErrorNone(x + y, 0);
    hide KeyError;
    var all := x + y;
    if KeyError(all, 0).None? {
      forall i, j | 0 <= i < j < |y| ensures y[i].order.id != y[j].order.id && y[i].order.sequence != y[j].order.sequence {
        assert all[|x| + i] == y[i] && all[|x| + j] == y[j];
      }
      forall i, j | 0 <= i < j < |x| ensures x[i].order.id != x[j].order.id && x[i].order.sequence != x[j].order.sequence {
        assert all[i] == x[i] && all[j] == x[j];
      }
      forall r, t | r in x && t in y ensures r.order.id != t.order.id && r.order.sequence != t.order.sequence {
        var i :| 0 <= i < |x| && x[i] == r;
        var j :| 0 <= j < |y| && y[j] == t;
        assert all[i] == r && all[|x| + j] == t;
      }
    }
    if DistinctKeys(x) && DistinctKeys(y) && Apart(x, y) {
      forall i, j | 0 <= i < |all| && 0 <= j < |all| && i != j
        ensures all[i].order.id != all[j].order.id && all[i].order.sequence != all[j].order.sequence
      {
        if i < |x| && j < |x| {
          assert all[i] == x[i] && all[j] == x[j];
        } else if i >= |x| && j >= |x| {
          assert all[i] == y[i - |x|] && all[j] == y[j - |x|];
        } else if i < |x| {
          assert x[i] in x && y[j - |x|] in y;
        } else {
          assert y[i - |x|] in y && x[j] in x;
        }
      }
    }
  }

  /** A state passes validation if and only if it is the export of a sound book. */
  lemma {:induction false} AcceptedIffExport(s: BookState, shape: Shape)
    ensures StateError(s, shape).None? <==>
            SoundBook(ImportBook(s), shape, U64_BOUND) && s == ExportBook(s.instrument, ImportBook(s))
  {
    hide SideError, GoodSide, KeyError, Flatten, DistinctKeys, Apart;
    SideAcceptedIff(s.bids, Buy, shape);
    SideAcceptedIff(s.asks, Sell, shape);
    KeysIff(Flatten(ImportSide(s.bids)), Flatten(ImportSide(s.asks)));
  }

  lemma {:induction false} ImportExportSide(side: Side, levels: seq<Level>)
    ensures ImportSide(ExportSide(side, levels)) == levels
  {
    var back := ImportSide(ExportSide(side, levels));
    forall i | 0 <= i < |levels| ensures back[i] == levels[i] {
      assert ImportOrders(ExportOrders(side, levels[i].price, levels[i].orders)) == levels[i].orders;
    }
  }

  lemma {:induction false} ImportExport(instrument: InstrumentId, b: Book)
    ensures ImportBook(ExportBook(instrument, b)) == b
  {
    ImportExportSide(Buy, b.bids);
    ImportExportSide(Sell, b.asks);
  }

  /** Every sound book's export is accepted and rebuilds that book. */
  lemma {:induction false} SoundRestores(instrument: InstrumentId, b: Book, shape: Shape, next: int)
    requires SoundBook(b, shape, next) && next <= U64_BOUND
    ensures StateError(ExportBook(instrument, b), shape).None? && ImportBook(ExportBook(instrument, b)) == b
  {
    hide StateError, SoundBook;
    ImportExport(instrument, b);
    SoundLater(b, shape, next, U64_BOUND);
    AcceptedIffExport(ExportBook(instrument, b), shape);
  }

  // Rebuilding, order by order.

  /** The first `i` levels and `j` orders of the next. */
  function Partial(levels: seq<Level>, i: nat, j: nat): seq<Level>
    requires i <= |levels| && (j > 0 ==> i < |levels| && j <= |levels[i].orders|)
  {
    if j == 0 then levels[..i] else levels[..i] + [Level(levels[i].price, levels[i].orders[..j])]
  }

  lemma {:induction false} PartialStep(side: Side, levels: seq<Level>, i: nat, j: nat)
    requires Sorted(side, levels) && InLevels(levels, i, j)
    ensures AddOrder(side, Partial(levels, i, j), levels[i].price, levels[i].orders[j]) == Partial(levels, i, j + 1)
    ensures HasPrice(side, Partial(levels, i, j), levels[i].price) <==> j > 0
    ensures j > 0 ==> Place(side, Partial(levels, i, j), levels[i].price) == i
  {
    var p := Partial(levels, i, j);
    var at := Place(side, p, levels[i].price);
    assert forall k :: 0 <= k < i ==> Better(side, p[k].price, levels[i].price);
    assert levels[i].orders[..j + 1] == levels[i].orders[..j] + [levels[i].orders[j]];
    var o := levels[i].orders[j];
    if j == 0 {
      assert levels[i].orders[..1] == [o];
      assert InsertAt(p, i, Level(levels[i].price, [o])) == p + [Level(levels[i].price, [o])];
    } else {
      assert p[i].orders == levels[i].orders[..j] && at == i;
      assert p[i := Level(levels[i].price, levels[i].orders[..j + 1])] == Partial(levels, i, j + 1);
    }
  }

  lemma {:induction false} PartialRoom(side: Side, levels: seq<Level>, i: nat, j: nat, shape: Shape)
    requires Fits(side, levels, shape) && InLevels(levels, i, j)
    ensures RestRejection(side, Partial(levels, i, j), levels[i].price, shape).None?
  {
    PartialStep(side, levels, i, j);
    hide AddOrder, HasPrice, Place;
  }

  lemma {:induction false} PartialNext(levels: seq<Level>, i: nat)
    requires i < |levels| && levels[i].orders != []
    ensures Partial(levels, i, |levels[i].orders|) == Partial(levels, i + 1, 0)
  {
    assert levels[i].orders[..|levels[i].orders|] == levels[i].orders;
  }

  lemma {:induction false} OffsetsGrow(levels: seq<Level>, a: nat, i: nat)
    requires a < i <= |levels|
    ensures Offset(levels, a) + |levels[a].orders| <= Offset(levels, i)
  {
    if a > 0 {
      OffsetsGrow(levels[1..], a - 1, i - 1);
    }
  }

  lemma {:induction false} PartialFresh(levels: seq<Level>, i: nat, j: nat)
    requires DistinctKeys(Flatten(levels)) && InLevels(levels, i, j)
    ensures !HasId(Partial(levels, i, j), levels[i].orders[j].id)
  {
    hide Flatten, HasId;
    var id := levels[i].orders[j].id;
    FindLevelIffHasId(Partial(levels, i, j), id);
    var at := FindLevel(Partial(levels, i, j), id);
    if at.Some? {
      var (a, b) := at.value;
      FlattenAt(levels, a, b);
      FlattenAt(levels, i, j);
      if a < i {
        OffsetsGrow(levels, a, i);
      }
    }
  }

  /** Rebuilds one side, level by level and oldest order first. */
  method RestoreSide(book: OrderBook, side: Side, ghost whole: Book, state: seq<BookLevelState>)
    requires book.Valid() && SoundBook(whole, book.shape, U64_BOUND) && whole.At(side) == ImportSide(state)
    requires book.View() == if side == Buy then Book([], []) else Book(whole.bids, [])
    modifies book`bids, book`asks, book.bidLevels, book.askLevels, book.index.slots
    ensures book.Valid()
    ensures book.View() == if side == Buy then Book(whole.bids, []) else whole
  {
    hide SideOk, Coupled, Stocked, SideView, GoodSide, Flatten, DistinctKeys, Apart, HasId, RestRejection, AddOrder, ImportOrders;
    ghost var levels := whole.At(side);
    ghost var rest := book.View().At(side.Opposite());
    RestoreFacts(whole, side, book.shape);
    var i := 0;
    while i < |state|
      invariant 0 <= i <= |state| && book.Valid()
      invariant book.View().At(side.Opposite()) == rest && book.View().At(side) == Partial(levels, i, 0)
    {
      var orders := state[i].orders;
      assert levels[i].orders == ImportOrders(orders);
      var j := 0;
      while j < |orders|
        invariant 0 <= j <= |orders| && book.Valid()
        invariant book.View().At(side.Opposite()) == rest && book.View().At(side) == Partial(levels, i, j)
      {
        RestoreStep(whole, book.View(), side, book.shape, i, j);
        var o := orders[j];
        book.Rest(NewOrder(o.id, o.account, book.instrument, state[i].price, o.quantity, o.sequence, side, Gtc), o.quantity);
        PartialStep(side, levels, i, j);
        j := j + 1;
      }
      PartialNext(levels, i);
      i := i + 1;
    }
    assert levels[..|levels|] == levels;
  }

  lemma {:induction false} RestoreFacts(whole: Book, side: Side, shape: Shape)
    requires SoundBook(whole, shape, U64_BOUND)
    ensures Fits(side, whole.At(side), shape) && Sorted(side, whole.At(side)) && Stocked(whole.At(side))
    ensures forall i :: 0 <= i < |whole.At(side)| ==> whole.At(side)[i].orders != []
    ensures DistinctKeys(Flatten(whole.At(side)))
  {
    hide Flatten, DistinctKeys, Apart, Stocked;
    SoundFits(side, whole.At(side), shape, U64_BOUND);
    GoodStocked(side, whole.At(side), shape, U64_BOUND);
  }

  /** The next order of a state being rebuilt is new to the book and has room. */
  lemma {:induction false} RestoreStep(whole: Book, view: Book, side: Side, shape: Shape, i: nat, j: nat)
    requires SoundBook(whole, shape, U64_BOUND) && InLevels(whole.At(side), i, j)
    requires view.At(side) == Partial(whole.At(side), i, j)
    requires view.At(side.Opposite()) == if side == Buy then [] else whole.bids
    ensures !Contains(view, whole.At(side)[i].orders[j].id) && whole.At(side)[i].orders[j].quantity > 0
    ensures RestRejection(side, view.At(side), whole.At(side)[i].price, shape).None?
  {
    hide Flatten, DistinctKeys, Apart, HasId, RestRejection, Contains, SoundBook;
    var levels := whole.At(side);
    RestoreFacts(whole, side, shape);
    assert StockedLevel(levels[i]);
    PartialRoom(side, levels, i, j, shape);
    PartialFresh(levels, i, j);
    SoundApart(whole, shape);
    OppositeId(whole, Position(side, i, j));
    NoIds(levels[i].orders[j].id);
    ContainsIffHasId(view, levels[i].orders[j].id);
  }

  lemma {:induction false} SoundApart(whole: Book, shape: Shape)
    requires SoundBook(whole, shape, U64_BOUND)
    ensures Apart(Flatten(whole.bids), Flatten(whole.asks))
  {
  }

  lemma {:induction false} NoIds(id: OrderId)
    ensures !HasId([], id)
  {
  }

  /** Builds a book from exported state; the book is complete or absent. */
  method RestoreBook(instrument: InstrumentId, shape: Shape, state: BookState) returns (r: Result<OrderBook, BookStateError>)
    requires 0 < shape.orders < NIL && PLANES * (shape.levels * shape.orders) <= U32_BOUND
    ensures state.instrument != instrument ==> r == Err(WrongInstrument)
    ensures state.instrument == instrument && StateError(state, shape).Some? ==> r == Err(StateError(state, shape).value)
    ensures state.instrument == instrument && StateError(state, shape).None? ==> r.Ok?
    ensures r.Ok? ==> fresh(r.value) && r.value.Valid() && r.value.shape == shape && r.value.instrument == instrument
    ensures r.Ok? ==> fresh(r.value.index) && fresh(r.value.index.slots) && fresh(r.value.bidLevels) && fresh(r.value.askLevels)
    ensures r.Ok? ==> ExportBook(instrument, r.value.View()) == state && SoundBook(r.value.View(), shape, U64_BOUND)
  {
    hide SideOk, Coupled, Stocked, SideView, StateError, SoundBook, ExportSide, ImportSide;
    if state.instrument != instrument {
      return Err(WrongInstrument);
    }
    var defect := StateError(state, shape);
    if defect.Some? {
      return Err(defect.value);
    }
    AcceptedIffExport(state, shape);
    var book := new OrderBook(instrument, shape);
    ghost var whole := ImportBook(state);
    RestoreSide(book, Buy, whole, state.bids);
    RestoreSide(book, Sell, whole, state.asks);
    r := Ok(book);
  }
}
