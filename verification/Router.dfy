/** The route table: one instrument a shard, looked up by dense offset when the
    instrument ids are contiguous and by binary search otherwise. */
module Routers {
  import opened Types

  type ShardId = U16

  datatype Route = Route(instrument: InstrumentId, shard: ShardId)

  datatype RouteTable = RouteTable(byInstrument: seq<Route>, byShard: seq<U16>, dense: bool)

  datatype RouteTableError =
    | NoShards
    | TooManyShards
    | InvalidShardId(shard: ShardId)
    | DuplicateShardId(shard: ShardId)
    | DuplicateInstrument(instrument: InstrumentId)

  const MAX_SHARDS: nat := U16_BOUND

  // What a table is built from.

  predicate DistinctShards(routes: seq<Route>) {
    forall i, j :: 0 <= i < j < |routes| ==> routes[i].shard != routes[j].shard
  }

  predicate DistinctInstruments(routes: seq<Route>) {
    forall i, j :: 0 <= i < j < |routes| ==> routes[i].instrument != routes[j].instrument
  }

  predicate ShardsBelow(routes: seq<Route>, n: nat) {
    forall i :: 0 <= i < |routes| ==> routes[i].shard < n
  }

  /** Exactly one instrument a shard, and every shard of `0..n` once. */
  predicate Proper(routes: seq<Route>) {
    0 < |routes| <= MAX_SHARDS && ShardsBelow(routes, |routes|) && DistinctShards(routes) && DistinctInstruments(routes)
  }

  predicate Strict(routes: seq<Route>) {
    forall i, j :: 0 <= i < j < |routes| ==> routes[i].instrument < routes[j].instrument
  }

  /** A table of `routes`: the same routes by instrument, their positions by shard. */
  ghost predicate IsTable(t: RouteTable, routes: seq<Route>) {
    && Proper(routes) && multiset(t.byInstrument) == multiset(routes) && |t.byInstrument| == |routes|
    && Strict(t.byInstrument)
    && Indexed(t.byInstrument, t.byShard)
    && (t.dense <==> t.byInstrument[|routes| - 1].instrument - t.byInstrument[0].instrument == |routes| - 1)
  }

  predicate Indexed(routes: seq<Route>, byShard: seq<U16>) {
    && |byShard| == |routes|
    && forall i :: 0 <= i < |routes| ==> routes[i].shard < |byShard| && byShard[routes[i].shard] == i
  }

  /** Why the first offending route is refused; ties are decided in input order, repeated
      instruments by the least one. */
  ghost predicate Explains(e: RouteTableError, routes: seq<Route>) {
    match e
    case NoShards => routes == []
    case TooManyShards => |routes| > MAX_SHARDS
    case InvalidShardId(s) => exists k :: FirstBadShard(routes, k) && routes[k].shard == s >= |routes|
    case DuplicateShardId(s) => exists k :: FirstBadShard(routes, k) && routes[k].shard == s < |routes|
    case DuplicateInstrument(x) =>
      && ShardsBelow(routes, |routes|) && DistinctShards(routes)
      && Repeated(routes, x) && forall y: InstrumentId :: Repeated(routes, y) ==> x <= y
  }

  /** Up to `k` the shards are valid and distinct, with `k` they are not. */
  predicate FirstBadShard(routes: seq<Route>, k: int) {
    && 0 <= k < |routes|
    && ShardsBelow(routes[..k], |routes|) && DistinctShards(routes[..k])
    && (routes[k].shard >= |routes| || exists j :: 0 <= j < k && routes[j].shard == routes[k].shard)
  }

  predicate Repeated(routes: seq<Route>, x: InstrumentId) {
    exists i, j :: 0 <= i < j < |routes| && routes[i].instrument == routes[j].instrument == x
  }

  // Sorting.

  function InsertRoute(r: Route, sorted: seq<Route>): seq<Route> {
    if sorted == [] then [r]
    else if r.instrument <= sorted[0].instrument then [r] + sorted
    else [sorted[0]] + InsertRoute(r, sorted[1..])
  }

  function SortRoutes(routes: seq<Route>): seq<Route> {
    if routes == [] then [] else InsertRoute(routes[0], SortRoutes(routes[1..]))
  }

  predicate SortedRoutes(routes: seq<Route>) {
    forall i, j :: 0 <= i < j < |routes| ==> routes[i].instrument <= routes[j].instrument
  }

  lemma {:induction false} InsertBag(r: Route, sorted: seq<Route>)
    ensures multiset(InsertRoute(r, sorted)) == multiset{r} + multiset(sorted)
    ensures InsertRoute(r, sorted) != []
  {
    if sorted == [] {
    } else if r.instrument <= sorted[0].instrument {
      ConsBag(r, sorted);
    } else {
      var x, rest := sorted[0], sorted[1..];
      InsertBag(r, rest);
      ConsBag(x, InsertRoute(r, rest));
      ConsBag(x, rest);
      assert sorted == [x] + rest;
      SwapRoutes(x, r, multiset(rest));
    }
  }

  lemma {:induction false} SwapRoutes(x: Route, r: Route, m: multiset<Route>)
    ensures multiset{x} + (multiset{r} + m) == multiset{r} + (multiset{x} + m)
  {
  }

  lemma {:induction false} ConsBag(x: Route, rest: seq<Route>)
    ensures multiset([x] + rest) == multiset{x} + multiset(rest)
  {
  }

  lemma {:induction false} InsertSorts(r: Route, sorted: seq<Route>)
    requires SortedRoutes(sorted)
    ensures SortedRoutes(InsertRoute(r, sorted))
    ensures InsertRoute(r, sorted)[0].instrument == if sorted == [] || r.instrument <= sorted[0].instrument then r.instrument else sorted[0].instrument
  {
    if sorted != [] && r.instrument > sorted[0].instrument {
      InsertSorts(r, sorted[1..]);
      Prepended(sorted[0], InsertRoute(r, sorted[1..]));
    }
  }

  lemma {:induction false} Prepended(r: Route, rest: seq<Route>)
    requires SortedRoutes(rest) && rest != [] && r.instrument <= rest[0].instrument
    ensures SortedRoutes([r] + rest)
  {
  }

  lemma {:induction false} SortBag(routes: seq<Route>)
    ensures multiset(SortRoutes(routes)) == multiset(routes)
  {
    if routes != [] {
      var x, rest := routes[0], routes[1..];
      assert routes == [x] + rest;
      SortBag(rest);
      InsertBag(x, SortRoutes(rest));
      ConsBag(x, rest);
    }
  }

  lemma {:induction false} SortAscends(routes: seq<Route>)
    ensures SortedRoutes(SortRoutes(routes))
  {
    if routes != [] {
      SortAscends(routes[1..]);
      InsertSorts(routes[0], SortRoutes(routes[1..]));
    }
  }

  lemma {:induction false} SortSorts(routes: seq<Route>)
    ensures SortedRoutes(SortRoutes(routes)) && multiset(SortRoutes(routes)) == multiset(routes) && |SortRoutes(routes)| == |routes|
  {
    hide SortRoutes, SortedRoutes;
    SortBag(routes);
    SortAscends(routes);
    SameSize(routes, SortRoutes(routes));
  }

  // What survives reordering.

  lemma {:induction false} TwoPlaces(s: seq<Route>, x: Route)
    requires multiset(s)[x] >= 2
    ensures exists i, j :: 0 <= i < j < |s| && s[i] == s[j] == x
  {
    var n := |s| - 1;
    assert s == s[..n] + [s[n]];
    if s[n] == x {
      assert x in multiset(s[..n]);
      var i :| 0 <= i < n && s[..n][i] == x;
      assert s[i] == s[n] == x;
    } else {
      TwoPlaces(s[..n], x);
      var i, j :| 0 <= i < j < n && s[..n][i] == s[..n][j] == x;
      assert s[i] == s[j] == x;
    }
  }

  lemma {:induction false} CountedTwice(s: seq<Route>, i: nat, j: nat)
    requires i < j < |s| && s[i] == s[j]
    ensures multiset(s)[s[i]] >= 2
  {
    assert s == s[..j] + [s[j]] + s[j + 1..];
    assert s[..j][i] == s[i];
    assert s[i] in multiset(s[..j]);
  }

  /** Two places of `b` come from two places of `a`. */
  lemma {:induction false} Moved(a: seq<Route>, b: seq<Route>, i: nat, j: nat) returns (p: nat, q: nat)
    requires multiset(a) == multiset(b) && i < j < |b|
    ensures p < |a| && q < |a| && p != q && a[p] == b[i] && a[q] == b[j]
  {
    if b[i] == b[j] {
      CountedTwice(b, i, j);
      TwoPlaces(a, b[i]);
      p, q :| 0 <= p < q < |a| && a[p] == a[q] == b[i];
    } else {
      assert b[i] in multiset(b) && b[j] in multiset(b);
      assert b[i] in a && b[j] in a;
      p :| 0 <= p < |a| && a[p] == b[i];
      q :| 0 <= q < |a| && a[q] == b[j];
    }
  }

  lemma {:induction false} Reordered(a: seq<Route>, b: seq<Route>)
    requires multiset(a) == multiset(b)
    ensures DistinctShards(a) ==> DistinctShards(b)
    ensures forall n: nat :: ShardsBelow(a, n) ==> ShardsBelow(b, n)
    ensures forall x: InstrumentId :: Repeated(b, x) ==> Repeated(a, x)
    ensures DistinctInstruments(a) ==> DistinctInstruments(b)
  {
    forall i | 0 <= i < |b| ensures b[i] in a {
      assert b[i] in multiset(b);
    }
    forall i, j | 0 <= i < j < |b|
      ensures DistinctShards(a) ==> b[i].shard != b[j].shard
      ensures DistinctInstruments(a) ==> b[i].instrument != b[j].instrument
      ensures b[i].instrument == b[j].instrument ==> Repeated(a, b[i].instrument)
    {
      var p, q := Moved(a, b, i, j);
      var l, h := if p < q then p else q, if p < q then q else p;
      assert a[l].shard != a[h].shard || !DistinctShards(a);
      assert a[l].instrument != a[h].instrument || !DistinctInstruments(a);
    }
  }

  /** As many distinct shards below `n` as there are shards: each occurs. */
  lemma {:induction false} EveryShard(routes: seq<Route>, s: nat)
    requires ShardsBelow(routes, |routes|) && DistinctShards(routes) && s < |routes|
    ensures exists i :: 0 <= i < |routes| && routes[i].shard == s
  {
    var used := ShardsUsed(routes);
    assert used <= Range(|routes|);
    assert |Range(|routes|) - used| == 0;
    assert s in Range(|routes|);
  }

  /** The shards of `routes`, which are as many as the routes when they are distinct. */
  ghost function ShardsUsed(routes: seq<Route>): (used: set<int>)
    ensures forall s :: s in used <==> exists i :: 0 <= i < |routes| && routes[i].shard == s
    ensures DistinctShards(routes) ==> |used| == |routes|
  {
    if routes == [] then {}
    else
      var n := |routes| - 1;
      assert forall i :: 0 <= i < n ==> routes[..n][i] == routes[i];
      ShardsUsed(routes[..n]) + {routes[n].shard as int}
  }

  ghost function Range(n: nat): (s: set<int>)
    ensures |s| == n
    ensures forall x :: x in s <==> 0 <= x < n
  {
    if n == 0 then {} else Range(n - 1) + {n - 1}
  }

  // Building.

  /** Builds the table, or says what is wrong with the routes. */
  method TryNew(routes: seq<Route>) returns (r: Result<RouteTable, RouteTableError>)
    ensures r.Ok? <==> Proper(routes)
    ensures r.Ok? ==> IsTable(r.value, routes)
    ensures r.Err? ==> Explains(r.error, routes)
  {
    hide IsTable, SortRoutes, Strict, Indexed, ShardsBelow, DistinctShards, DistinctInstruments, Repeated;
    var n := |routes|;
    if n == 0 {
      return Err(NoShards);
    }
    if n > MAX_SHARDS {
      return Err(TooManyShards);
    }
    var refused := CheckShards(routes);
    if refused.Some? {
      return Err(refused.value);
    }
    var sorted := SortRoutes(routes);
    SortSorts(routes);
    Reordered(routes, sorted);
    Reordered(sorted, routes);
    for i := 1 to n
      invariant forall j :: 0 < j < i ==> sorted[j - 1].instrument < sorted[j].instrument
    {
      if sorted[i - 1].instrument == sorted[i].instrument {
        RepeatedRefused(routes, sorted, i);
        return Err(DuplicateInstrument(sorted[i].instrument));
      }
    }
    StrictlyAscending(sorted, n);
    var byShard := PlaceShards(sorted);
    var dense := sorted[n - 1].instrument - sorted[0].instrument == n - 1;
    r := Ok(RouteTable(sorted, byShard, dense));
    BuiltTable(r.value, routes);
  }

  lemma {:induction false} RepeatedRefused(routes: seq<Route>, sorted: seq<Route>, k: nat)
    requires multiset(sorted) == multiset(routes) && SortedRoutes(sorted)
    requires ShardsBelow(routes, |routes|) && DistinctShards(routes)
    requires 0 < k < |sorted| && sorted[k - 1].instrument == sorted[k].instrument
    requires forall j :: 0 < j < k ==> sorted[j - 1].instrument < sorted[j].instrument
    ensures Explains(DuplicateInstrument(sorted[k].instrument), routes) && !DistinctInstruments(routes)
  {
    hide SortedRoutes, ShardsBelow, DistinctShards, DistinctInstruments, Repeated;
    Reordered(routes, sorted);
    Reordered(sorted, routes);
    LeastRepeated(sorted, k);
    RepeatedTwice(routes, sorted[k].instrument);
  }

  lemma {:induction false} RepeatedTwice(routes: seq<Route>, x: InstrumentId)
    requires Repeated(routes, x)
    ensures !DistinctInstruments(routes)
  {
  }

  lemma {:induction false} BuiltTable(t: RouteTable, routes: seq<Route>)
    requires Proper(routes) && multiset(t.byInstrument) == multiset(routes) && |t.byInstrument| == |routes| && Strict(t.byInstrument)
    requires Indexed(t.byInstrument, t.byShard)
    requires t.dense <==> t.byInstrument[|routes| - 1].instrument - t.byInstrument[0].instrument == |routes| - 1
    ensures IsTable(t, routes)
  {
  }

  /** Every shard below the number of routes, none twice. */
  method CheckShards(routes: seq<Route>) returns (refused: Option<RouteTableError>)
    requires 0 < |routes| <= MAX_SHARDS
    ensures refused.None? <==> ShardsBelow(routes, |routes|) && DistinctShards(routes)
    ensures refused.Some? ==> Explains(refused.value, routes)
  {
    var n := |routes|;
    var seen := new bool[n](_ => false);
    for k := 0 to n
      invariant ShardsBelow(routes[..k], n) && DistinctShards(routes[..k])
      invariant forall s :: 0 <= s < n ==> (seen[s] <==> exists j :: 0 <= j < k && routes[j].shard == s)
    {
      var shard := routes[k].shard;
      if shard >= n {
        assert FirstBadShard(routes, k);
        return Some(InvalidShardId(shard));
      }
      if seen[shard] {
        assert FirstBadShard(routes, k);
        return Some(DuplicateShardId(shard));
      }
      seen[shard] := true;
    }
    assert routes[..n] == routes;
    refused := None;
  }

  /** Each route's position, by its shard. */
  method PlaceShards(sorted: seq<Route>) returns (byShard: seq<U16>)
    requires 0 < |sorted| <= MAX_SHARDS && ShardsBelow(sorted, |sorted|) && DistinctShards(sorted)
    ensures Indexed(sorted, byShard)
  {
    var places := new U16[|sorted|](_ => 0);
    for i := 0 to |sorted|
      invariant forall j :: 0 <= j < i ==> places[sorted[j].shard] == j
    {
      places[sorted[i].shard] := i;
    }
    byShard := places[..];
  }

  lemma {:induction false} StrictlyAscending(sorted: seq<Route>, n: nat)
    requires n == |sorted| && forall j :: 0 < j < n ==> sorted[j - 1].instrument < sorted[j].instrument
    ensures Strict(sorted) && DistinctInstruments(sorted)
  {
    forall i, j | 0 <= i < j < n ensures sorted[i].instrument < sorted[j].instrument {
      ClimbFrom(sorted, i, j);
    }
  }

  lemma {:induction false} ClimbFrom(sorted: seq<Route>, i: nat, j: nat)
    requires i < j < |sorted| && forall k :: i < k <= j ==> sorted[k - 1].instrument < sorted[k].instrument
    ensures sorted[i].instrument < sorted[j].instrument
  {
    if i + 1 < j {
      ClimbFrom(sorted, i, j - 1);
    }
  }

  /** The first repeated neighbours of an ascending list are its least repeated id. */
  lemma {:induction false} LeastRepeated(sorted: seq<Route>, k: nat)
    requires SortedRoutes(sorted) && 0 < k < |sorted| && sorted[k - 1].instrument == sorted[k].instrument
    requires forall j :: 0 < j < k ==> sorted[j - 1].instrument < sorted[j].instrument
    ensures Repeated(sorted, sorted[k].instrument)
    ensures forall y: InstrumentId :: Repeated(sorted, y) ==> sorted[k].instrument <= y
  {
    forall y: InstrumentId | Repeated(sorted, y) ensures sorted[k].instrument <= y {
      var i, j :| 0 <= i < j < |sorted| && sorted[i].instrument == sorted[j].instrument == y;
      if j < k {
        ClimbFrom(sorted, i, j);
      }
    }
  }

  // Looking up.

  /** The place of `id` among routes sorted by instrument. */
  function Search(routes: seq<Route>, id: InstrumentId, low: nat, high: nat): Option<nat>
    requires low <= high <= |routes|
    decreases high - low
  {
    if low == high then None
    else
      var mid := low + (high - low) / 2;
      if routes[mid].instrument < id then Search(routes, id, mid + 1, high)
      else if routes[mid].instrument > id then Search(routes, id, low, mid)
      else Some(mid)
  }

  function ShardFor(t: RouteTable, id: InstrumentId): Option<ShardId>
    requires t.byInstrument != []
  {
    if t.dense then
      if id < t.byInstrument[0].instrument then None
      else
        var offset := id - t.byInstrument[0].instrument;
        if offset < |t.byInstrument| then Some(t.byInstrument[offset].shard) else None
    else
      SearchInRange(t.byInstrument, id, 0, |t.byInstrument|);
      match Search(t.byInstrument, id, 0, |t.byInstrument|)
      case None => None
      case Some(i) => Some(t.byInstrument[i].shard)
  }

  function InstrumentFor(t: RouteTable, shard: ShardId): Option<InstrumentId> {
    if shard >= |t.byShard| || t.byShard[shard] >= |t.byInstrument| then None
    else Some(t.byInstrument[t.byShard[shard]].instrument)
  }

  lemma {:induction false} SearchInRange(routes: seq<Route>, id: InstrumentId, low: nat, high: nat)
    requires low <= high <= |routes|
    ensures var i := Search(routes, id, low, high); i.Some? ==> low <= i.value < high && routes[i.value].instrument == id
    decreases high - low
  {
    if low < high {
      var mid := low + (high - low) / 2;
      if routes[mid].instrument < id {
        SearchInRange(routes, id, mid + 1, high);
      } else if routes[mid].instrument > id {
        SearchInRange(routes, id, low, mid);
      }
    }
  }

  /** Binary search misses nothing in sorted routes. */
  lemma {:induction false} SearchFinds(routes: seq<Route>, id: InstrumentId, low: nat, high: nat)
    requires low <= high <= |routes| && Strict(routes) && Search(routes, id, low, high).None?
    ensures forall i :: low <= i < high ==> routes[i].instrument != id
    decreases high - low
  {
    if low < high {
      var mid := low + (high - low) / 2;
      if routes[mid].instrument < id {
        SearchFinds(routes, id, mid + 1, high);
      } else {
        SearchFinds(routes, id, low, mid);
      }
    }
  }

  /** Distinct sorted ids that span one less than their number are contiguous. */
  lemma {:induction false} SpanIsContiguous(routes: seq<Route>, i: nat)
    requires Strict(routes) && i < |routes|
    requires routes[|routes| - 1].instrument - routes[0].instrument == |routes| - 1
    ensures routes[i].instrument == routes[0].instrument + i
  {
    AtLeast(routes, 0, i);
    AtLeast(routes, i, |routes| - 1);
  }

  lemma {:induction false} AtLeast(routes: seq<Route>, i: nat, j: nat)
    requires Strict(routes) && i <= j < |routes|
    ensures routes[j].instrument >= routes[i].instrument + (j - i)
    decreases j - i
  {
    if i < j {
      AtLeast(routes, i, j - 1);
    }
  }

  /** Looking `id` up route by route, in any order. */
  function ScanRoutes(routes: seq<Route>, id: InstrumentId): Option<ShardId> {
    if routes == [] then None
    else if routes[0].instrument == id then Some(routes[0].shard)
    else ScanRoutes(routes[1..], id)
  }

  lemma {:induction false} ScanIs(routes: seq<Route>, id: InstrumentId)
    ensures ScanRoutes(routes, id).None? ==> forall i :: 0 <= i < |routes| ==> routes[i].instrument != id
    ensures ScanRoutes(routes, id).Some? ==> Route(id, ScanRoutes(routes, id).value) in routes
  {
    if routes != [] && routes[0].instrument != id {
      ScanIs(routes[1..], id);
    }
  }

  /** The fast lookup is the linear scan of the routes the table was built from,
      whichever form it takes and whatever order they came in. */
  lemma {:induction false} LookupIsScan(t: RouteTable, routes: seq<Route>, id: InstrumentId)
    requires IsTable(t, routes)
    ensures ShardFor(t, id) == ScanRoutes(routes, id)
  {
    var found := ShardFor(t, id);
    LookupIs(t, routes, id);
    ScanIs(routes, id);
    hide ShardFor, ScanRoutes;
    if found.Some? {
      var i :| 0 <= i < |routes| && routes[i] == Route(id, found.value);
      if ScanRoutes(routes, id).Some? {
        var j :| 0 <= j < |routes| && routes[j] == Route(id, ScanRoutes(routes, id).value);
        assert i == j;
      }
    }
  }

  lemma {:induction false} LookupIs(t: RouteTable, routes: seq<Route>, id: InstrumentId)
    requires IsTable(t, routes)
    ensures ShardFor(t, id).None? ==> forall i :: 0 <= i < |routes| ==> routes[i].instrument != id
    ensures ShardFor(t, id).Some? ==> Route(id, ShardFor(t, id).value) in routes
  {
    PlacedLookup(t, id);
    hide ShardFor, Strict, Indexed;
    if ShardFor(t, id).Some? {
      assert Route(id, ShardFor(t, id).value) in multiset(t.byInstrument);
    } else {
      forall i | 0 <= i < |routes| ensures routes[i].instrument != id {
        assert routes[i] in multiset(t.byInstrument);
      }
    }
  }

  lemma {:induction false} PlacedLookup(t: RouteTable, id: InstrumentId)
    requires Strict(t.byInstrument) && t.byInstrument != []
    requires t.dense ==> t.byInstrument[|t.byInstrument| - 1].instrument - t.byInstrument[0].instrument == |t.byInstrument| - 1
    ensures ShardFor(t, id).None? ==> forall i :: 0 <= i < |t.byInstrument| ==> t.byInstrument[i].instrument != id
    ensures ShardFor(t, id).Some? ==> Route(id, ShardFor(t, id).value) in t.byInstrument
  {
    var n := |t.byInstrument|;
    if t.dense {
      forall i | 0 <= i < n ensures t.byInstrument[i].instrument == t.byInstrument[0].instrument + i {
        SpanIsContiguous(t.byInstrument, i);
      }
    } else {
      SearchInRange(t.byInstrument, id, 0, n);
      if Search(t.byInstrument, id, 0, n).None? {
        SearchFinds(t.byInstrument, id, 0, n);
      }
    }
  }

  /** The two lookups are inverse to each other, and every shard has its instrument. */
  lemma {:induction false} InverseLookups(t: RouteTable, routes: seq<Route>, id: InstrumentId, shard: ShardId)
    requires IsTable(t, routes)
    ensures ShardFor(t, id) == Some(shard) <==> InstrumentFor(t, shard) == Some(id)
    ensures InstrumentFor(t, shard).Some? <==> shard < |routes|
  {
    hide ShardFor, Strict;
    Reordered(routes, t.byInstrument);
    LookupIs(t, routes, id);
    assert forall r :: r in routes ==> r.shard < |routes|;
    if shard < |routes| {
      EveryShard(t.byInstrument, shard);
      var i :| 0 <= i < |t.byInstrument| && t.byInstrument[i].shard == shard;
      assert InstrumentFor(t, shard) == Some(t.byInstrument[i].instrument);
      assert t.byInstrument[i] in multiset(routes);
      var k :| 0 <= k < |routes| && routes[k] == t.byInstrument[i];
      if ShardFor(t, id) == Some(shard) {
        var j :| 0 <= j < |routes| && routes[j] == Route(id, shard);
        assert j == k;
      }
    }
  }

  // The table does not depend on input order.

  lemma {:induction false} SortedOnce(a: seq<Route>, b: seq<Route>)
    requires Strict(a) && Strict(b) && multiset(a) == multiset(b)
    ensures a == b
    decreases |a|
  {
    SameSize(a, b);
    if a != [] {
      FirstSame(a, b);
      var x, rest, more := a[0], a[1..], b[1..];
      assert a == [x] + rest && b == [x] + more;
      StrictTail(a);
      StrictTail(b);
      hide Strict;
      TailsSame(x, rest, more);
      SortedOnce(rest, more);
    }
  }

  lemma {:induction false} TailsSame(x: Route, a: seq<Route>, b: seq<Route>)
    requires multiset([x] + a) == multiset([x] + b)
    ensures multiset(a) == multiset(b)
  {
    ConsBag(x, a);
    ConsBag(x, b);
    assert multiset(a) == multiset{x} + multiset(a) - multiset{x};
    assert multiset(b) == multiset{x} + multiset(b) - multiset{x};
  }

  lemma {:induction false} SameSize(a: seq<Route>, b: seq<Route>)
    requires multiset(a) == multiset(b)
    ensures |a| == |b|
  {
    assert |multiset(a)| == |a| && |multiset(b)| == |b|;
  }

  lemma {:induction false} StrictTail(a: seq<Route>)
    requires Strict(a) && a != []
    ensures Strict(a[1..])
  {
  }

  /** The least route comes first in both. */
  lemma {:induction false} FirstSame(a: seq<Route>, b: seq<Route>)
    requires Strict(a) && Strict(b) && multiset(a) == multiset(b) && a != [] && b != []
    ensures a[0] == b[0]
  {
    assert a[0] in multiset(b) && b[0] in multiset(a);
    assert a[0] in b && b[0] in a;
    var i :| 0 <= i < |b| && b[i] == a[0];
    var j :| 0 <= j < |a| && a[j] == b[0];
  }

  /** Routes in any order give one table. */
  lemma {:induction false} OrderIndependent(a: seq<Route>, b: seq<Route>, t: RouteTable, u: RouteTable)
    requires IsTable(t, a) && IsTable(u, b) && multiset(a) == multiset(b)
    ensures t == u
  {
    SortedOnce(t.byInstrument, u.byInstrument);
    Reordered(a, t.byInstrument);
    forall s | 0 <= s < |t.byShard| ensures t.byShard[s] == u.byShard[s] {
      EveryShard(t.byInstrument, s);
      var i :| 0 <= i < |t.byInstrument| && t.byInstrument[i].shard == s;
    }
  }
}
