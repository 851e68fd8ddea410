/** Finite maps as canonical lists: strictly ascending keys, one record a key. */
module Tables {
  lemma {:induction false} KeysSize<K, V>(m: map<K, V>, n: map<K, V>)
    requires m.Keys == n.Keys
    ensures |m| == |n|
  {
    assert |m.Keys| == |m| && |n.Keys| == |n|;
  }

  lemma {:induction false} DropSize<K, V>(m: map<K, V>, k: K)
    requires k in m
    ensures |m - {k}| == |m| - 1
  {
    assert (m - {k}).Keys == m.Keys - {k};
    assert |m.Keys| == |m| && |(m - {k}).Keys| == |m - {k}|;
  }

  lemma {:induction false} AddSize<K, V>(m: map<K, V>, k: K, v: V)
    ensures |m[k := v]| == if k in m then |m| else |m| + 1
  {
    assert m[k := v].Keys == m.Keys + {k};
    assert |m.Keys| == |m| && |m[k := v].Keys| == |m[k := v]|;
  }

  /** The map a list of records stands for. */
  function Table<K(==), V>(list: seq<(K, V)>): map<K, V> {
    if list == [] then map[] else Table(list[..|list| - 1])[list[|list| - 1].0 := list[|list| - 1].1]
  }

  ghost predicate DistinctFirst<K(!new), V(!new)>(list: seq<(K, V)>) {
    forall i, j :: 0 <= i < j < |list| ==> list[i].0 != list[j].0
  }

  lemma {:induction false} TableIs<K(!new), V(!new)>(list: seq<(K, V)>)
    requires DistinctFirst(list)
    ensures Represents(list, Table(list)) && |Table(list)| == |list|
  {
    hide DistinctFirst, Represents;
    if list == [] {
      NoRecords<K, V>();
    } else {
      var front, last := list[..|list| - 1], list[|list| - 1];
      LastIsNew(list);
      TableIs(front);
      assert list == front + [(last.0, last.1)];
      RepresentsSnoc(front, Table(front), last.0, last.1);
      AddSize(Table(front), last.0, last.1);
    }
  }

  lemma {:induction false} NoRecords<K(!new), V(!new)>()
    ensures Represents<K, V>([], map[])
  {
  }

  lemma {:induction false} LastIsNew<K(!new), V(!new)>(list: seq<(K, V)>)
    requires DistinctFirst(list) && list != []
    ensures DistinctFirst(list[..|list| - 1])
    ensures var front := list[..|list| - 1];
            forall i :: 0 <= i < |front| ==> front[i].0 != list[|list| - 1].0
  {
  }

  lemma {:induction false} RepresentsSnoc<K(!new), V(!new)>(list: seq<(K, V)>, m: map<K, V>, k: K, v: V)
    requires Represents(list, m) && forall i :: 0 <= i < |list| ==> list[i].0 != k
    ensures k !in m && Represents(list + [(k, v)], m[k := v])
  {
    var more := list + [(k, v)];
    assert more[|list|].0 == k;
    forall x | x in m ensures exists i :: 0 <= i < |more| && more[i].0 == x {
      var i :| 0 <= i < |list| && list[i].0 == x;
      assert more[i].0 == x;
    }
  }

  /** Strictly ascending keys, which is how state is exported. */
  predicate Ascending<V>(list: seq<(int, V)>) {
    forall i, j :: 0 <= i < j < |list| ==> list[i].0 < list[j].0
  }

  lemma {:induction false} AscendingDistinct<V(!new)>(list: seq<(int, V)>)
    requires Ascending(list)
    ensures DistinctFirst(list)
  {
  }

  const KEY_BOUND: int := 0x1_0000_0000_0000_0000

  ghost predicate KeysWithin<V>(m: map<int, V>) {
    forall k :: k in m ==> 0 <= k < KEY_BOUND
  }

  /** The records of `m` with keys from `from` on, in key order. */
  ghost function ListFrom<V>(m: map<int, V>, from: int): (list: seq<(int, V)>)
    ensures forall i :: 0 <= i < |list| ==> from <= list[i].0 < KEY_BOUND && list[i].0 in m && list[i].1 == m[list[i].0]
    ensures Ascending(list)
    decreases KEY_BOUND - from
  {
    if from >= KEY_BOUND then []
    else if from in m then [(from, m[from])] + ListFrom(m, from + 1)
    else ListFrom(m, from + 1)
  }

  /** The canonical list of a map with 64-bit keys. */
  ghost function Listing<V>(m: map<int, V>): seq<(int, V)> {
    ListFrom(m, 0)
  }

  lemma {:induction false} AllListed<V(!new)>(m: map<int, V>, from: int, k: int)
    requires k in m && from <= k < KEY_BOUND
    ensures (k, m[k]) in ListFrom(m, from)
    decreases KEY_BOUND - from
  {
    if k > from {
      AllListed(m, from + 1, k);
    }
  }

  ghost predicate Within<V(!new)>(a: seq<(int, V)>, b: seq<(int, V)>) {
    forall x :: x in a ==> x in b
  }

  /** Ascending lists with the same records are equal. */
  lemma {:induction false} SameListing<V(!new)>(a: seq<(int, V)>, b: seq<(int, V)>)
    requires Ascending(a) && Ascending(b) && Within(a, b) && Within(b, a)
    ensures a == b
    decreases |a|
  {
    if a == [] {
      NothingWithin(b);
    } else {
      LastSame(a, b);
      var x, y := a[..|a| - 1], b[..|b| - 1];
      FrontWithin(a, b, x, y);
      FrontWithin(b, a, y, x);
      hide Within, Ascending;
      SameListing(x, y);
      assert a == x + [a[|a| - 1]] && b == y + [b[|b| - 1]];
    }
  }

  lemma {:induction false} NothingWithin<V(!new)>(b: seq<(int, V)>)
    ensures Within(b, []) ==> b == []
  {
    if b != [] {
      assert b[0] in b;
    }
  }

  lemma {:induction false} LastSame<V(!new)>(a: seq<(int, V)>, b: seq<(int, V)>)
    requires Ascending(a) && Ascending(b) && a != [] && Within(a, b) && Within(b, a)
    ensures b != [] && a[|a| - 1] == b[|b| - 1]
  {
    assert a[|a| - 1] in b;
    assert b[|b| - 1] in a;
    var j :| 0 <= j < |b| && b[j] == a[|a| - 1];
    var i :| 0 <= i < |a| && a[i] == b[|b| - 1];
  }

  lemma {:induction false} FrontWithin<V(!new)>(a: seq<(int, V)>, b: seq<(int, V)>, x: seq<(int, V)>, y: seq<(int, V)>)
    requires Ascending(a) && a != [] && b != [] && a[|a| - 1] == b[|b| - 1] && Within(a, b)
    requires x == a[..|a| - 1] && y == b[..|b| - 1]
    ensures Ascending(x) && Within(x, y)
  {
    forall e | e in x ensures e in y {
      var i :| 0 <= i < |x| && x[i] == e;
      assert a[i] == e && a[i] in b;
      var j :| 0 <= j < |b| && b[j] == e;
      assert y[j] == e;
    }
  }

  /** `list` holds exactly the entries of `m`. */
  ghost predicate Represents<K(!new), V(!new)>(list: seq<(K, V)>, m: map<K, V>) {
    && (forall i :: 0 <= i < |list| ==> list[i].0 in m && m[list[i].0] == list[i].1)
    && (forall k :: k in m ==> exists i :: 0 <= i < |list| && list[i].0 == k)
  }

  /** Among the lists of a map's entries the canonical one is the ascending one. */
  lemma {:induction false} ListingUnique<V(!new)>(list: seq<(int, V)>, m: map<int, V>)
    requires KeysWithin(m)
    ensures Ascending(list) && Represents(list, m) <==> list == Listing(m)
  {
    ListingRepresents(m);
    if Ascending(list) && Represents(list, m) {
      var l := Listing(m);
      hide Listing;
      SameRecords(list, l, m);
      SameRecords(l, list, m);
      SameListing(list, l);
    }
  }

  lemma {:induction false} SameRecords<V(!new)>(a: seq<(int, V)>, b: seq<(int, V)>, m: map<int, V>)
    requires Represents(a, m) && Represents(b, m)
    ensures Within(a, b)
  {
    forall x | x in a ensures x in b {
      var i :| 0 <= i < |a| && a[i] == x;
      var j :| 0 <= j < |b| && b[j].0 == x.0;
      assert b[j] == x;
    }
  }

  lemma {:induction false} ListingRepresents<V(!new)>(m: map<int, V>)
    requires KeysWithin(m)
    ensures Ascending(Listing(m)) && Represents(Listing(m), m)
  {
    var l := Listing(m);
    forall k | k in m ensures exists i :: 0 <= i < |l| && l[i].0 == k {
      AllListed(m, 0, k);
      var i :| 0 <= i < |l| && l[i] == (k, m[k]);
      assert l[i].0 == k;
    }
  }

  lemma {:induction false} TableUnique<K(!new), V(!new)>(list: seq<(K, V)>, m: map<K, V>)
    requires DistinctFirst(list) && Represents(list, m)
    ensures Table(list) == m
  {
    TableIs(list);
    hide Table;
  }

  /** `list` with one more record, in key order. */
  function Placed<V>(list: seq<(int, V)>, k: int, v: V): (r: seq<(int, V)>)
    ensures |r| == |list| + 1
  {
    if list == [] || k < list[0].0 then [(k, v)] + list else [list[0]] + Placed(list[1..], k, v)
  }

  lemma {:induction false} PlacedAscends<V(!new)>(list: seq<(int, V)>, k: int, v: V)
    requires Ascending(list) && forall i :: 0 <= i < |list| ==> list[i].0 != k
    ensures Ascending(Placed(list, k, v))
    ensures forall x :: x in Placed(list, k, v) <==> x in list || x == (k, v)
  {
    if list == [] || k < list[0].0 {
      assert list == [] ==> Placed(list, k, v) == [(k, v)];
    } else {
      var rest := list[1..];
      PlacedAscends(rest, k, v);
      var tail := Placed(rest, k, v);
      assert list == [list[0]] + rest;
      forall i | 0 <= i < |tail| ensures list[0].0 < tail[i].0 {
        assert tail[i] in tail;
      }
    }
  }
}
