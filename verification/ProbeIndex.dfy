/** Open-addressed index with linear probing and back-shift deletion. The book's
    order index and both indices of the risk engine are this one structure; only
    the capacity and the meaning of the stored value differ. */
module ProbeIndexing {
  import opened Types

  const MULTIPLIER: int := 0x9e37_79b9_7f4a_7c15

  datatype Slot = Empty | Occupied(key: U64, value: nat)

  /** One entry that back-shift deletion relocated to `position`: whoever keeps the
      reverse handle of `key` must store the new position. */
  datatype Move = Move(key: U64, value: nat, position: nat)

  datatype ProbeError = Full | Duplicate

  /** Home bucket of a key: Fibonacci hashing, reduced to the capacity. */
  function Home(key: U64, capacity: nat): (h: nat)
    requires capacity > 0
    ensures h < capacity
  {
    (key * MULTIPLIER % U64_BOUND) % capacity
  }

  /** Number of forward steps from `from` to `current` on a ring. */
  function Distance(from: nat, current: nat, capacity: nat): (d: nat)
    requires from < capacity && current < capacity
    ensures d < capacity
  {
    if current >= from then current - from else capacity - (from - current)
  }

  /** The bucket `offset` steps after `start`. */
  function Around(start: nat, offset: nat, capacity: nat): (p: nat)
    requires start < capacity && offset <= capacity
    ensures p < capacity
    ensures offset < capacity ==> Distance(start, p, capacity) == offset
  {
    if start + offset < capacity then start + offset else start + offset - capacity
  }

  /** Does slot `i` of `s` hold an entry with `j` on its probe path? */
  predicate OnPath(s: seq<Slot>, i: nat, j: nat)
    requires i < |s| && j < |s|
  {
    s[i].Occupied? &&
    var home := Home(s[i].key, |s|);
    Distance(home, j, |s|) < Distance(home, i, |s|)
  }

  /** No key is stored twice. */
  ghost predicate KeysUnique(s: seq<Slot>) {
    forall i, j :: 0 <= i < |s| && 0 <= j < |s| && s[i].Occupied? && s[j].Occupied? && s[i].key == s[j].key ==> i == j
  }

  /** Every entry is reachable: the probe path from its home bucket has no gap. */
  ghost predicate Reachable(s: seq<Slot>) {
    forall i, j :: 0 <= i < |s| && 0 <= j < |s| && OnPath(s, i, j) ==> s[j].Occupied?
  }

  ghost predicate WellProbed(s: seq<Slot>) {
    KeysUnique(s) && Reachable(s)
  }

  /** The position of `key`, if the index holds it. */
  ghost predicate Holds(s: seq<Slot>, key: U64) {
    exists i :: 0 <= i < |s| && s[i].Occupied? && s[i].key == key
  }

  /** The finite map an index stands for. */
  ghost function Contents(s: seq<Slot>): map<U64, nat>
  {
    if s == [] then map[]
    else if s[|s| - 1].Empty? then Contents(s[..|s| - 1])
    else Contents(s[..|s| - 1])[s[|s| - 1].key := s[|s| - 1].value]
  }

  /** `Contents` characterised: exactly the occupied entries. */
  lemma {:induction false} ContentsAre(s: seq<Slot>)
    requires KeysUnique(s)
    ensures forall k: U64 :: k in Contents(s) <==> Holds(s, k)
    ensures forall i :: 0 <= i < |s| && s[i].Occupied? ==> s[i].key in Contents(s) && Contents(s)[s[i].key] == s[i].value
  {
    if s != [] {
      var t := s[..|s| - 1];
      ContentsAre(t);
      forall k: U64 ensures k in Contents(s) <==> Holds(s, k) {
        if Holds(t, k) {
          var i :| 0 <= i < |t| && t[i].Occupied? && t[i].key == k;
          assert s[i].Occupied? && s[i].key == k;
        }
        if Holds(s, k) && !(s[|s| - 1].Occupied? && s[|s| - 1].key == k) {
          var i :| 0 <= i < |s| && s[i].Occupied? && s[i].key == k;
          assert t[i].Occupied? && t[i].key == k;
        }
      }
      forall i | 0 <= i < |s| && s[i].Occupied?
        ensures s[i].key in Contents(s) && Contents(s)[s[i].key] == s[i].value
      {
        if i < |t| {
          assert t[i] == s[i];
        }
      }
    }
  }

  /** The state inside back-shift deletion: bucket `hole` is logically empty and
      only entries at or beyond `candidate` may still have it on their path. */
  ghost predicate Shifting(s: seq<Slot>, hole: nat, candidate: nat) {
    && hole < |s| && candidate < |s| && hole != candidate
    && s[hole].Empty?
    && KeysUnique(s)
    && (forall i, j :: 0 <= i < |s| && 0 <= j < |s| && OnPath(s, i, j) ==> s[j].Occupied? || j == hole)
    && (forall i :: 0 <= i < |s| && OnPath(s, i, hole) ==> Distance(hole, candidate, |s|) <= Distance(hole, i, |s|))
  }

  lemma {:induction false} ShiftStart(s: seq<Slot>, hole: nat)
    requires WellProbed(s) && hole < |s| && s[hole].Occupied? && |s| > 1
    ensures Shifting(s[hole := Empty], hole, Around(hole, 1, |s|))
  {
    var t := s[hole := Empty];
    forall i, j | 0 <= i < |s| && 0 <= j < |s| && OnPath(t, i, j) ensures t[j].Occupied? || j == hole {
      assert OnPath(s, i, j);
    }
  }

  /** A candidate that does not need the hole stays where it is. */
  lemma {:induction false} ShiftSkip(s: seq<Slot>, hole: nat, candidate: nat)
    requires Shifting(s, hole, candidate) && s[candidate].Occupied? && !OnPath(s, candidate, hole)
    requires Around(candidate, 1, |s|) != hole
    ensures Shifting(s, hole, Around(candidate, 1, |s|))
  {
  }

  /** A candidate whose path crosses the hole moves into it and leaves a new hole. */
  lemma {:induction false} ShiftMove(s: seq<Slot>, hole: nat, candidate: nat)
    requires Shifting(s, hole, candidate) && s[candidate].Occupied? && OnPath(s, candidate, hole)
    requires |s| > 1
    ensures Shifting(s[hole := s[candidate]][candidate := Empty], candidate, Around(candidate, 1, |s|))
    ensures multiset(s[hole := s[candidate]][candidate := Empty]) == multiset(s)
  {
    var t := s[hole := s[candidate]][candidate := Empty];
    forall i, j | 0 <= i < |s| && 0 <= j < |s| && OnPath(t, i, j) ensures t[j].Occupied? || j == candidate {
      if i == hole {
        assert OnPath(s, candidate, j);
      } else {
        assert OnPath(s, i, j);
      }
    }
  }

  /** An empty candidate ends the walk: nobody can still need the hole. */
  lemma {:induction false} ShiftEnd(s: seq<Slot>, hole: nat, candidate: nat)
    requires Shifting(s, hole, candidate) && s[candidate].Empty?
    ensures WellProbed(s)
  {
    forall i, j | 0 <= i < |s| && 0 <= j < |s| && OnPath(s, i, j) ensures s[j].Occupied? {
      if j == hole {
        assert OnPath(s, i, candidate);
      }
    }
  }

  /** Dropping one entry from the bag of slots drops that entry and no other. */
  lemma {:induction false} BagWithout(s: seq<Slot>, t: seq<Slot>, gone: Slot, entry: Slot)
    requires KeysUnique(s) && gone.Occupied? && gone in s && entry.Occupied?
    requires multiset(t) == multiset(s) - multiset{gone} + multiset{Empty}
    ensures entry in t <==> entry in s && entry != gone
  {
    UniqueOnce(s, entry);
    assert entry in t <==> entry in multiset(t);
    assert entry in s <==> entry in multiset(s);
  }

  lemma {:induction false} ContentsWithout(s: seq<Slot>, t: seq<Slot>, key: U64, value: nat)
    requires KeysUnique(s) && KeysUnique(t)
    requires Occupied(key, value) in s
    requires multiset(t) == multiset(s) - multiset{Occupied(key, value)} + multiset{Empty}
    ensures Contents(t) == Contents(s) - {key}
  {
    forall entry: Slot | entry.Occupied? ensures entry in t <==> entry in s && entry != Occupied(key, value) {
      BagWithout(s, t, Occupied(key, value), entry);
    }
    SameEntries(s, t, key, value);
  }

  lemma {:induction false} SameEntries(s: seq<Slot>, t: seq<Slot>, key: U64, value: nat)
    requires KeysUnique(s) && KeysUnique(t)
    requires Occupied(key, value) in s
    requires forall entry: Slot :: entry.Occupied? ==> (entry in t <==> entry in s && entry != Occupied(key, value))
    ensures Contents(t) == Contents(s) - {key}
  {
    hide Contents;
    ContentsAre(s);
    ContentsAre(t);
    var g :| 0 <= g < |s| && s[g] == Occupied(key, value);
    forall k: U64 ensures k in Contents(t) <==> k in Contents(s) && k != key {
      if k in Contents(t) {
        var i :| 0 <= i < |t| && t[i].Occupied? && t[i].key == k;
        assert t[i] in s;
      }
      if k in Contents(s) && k != key {
        var i :| 0 <= i < |s| && s[i].Occupied? && s[i].key == k;
        assert s[i] in t;
      }
    }
    forall k: U64 | k in Contents(t) ensures Contents(t)[k] == Contents(s)[k] {
      var i :| 0 <= i < |t| && t[i].Occupied? && t[i].key == k;
      assert t[i] in s;
    }
  }

  lemma {:induction false} UniqueOnce(s: seq<Slot>, entry: Slot)
    requires KeysUnique(s) && entry.Occupied?
    ensures multiset(s)[entry] <= 1
  {
    if s != [] {
      var t := s[..|s| - 1];
      UniqueOnce(t, entry);
      assert s == t + [s[|s| - 1]];
      if entry == s[|s| - 1] {
        assert entry !in t;
        assert multiset(t)[entry] == 0;
      }
    }
  }

  lemma {:induction false} InsertKeeps(s: seq<Slot>, flat: nat, key: U64, value: nat)
    requires WellProbed(s) && flat < |s| && s[flat].Empty?
    requires forall i :: 0 <= i < |s| && Distance(Home(key, |s|), i, |s|) < Distance(Home(key, |s|), flat, |s|)
               ==> s[i].Occupied? && s[i].key != key
    ensures !Holds(s, key)
    ensures WellProbed(s[flat := Occupied(key, value)])
  {
    var t := s[flat := Occupied(key, value)];
    if Holds(s, key) {
      var i :| 0 <= i < |s| && s[i].Occupied? && s[i].key == key;
      assert OnPath(s, i, flat);
      assert false;
    }
    forall i, j | 0 <= i < |s| && 0 <= j < |s| && OnPath(t, i, j) ensures t[j].Occupied? {
      if i != flat {
        assert OnPath(s, i, j);
      }
    }
  }

  /** Every entry of `after` either kept its bucket or has a logged move naming its
      new one, and every logged move names a bucket that holds its entry. */
  ghost predicate Relocated(before: seq<Slot>, after: seq<Slot>, key: U64, moves: seq<Move>) {
    && |after| == |before|
    && !Holds(after, key)
    && (forall i :: 0 <= i < |after| && after[i].Occupied? ==>
          after[i] == before[i] || Move(after[i].key, after[i].value, i) in moves)
    && (forall m :: m in moves ==> m.position < |after| && after[m.position] == Occupied(m.key, m.value))
    && (forall m :: m in moves ==> Occupied(m.key, m.value) in before)
  }

  /** `after` holds exactly the entries of `before` with another key. */
  ghost predicate EntriesWithout(before: seq<Slot>, after: seq<Slot>, key: U64) {
    forall e: Slot :: e.Occupied? ==> (e in after <==> e in before && e.key != key)
  }

  lemma {:induction false} RelocateOne(before: seq<Slot>, s: seq<Slot>, key: U64, moves: seq<Move>, hole: nat, candidate: nat)
    requires hole < |s| && candidate < |s| && hole != candidate
    requires s[hole].Empty? && s[candidate].Occupied?
    requires Relocated(before, s, key, moves)
    requires s[candidate] == before[candidate]
    requires forall m :: m in moves ==> m.position != candidate
    ensures Relocated(before, s[hole := s[candidate]][candidate := Empty], key,
                      moves + [Move(s[candidate].key, s[candidate].value, hole)])
  {
    var t := s[hole := s[candidate]][candidate := Empty];
    var log := moves + [Move(s[candidate].key, s[candidate].value, hole)];
    forall i | 0 <= i < |t| && t[i].Occupied? ensures t[i] == before[i] || Move(t[i].key, t[i].value, i) in log {
      assert i != hole ==> t[i] == s[i];
    }
    forall m | m in log ensures m.position < |t| && t[m.position] == Occupied(m.key, m.value) {
      assert m in moves ==> m.position != hole;
    }
    assert before[candidate] in before;
  }

  /** Everything the deletion loop keeps: `e` is a bucket that stays empty and
      bounds the walk, buckets not yet reached are untouched. */
  ghost predicate Walk(before: seq<Slot>, s: seq<Slot>, key: U64, flat: nat, e: nat, hole: nat, candidate: nat, moves: seq<Move>)
  {
    && |s| == |before| && flat < |s| && e < |s| && before[flat].Occupied?
    && hole < |s| && candidate < |s| && hole != candidate && hole != e
    && s[hole].Empty? && s[e].Empty?
    && Shifting(s, hole, candidate)
    && Distance(flat, hole, |s|) < Distance(flat, candidate, |s|) <= Distance(flat, e, |s|)
    && (forall m :: m in moves ==> m.position < |s| && Distance(flat, m.position, |s|) < Distance(flat, candidate, |s|))
    && (forall i :: 0 <= i < |s| && Distance(flat, candidate, |s|) <= Distance(flat, i, |s|) ==> s[i] == before[i])
    && multiset(s) == multiset(before) - multiset{before[flat]} + multiset{Empty}
    && Relocated(before, s, key, moves)
  }

  lemma {:induction false} WalkStart(before: seq<Slot>, key: U64, flat: nat, e: nat)
    requires WellProbed(before) && flat < |before| && e < |before|
    requires before[flat].Occupied? && before[flat].key == key && before[e].Empty?
    ensures Walk(before, before[flat := Empty], key, flat, e, flat, Around(flat, 1, |before|), [])
  {
    ShiftStart(before, flat);
  }

  lemma {:induction false} WalkSkip(before: seq<Slot>, s: seq<Slot>, key: U64, flat: nat, e: nat, hole: nat, candidate: nat, moves: seq<Move>)
    requires Walk(before, s, key, flat, e, hole, candidate, moves)
    requires s[candidate].Occupied? && !OnPath(s, candidate, hole)
    ensures Walk(before, s, key, flat, e, hole, Around(candidate, 1, |s|), moves)
    ensures e < |s| && Distance(Around(candidate, 1, |s|), e, |s|) < Distance(candidate, e, |s|)
    ensures hole != Around(candidate, 1, |s|)
  {
    assert candidate != e;
    ShiftSkip(s, hole, candidate);
  }

  lemma {:induction false} SwapBag(s: seq<Slot>, hole: nat, candidate: nat)
    requires hole < |s| && candidate < |s| && hole != candidate && s[hole].Empty?
    ensures multiset(s[hole := s[candidate]][candidate := Empty]) == multiset(s)
  {
  }

  lemma {:induction false} WalkMove(before: seq<Slot>, s: seq<Slot>, key: U64, flat: nat, e: nat, hole: nat, candidate: nat, moves: seq<Move>)
    requires Walk(before, s, key, flat, e, hole, candidate, moves)
    requires s[candidate].Occupied? && OnPath(s, candidate, hole)
    ensures Walk(before, s[hole := s[candidate]][candidate := Empty], key, flat, e, candidate,
                 Around(candidate, 1, |s|), moves + [Move(s[candidate].key, s[candidate].value, hole)])
    ensures e < |s| && Distance(Around(candidate, 1, |s|), e, |s|) < Distance(candidate, e, |s|)
    ensures candidate != Around(candidate, 1, |s|)
  {
    hide Shifting, Relocated, OnPath, WellProbed, KeysUnique, Contents;
    assert candidate != e;
    SwapBag(s, hole, candidate);
    ShiftMove(s, hole, candidate);
    RelocateOne(before, s, key, moves, hole, candidate);
  }

  lemma {:induction false} WalkEnd(before: seq<Slot>, s: seq<Slot>, key: U64, flat: nat, e: nat, hole: nat, candidate: nat, moves: seq<Move>)
    requires WellProbed(before) && Walk(before, s, key, flat, e, hole, candidate, moves)
    requires s[candidate].Empty? && before[flat].key == key
    ensures WellProbed(s) && s[hole].Empty?
    ensures Contents(s) == Contents(before) - {key}
    ensures Relocated(before, s, key, moves)
    ensures EntriesWithout(before, s, key)
  {
    ShiftEnd(s, hole, candidate);
    ContentsWithout(before, s, key, before[flat].value);
    hide Shifting, Relocated, Reachable;
    assert !Holds(s, key);
    forall e: Slot | e.Occupied? ensures e in s <==> e in before && e.key != key {
      BagWithout(before, s, before[flat], e);
    }
  }

  // Load: with few enough values some bucket is empty.

  ghost function Upto(n: nat): (s: set<nat>)
    ensures |s| == n
    ensures forall x :: x in s <==> 1 <= x <= n
  {
    if n == 0 then {} else Upto(n - 1) + {n}
  }

  lemma {:induction false} SubsetSize(a: set<nat>, b: set<nat>)
    requires a <= b
    ensures |a| <= |b|
  {
    assert b == a + (b - a);
  }

  ghost function Values(idx: seq<Slot>): set<nat> {
    set i | 0 <= i < |idx| && idx[i].Occupied? :: idx[i].value
  }

  lemma {:induction false} ValuesCount(idx: seq<Slot>)
    requires forall i :: 0 <= i < |idx| ==> idx[i].Occupied?
    requires forall i, j :: 0 <= i < j < |idx| ==> idx[i].value != idx[j].value
    ensures |Values(idx)| == |idx|
  {
    if idx != [] {
      var front, last := idx[..|idx| - 1], idx[|idx| - 1];
      ValuesCount(front);
      forall x ensures x in Values(idx) <==> x in Values(front) || x == last.value {
        if x in Values(front) {
          var i :| 0 <= i < |front| && front[i].value == x;
          assert idx[i].value == x;
        }
        if x == last.value {
          assert idx[|idx| - 1].value == x;
        }
        if x in Values(idx) && x != last.value {
          var i :| 0 <= i < |idx| && idx[i].value == x;
          assert front[i].value == x;
        }
      }
      assert Values(idx) == Values(front) + {last.value};
    } else {
      assert Values(idx) == {};
    }
  }

  /** Too few values for every bucket to be occupied. */
  lemma {:induction false} SomeEmpty(idx: seq<Slot>, bound: nat)
    requires |idx| > bound
    requires forall i :: 0 <= i < |idx| && idx[i].Occupied? ==> 1 <= idx[i].value <= bound
    requires forall i, j :: 0 <= i < j < |idx| && idx[i].Occupied? && idx[j].Occupied? ==> idx[i].value != idx[j].value
    ensures exists e :: 0 <= e < |idx| && idx[e].Empty?
  {
    if forall i :: 0 <= i < |idx| ==> idx[i].Occupied? {
      ValuesCount(idx);
      SubsetSize(Values(idx), Upto(bound));
    }
  }

  class ProbeIndex {
    const slots: array<Slot>

    constructor (capacity: nat)
      ensures fresh(slots) && slots.Length == capacity
      ensures forall i :: 0 <= i < capacity ==> slots[i] == Empty
      ensures WellProbed(slots[..])
    {
      slots := new Slot[capacity](_ => Empty);
    }

    /** The slot holding `key`; a gap ends the probe early. */
    method FindSlot(key: U64) returns (r: Option<nat>)
      requires WellProbed(slots[..])
      ensures r.Some? ==> r.value < slots.Length && slots[r.value].Occupied? && slots[r.value].key == key
      ensures r.None? ==> !Holds(slots[..], key)
    {
      var n := slots.Length;
      if n == 0 {
        return None;
      }
      var start := Home(key, n);
      var offset := 0;
      while offset < n
        invariant 0 <= offset <= n
        invariant forall i :: 0 <= i < n && Distance(start, i, n) < offset ==> slots[i].Occupied? && slots[i].key != key
      {
        var flat := Around(start, offset, n);
        if slots[flat].Empty? {
          forall i | 0 <= i < n && slots[i].Occupied? ensures slots[i].key != key {
            if slots[i].key == key {
              assert OnPath(slots[..], i, flat);
              assert false;
            }
          }
          return None;
        }
        if slots[flat].key == key {
          return Some(flat);
        }
        offset := offset + 1;
      }
      return None;
    }

    /** Stores `key` in the first free bucket of its path and returns the handle. */
    method Insert(key: U64, value: nat) returns (r: Result<nat, ProbeError>)
      requires WellProbed(slots[..])
      modifies slots
      ensures WellProbed(slots[..])
      ensures r.Ok? ==> !old(Holds(slots[..], key)) && r.value < slots.Length && old(slots[r.value]) == Empty
                        && slots[..] == old(slots[..])[r.value := Occupied(key, value)]
      ensures r.Err? ==> slots[..] == old(slots[..])
      ensures r.Ok? || r == Err(Duplicate) || r == Err(Full)
      ensures r == Err(Duplicate) <==> old(Holds(slots[..], key))
      ensures r == Err(Full) <==> !old(Holds(slots[..], key)) && forall i :: 0 <= i < slots.Length ==> old(slots[i]).Occupied?
    {
      var n := slots.Length;
      if n == 0 {
        return Err(Full);
      }
      var start := Home(key, n);
      var offset := 0;
      while offset < n
        invariant 0 <= offset <= n
        invariant slots[..] == old(slots[..])
        invariant forall i :: 0 <= i < n && Distance(start, i, n) < offset ==> slots[i].Occupied? && slots[i].key != key
      {
        var flat := Around(start, offset, n);
        if slots[flat].Empty? {
          InsertKeeps(slots[..], flat, key, value);
          slots[flat] := Occupied(key, value);
          assert slots[..] == old(slots[..])[flat := Occupied(key, value)];
          return Ok(flat);
        }
        if slots[flat].key == key {
          assert slots[..][flat] == slots[flat];
          return Err(Duplicate);
        }
        offset := offset + 1;
      }
      return Err(Full);
    }

    /** Removes `key` at handle `flat` and closes the gap, logging every entry that
        moved. A stale handle fails closed. */
    method RemoveAt(flat: nat, key: U64) returns (r: Option<nat>, moves: seq<Move>)
      requires WellProbed(slots[..])
      requires exists e :: 0 <= e < slots.Length && slots[e].Empty?
      modifies slots
      ensures WellProbed(slots[..])
      ensures r.Some? <==> flat < slots.Length && old(slots[flat]).Occupied? && old(slots[flat]).key == key
      ensures r.None? ==> slots[..] == old(slots[..]) && moves == []
      ensures r.Some? ==> old(slots[flat]) == Occupied(key, r.value)
      ensures r.Some? ==> Contents(slots[..]) == old(Contents(slots[..])) - {key}
      ensures r.Some? ==> Relocated(old(slots[..]), slots[..], key, moves)
      ensures r.Some? ==> EntriesWithout(old(slots[..]), slots[..], key)
    {
      hide Walk, Shifting, Relocated, EntriesWithout;
      moves := [];
      var n := slots.Length;
      if flat >= n || slots[flat].Empty? || slots[flat].key != key {
        return None, [];
      }
      r := Some(slots[flat].value);
      ghost var before := slots[..];
      ghost var e :| 0 <= e < n && slots[e].Empty?;
      var hole: nat := flat;
      var candidate: nat := Around(hole, 1, n);
      ghost var logical := before[hole := Empty];
      WalkStart(before, key, flat, e);
      while slots[candidate].Occupied?
        invariant hole < n && candidate < n && hole != candidate
        invariant logical == slots[..][hole := Empty]
        invariant Walk(before, logical, key, flat, e, hole, candidate, moves)
        decreases Distance(candidate, e, n)
      {
        var entry := slots[candidate];
        var home := Home(entry.key, n);
        if Distance(home, hole, n) < Distance(home, candidate, n) {
          WalkMove(before, logical, key, flat, e, hole, candidate, moves);
          logical := logical[hole := entry][candidate := Empty];
          slots[hole] := entry;
          moves := moves + [Move(entry.key, entry.value, hole)];
          hole := candidate;
        } else {
          WalkSkip(before, logical, key, flat, e, hole, candidate, moves);
        }
        candidate := Around(candidate, 1, n);
      }
      WalkEnd(before, logical, key, flat, e, hole, candidate, moves);
      slots[hole] := Empty;
      assert slots[..] == logical;
    }
  }
}
