/** Sorted index of the occupied level slots of one side, with the pool of free
    level slots. Bids sort descending and asks ascending, so entry 0 is the best. */
module LevelIndexing {
  import opened Types
  import opened PriceLevels
  import opened BookSpec

  datatype Entry = Entry(price: Price, level: nat)

  ghost predicate SortedEntries(side: Side, entries: seq<Entry>) {
    forall i, j :: 0 <= i < j < |entries| ==> Better(side, entries[i].price, entries[j].price)
  }

  /** Occupied and free slots partition `0..n`. */
  ghost predicate Partition(entries: seq<Entry>, free: seq<nat>, n: nat) {
    && |entries| + |free| == n
    && Distinct(free)
    && (forall i, j :: 0 <= i < j < |entries| ==> entries[i].level != entries[j].level)
    && (forall i :: 0 <= i < |entries| ==> entries[i].level < n && entries[i].level !in free)
    && (forall i :: 0 <= i < |free| ==> free[i] < n)
    && (forall s :: 0 <= s < n ==> Covered(entries, free, s))
  }

  ghost predicate Indexes(entries: seq<Entry>, level: nat) {
    exists i :: 0 <= i < |entries| && entries[i].level == level
  }

  ghost predicate Covered(entries: seq<Entry>, free: seq<nat>, level: nat) {
    level in free || Indexes(entries, level)
  }

  /** `p` splits the entries into those better than `price` and the rest. */
  ghost predicate Splits(side: Side, entries: seq<Entry>, price: Price, p: nat) {
    && p <= |entries|
    && (forall i :: 0 <= i < p ==> Better(side, entries[i].price, price))
    && (forall i :: p <= i < |entries| ==> !Better(side, entries[i].price, price))
  }

  lemma {:induction false} InsertSorted(side: Side, entries: seq<Entry>, p: nat, e: Entry)
    requires SortedEntries(side, entries) && Splits(side, entries, e.price, p)
    requires p < |entries| ==> entries[p].price != e.price
    ensures SortedEntries(side, InsertAt(entries, p, e))
  {
  }

  lemma {:induction false} InsertCovers(entries: seq<Entry>, free: seq<nat>, p: nat, price: Price, s: nat)
    requires free != [] && p <= |entries| && Covered(entries, free, s)
    ensures Covered(InsertAt(entries, p, Entry(price, free[|free| - 1])), free[..|free| - 1], s)
  {
    var t := InsertAt(entries, p, Entry(price, free[|free| - 1]));
    if s in free {
      var i :| 0 <= i < |free| && free[i] == s;
      if i < |free| - 1 {
        assert free[..|free| - 1][i] == s;
      } else {
        assert t[p].level == s;
      }
    } else {
      var i :| 0 <= i < |entries| && entries[i].level == s;
      assert t[if i < p then i else i + 1].level == s;
    }
  }

  lemma {:induction false} InsertPartition(entries: seq<Entry>, free: seq<nat>, n: nat, p: nat, price: Price)
    requires Partition(entries, free, n) && free != [] && p <= |entries|
    ensures Partition(InsertAt(entries, p, Entry(price, free[|free| - 1])), free[..|free| - 1], n)
  {
    hide Covered;
    var t := InsertAt(entries, p, Entry(price, free[|free| - 1]));
    var f := free[..|free| - 1];
    forall s: nat | s < n ensures Covered(t, f, s) {
      InsertCovers(entries, free, p, price, s);
    }
  }

  lemma {:induction false} RemoveSorted(side: Side, entries: seq<Entry>, k: nat)
    requires SortedEntries(side, entries) && k < |entries|
    ensures SortedEntries(side, Without(entries, k))
  {
  }

  lemma {:induction false} RemoveCovers(entries: seq<Entry>, free: seq<nat>, k: nat, s: nat)
    requires k < |entries| && Covered(entries, free, s)
    ensures Covered(Without(entries, k), free + [entries[k].level], s)
  {
    if s !in free && s != entries[k].level {
      var i :| 0 <= i < |entries| && entries[i].level == s;
      assert Without(entries, k)[if i < k then i else i - 1].level == s;
    }
  }

  lemma {:induction false} RemovePartition(entries: seq<Entry>, free: seq<nat>, n: nat, k: nat)
    requires Partition(entries, free, n) && k < |entries|
    ensures Partition(Without(entries, k), free + [entries[k].level], n)
  {
    hide Covered;
    var t := Without(entries, k);
    var f := free + [entries[k].level];
    forall s: nat | s < n ensures Covered(t, f, s) {
      RemoveCovers(entries, free, k, s);
    }
    forall i | 0 <= i < |t| ensures t[i].level < n && t[i].level !in f {
      assert t[i] == entries[if i < k then i else i + 1];
    }
  }

  class LevelIndex {
    const side: Side
    var entries: seq<Entry>
    var free: seq<nat>

    ghost predicate Valid(n: nat)
      reads this
    {
      SortedEntries(side, entries) && Partition(entries, free, n)
    }

    /** A fresh pool hands out the lowest slots first. */
    constructor (side: Side, n: nat)
      ensures this.side == side && entries == [] && Valid(n)
    {
      this.side := side;
      entries := [];
      free := seq(n, (i: nat) => n - 1 - i);
      new;
      forall s | 0 <= s < n ensures s in free {
        assert free[n - 1 - s] == s;
      }
    }

    /** Binary search for the first entry that is not better than `price`. */
    method Position(price: Price) returns (position: nat, found: bool)
      requires SortedEntries(side, entries)
      ensures Splits(side, entries, price, position)
      ensures found <==> position < |entries| && entries[position].price == price
    {
      var low: nat, high: nat := 0, |entries|;
      while low < high
        invariant low <= high <= |entries|
        invariant forall i :: 0 <= i < low ==> Better(side, entries[i].price, price)
        invariant forall i :: high <= i < |entries| ==> !Better(side, entries[i].price, price)
      {
        var mid := low + (high - low) / 2;
        if Better(side, entries[mid].price, price) {
          low := mid + 1;
        } else {
          high := mid;
        }
      }
      position := low;
      found := position < |entries| && entries[position].price == price;
    }

    /** The level slot listed at `price`, if any. */
    method Find(price: Price) returns (r: Option<nat>)
      requires SortedEntries(side, entries)
      ensures r.Some? ==> exists k :: 0 <= k < |entries| && entries[k] == Entry(price, r.value)
      ensures r.None? ==> forall k :: 0 <= k < |entries| ==> entries[k].price != price
    {
      var position, found := Position(price);
      if found {
        assert entries[position] == Entry(price, entries[position].level);
        return Some(entries[position].level);
      }
      return None;
    }

    /** Takes a slot from the pool and lists it at `price`, keeping the order. */
    method Insert(price: Price, ghost n: nat) returns (r: Option<nat>, ghost p: nat)
      requires Valid(n)
      requires forall k :: 0 <= k < |entries| ==> entries[k].price != price
      modifies this
      ensures Valid(n)
      ensures r.None? <==> old(free) == []
      ensures r.None? ==> entries == old(entries) && free == old(free)
      ensures r.Some? ==> r.value == old(free[|free| - 1]) && free == old(free[..|free| - 1])
      ensures r.Some? ==> p <= old(|entries|) && old(Splits(side, entries, price, p))
                          && entries == InsertAt(old(entries), p, Entry(price, r.value))
    {
      var position, found := Position(price);
      p := position;
      if free == [] {
        return None, p;
      }
      var level := free[|free| - 1];
      InsertSorted(side, entries, position, Entry(price, level));
      InsertPartition(entries, free, n, position, price);
      free := free[..|free| - 1];
      entries := InsertAt(entries, position, Entry(price, level));
      r := Some(level);
    }

    /** Delists `price` and returns its slot to the pool. */
    method Remove(price: Price, ghost n: nat) returns (r: Option<nat>)
      requires Valid(n)
      modifies this
      ensures Valid(n)
      ensures r.None? ==> entries == old(entries) && free == old(free)
      ensures r.None? <==> old(forall k :: 0 <= k < |entries| ==> entries[k].price != price)
      ensures r.Some? ==> exists k :: 0 <= k < old(|entries|) && old(entries[k]) == Entry(price, r.value)
                            && entries == Without(old(entries), k) && free == old(free) + [r.value]
    {
      var position, found := Position(price);
      if !found {
        return None;
      }
      var level := entries[position].level;
      RemoveSorted(side, entries, position);
      RemovePartition(entries, free, n, position);
      assert entries[position] == Entry(price, level);
      entries := Without(entries, position);
      free := free + [level];
      r := Some(level);
    }
  }
}
