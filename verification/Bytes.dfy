/** Big-endian field codecs. A writer puts a field in front of what follows it; a
    reader takes a field and returns the rest. Each pair undoes the other. */
module Bytes {
  import opened Types

  type Octets = seq<U8>

  function Pow256(n: nat): nat {
    if n == 0 then 1 else 256 * Pow256(n - 1)
  }

  /** `x` as `n` bytes, most significant first. */
  function ToBytes(n: nat, x: nat): (b: Octets)
    ensures |b| == n
  {
    if n == 0 then [] else ToBytes(n - 1, x / 256) + [x % 256]
  }

  function FromBytes(b: Octets): nat {
    if b == [] then 0 else FromBytes(b[..|b| - 1]) * 256 + b[|b| - 1]
  }

  lemma {:induction false} FromTo(n: nat, x: nat)
    requires x < Pow256(n)
    ensures FromBytes(ToBytes(n, x)) == x
  {
    if n > 0 {
      FromTo(n - 1, x / 256);
      assert ToBytes(n, x)[..n - 1] == ToBytes(n - 1, x / 256);
    }
  }

  lemma {:induction false} ToFrom(b: Octets)
    ensures FromBytes(b) < Pow256(|b|)
    ensures ToBytes(|b|, FromBytes(b)) == b
  {
    if b != [] {
      ToFrom(b[..|b| - 1]);
      assert b == b[..|b| - 1] + [b[|b| - 1]];
    }
  }

  lemma {:induction false} Widths()
    ensures Pow256(1) == U8_BOUND && Pow256(2) == U16_BOUND && Pow256(4) == U32_BOUND
    ensures Pow256(8) == U64_BOUND && Pow256(16) == U128_BOUND
  {
    assert Pow256(2) == 256 * Pow256(1);
    assert Pow256(4) == 256 * (256 * Pow256(2));
    assert Pow256(6) == 256 * (256 * Pow256(4));
    assert Pow256(8) == 256 * (256 * Pow256(6));
    assert Pow256(10) == 256 * (256 * Pow256(8));
    assert Pow256(12) == 256 * (256 * Pow256(10));
    assert Pow256(14) == 256 * (256 * Pow256(12));
    assert Pow256(16) == 256 * (256 * Pow256(14));
  }

  /** Why a field cannot be read. */
  datatype FieldError = Truncated | InvalidBoolean | InvalidSide | InvalidCount | NonCanonical

  type Read<T> = Result<(T, Octets), FieldError>

  function Put(n: nat, x: nat, rest: Octets): Octets {
    ToBytes(n, x) + rest
  }

  function Get(n: nat, b: Octets): Read<nat> {
    if |b| < n then Err(Truncated) else Ok((FromBytes(b[..n]), b[n..]))
  }

  lemma {:induction false} GetPut(n: nat, x: nat, rest: Octets)
    requires x < Pow256(n)
    ensures Get(n, Put(n, x, rest)) == Ok((x, rest))
  {
    FromTo(n, x);
    var b := Put(n, x, rest);
    assert b[..n] == ToBytes(n, x) && b[n..] == rest;
  }

  lemma {:induction false} PutGet(n: nat, b: Octets)
    requires Get(n, b).Ok?
    ensures Get(n, b).value.0 < Pow256(n) && Put(n, Get(n, b).value.0, Get(n, b).value.1) == b
  {
    ToFrom(b[..n]);
    assert b == b[..n] + b[n..];
  }

  // Typed fields.

  function PutU8(x: U8, rest: Octets): Octets { Put(1, x, rest) }
  function PutU16(x: U16, rest: Octets): Octets { Put(2, x, rest) }
  function PutU32(x: U32, rest: Octets): Octets { Put(4, x, rest) }
  function PutU64(x: U64, rest: Octets): Octets { Put(8, x, rest) }
  function PutU128(x: U128, rest: Octets): Octets { Put(16, x, rest) }

  /** Two's complement. */
  function PutI64(x: I64, rest: Octets): Octets { Put(8, if x < 0 then x + U64_BOUND else x, rest) }
  function PutI128(x: I128, rest: Octets): Octets { Put(16, if x < 0 then x + U128_BOUND else x, rest) }

  function PutBool(x: bool, rest: Octets): Octets { PutU8(if x then 1 else 0, rest) }
  function PutSide(x: Side, rest: Octets): Octets { PutU8(if x == Buy then 1 else 2, rest) }

  function PutOptional(x: Option<OrderId>, rest: Octets): Octets {
    PutBool(x.Some?, PutU64(if x.Some? then x.value else 0, rest))
  }

  function GetU8(b: Octets): Read<U8> {
    if Get(1, b).Err? then Err(Get(1, b).error) else Widths(); PutGet(1, b); Ok(Get(1, b).value)
  }

  function GetU16(b: Octets): Read<U16> {
    if Get(2, b).Err? then Err(Get(2, b).error) else Widths(); PutGet(2, b); Ok(Get(2, b).value)
  }

  function GetU32(b: Octets): Read<U32> {
    if Get(4, b).Err? then Err(Get(4, b).error) else Widths(); PutGet(4, b); Ok(Get(4, b).value)
  }

  function GetU64(b: Octets): Read<U64> {
    if Get(8, b).Err? then Err(Get(8, b).error) else Widths(); PutGet(8, b); Ok(Get(8, b).value)
  }

  function GetU128(b: Octets): Read<U128> {
    if Get(16, b).Err? then Err(Get(16, b).error) else Widths(); PutGet(16, b); Ok(Get(16, b).value)
  }

  function GetI64(b: Octets): Read<I64> {
    var (x, rest) :- GetU64(b);
    Ok((if x < I64_BOUND then x else x - U64_BOUND, rest))
  }

  function GetI128(b: Octets): Read<I128> {
    var (x, rest) :- GetU128(b);
    Ok((if x < I128_BOUND then x else x - U128_BOUND, rest))
  }

  function GetBool(b: Octets): Read<bool> {
    var (x, rest) :- GetU8(b);
    if x > 1 then Err(InvalidBoolean) else Ok((x == 1, rest))
  }

  function GetSide(b: Octets): Read<Side> {
    var (x, rest) :- GetU8(b);
    if x == 1 then Ok((Buy, rest)) else if x == 2 then Ok((Sell, rest)) else Err(InvalidSide)
  }

  function GetOptional(b: Octets): Read<Option<OrderId>> {
    var (present, rest) :- GetBool(b);
    var (x, tail) :- GetU64(rest);
    if present then Ok((Some(x), tail)) else if x == 0 then Ok((None, tail)) else Err(NonCanonical)
  }

  // Every typed reader undoes its writer, and every writer restores what its reader took.

  lemma {:induction false} UnsignedReads()
    ensures forall x: U8, rest :: GetU8(PutU8(x, rest)) == Ok((x, rest))
    ensures forall x: U16, rest :: GetU16(PutU16(x, rest)) == Ok((x, rest))
    ensures forall x: U32, rest :: GetU32(PutU32(x, rest)) == Ok((x, rest))
    ensures forall x: U64, rest :: GetU64(PutU64(x, rest)) == Ok((x, rest))
    ensures forall x: U128, rest :: GetU128(PutU128(x, rest)) == Ok((x, rest))
  {
    Widths();
    hide Get, Put, Pow256;
    forall x: U8, rest ensures GetU8(PutU8(x, rest)) == Ok((x, rest)) { GetPut(1, x, rest); }
    forall x: U16, rest ensures GetU16(PutU16(x, rest)) == Ok((x, rest)) { GetPut(2, x, rest); }
    forall x: U32, rest ensures GetU32(PutU32(x, rest)) == Ok((x, rest)) { GetPut(4, x, rest); }
    forall x: U64, rest ensures GetU64(PutU64(x, rest)) == Ok((x, rest)) { GetPut(8, x, rest); }
    forall x: U128, rest ensures GetU128(PutU128(x, rest)) == Ok((x, rest)) { GetPut(16, x, rest); }
  }

  lemma {:induction false} SignedReads()
    ensures forall x: I64, rest :: GetI64(PutI64(x, rest)) == Ok((x, rest))
    ensures forall x: I128, rest :: GetI128(PutI128(x, rest)) == Ok((x, rest))
  {
    UnsignedReads();
    hide Put, GetU64, GetU128;
    forall x: I64, rest ensures GetI64(PutI64(x, rest)) == Ok((x, rest)) {
      assert PutI64(x, rest) == PutU64(if x < 0 then x + U64_BOUND else x, rest);
    }
    forall x: I128, rest ensures GetI128(PutI128(x, rest)) == Ok((x, rest)) {
      assert PutI128(x, rest) == PutU128(if x < 0 then x + U128_BOUND else x, rest);
    }
  }

  lemma {:induction false} TaggedReads()
    ensures forall x: bool, rest :: GetBool(PutBool(x, rest)) == Ok((x, rest))
    ensures forall x: Side, rest :: GetSide(PutSide(x, rest)) == Ok((x, rest))
    ensures forall x: Option<OrderId>, rest :: GetOptional(PutOptional(x, rest)) == Ok((x, rest))
  {
    UnsignedReads();
    hide PutU8, GetU8, PutU64, GetU64;
  }

  lemma {:induction false} UnsignedWrites()
    ensures forall b :: GetU8(b).Ok? ==> PutU8(GetU8(b).value.0, GetU8(b).value.1) == b
    ensures forall b :: GetU16(b).Ok? ==> PutU16(GetU16(b).value.0, GetU16(b).value.1) == b
    ensures forall b :: GetU32(b).Ok? ==> PutU32(GetU32(b).value.0, GetU32(b).value.1) == b
    ensures forall b :: GetU64(b).Ok? ==> PutU64(GetU64(b).value.0, GetU64(b).value.1) == b
    ensures forall b :: GetU128(b).Ok? ==> PutU128(GetU128(b).value.0, GetU128(b).value.1) == b
  {
    hide Get, Put, Pow256;
    forall b | GetU8(b).Ok? ensures PutU8(GetU8(b).value.0, GetU8(b).value.1) == b { PutGet(1, b); }
    forall b | GetU16(b).Ok? ensures PutU16(GetU16(b).value.0, GetU16(b).value.1) == b { PutGet(2, b); }
    forall b | GetU32(b).Ok? ensures PutU32(GetU32(b).value.0, GetU32(b).value.1) == b { PutGet(4, b); }
    forall b | GetU64(b).Ok? ensures PutU64(GetU64(b).value.0, GetU64(b).value.1) == b { PutGet(8, b); }
    forall b | GetU128(b).Ok? ensures PutU128(GetU128(b).value.0, GetU128(b).value.1) == b { PutGet(16, b); }
  }

  lemma {:induction false} SignedWrites()
    ensures forall b :: GetI64(b).Ok? ==> PutI64(GetI64(b).value.0, GetI64(b).value.1) == b
    ensures forall b :: GetI128(b).Ok? ==> PutI128(GetI128(b).value.0, GetI128(b).value.1) == b
  {
    UnsignedWrites();
    hide Put, GetU64, GetU128;
  }

  lemma {:induction false} TaggedWrites()
    ensures forall b :: GetBool(b).Ok? ==> PutBool(GetBool(b).value.0, GetBool(b).value.1) == b
    ensures forall b :: GetSide(b).Ok? ==> PutSide(GetSide(b).value.0, GetSide(b).value.1) == b
    ensures forall b :: GetOptional(b).Ok? ==> PutOptional(GetOptional(b).value.0, GetOptional(b).value.1) == b
  {
    UnsignedWrites();
    hide PutU8, GetU8, PutU64, GetU64;
  }

  // Lists, element by element. The count is a field of its own, put before them.

  function PutList<T>(put: (T, Octets) -> Octets, list: seq<T>, rest: Octets): Octets {
    if list == [] then rest else put(list[0], PutList(put, list[1..], rest))
  }

  /** Reads `count` elements behind those in `done`. */
  function GetList<T>(get: Octets -> Read<T>, count: nat, b: Octets, done: seq<T>): Read<seq<T>>
    decreases count
  {
    if count == 0 then Ok((done, b))
    else
      var (x, b) :- get(b);
      GetList(get, count - 1, b, done + [x])
  }

  /** A list of elements that read back reads back. */
  lemma {:induction false} ListReads<T(!new)>(put: (T, Octets) -> Octets, get: Octets -> Read<T>, list: seq<T>, rest: Octets, done: seq<T>)
    requires forall x, b :: get(put(x, b)) == Ok((x, b))
    ensures GetList(get, |list|, PutList(put, list, rest), done) == Ok((done + list, rest))
    decreases |list|
  {
    if list == [] {
      assert done + list == done;
    } else {
      ListReads(put, get, list[1..], rest, done + [list[0]]);
      assert done + [list[0]] + list[1..] == done + list;
    }
  }

  lemma {:induction false} ListReadsBack<T(!new)>(put: (T, Octets) -> Octets, get: Octets -> Read<T>, list: seq<T>, rest: Octets)
    requires forall x, b :: get(put(x, b)) == Ok((x, b))
    ensures GetList(get, |list|, PutList(put, list, rest), []) == Ok((list, rest))
  {
    ListReads(put, get, list, rest, []);
    assert [] + list == list;
  }

  /** A list whose elements are the encodings of what they read as is one too. */
  lemma {:induction false} ListWrites<T(!new)>(put: (T, Octets) -> Octets, get: Octets -> Read<T>, count: nat, b: Octets, done: seq<T>)
    requires forall c :: get(c).Ok? ==> put(get(c).value.0, get(c).value.1) == c
    requires GetList(get, count, b, done).Ok?
    ensures var (list, rest) := GetList(get, count, b, done).value;
            |list| == |done| + count && list[..|done|] == done && PutList(put, list[|done|..], rest) == b
    decreases count
  {
    if count > 0 {
      var (x, tail) := get(b).value;
      ListWrites(put, get, count - 1, tail, done + [x]);
      var (list, rest) := GetList(get, count, b, done).value;
      assert list[|done|] == x && list[|done|..][1..] == list[|done| + 1..];
      assert list[..|done|] == list[..|done| + 1][..|done|];
    }
  }

  /** Elements of one width. */
  lemma {:induction false} ListSize<T(!new)>(put: (T, Octets) -> Octets, width: nat, list: seq<T>, rest: Octets)
    requires forall x, b :: |put(x, b)| == width + |b|
    ensures |PutList(put, list, rest)| == width * |list| + |rest|
  {
    if list != [] {
      ListSize(put, width, list[1..], rest);
      assert width * |list| == width * |list[1..]| + width;
    }
  }
}
