/** Where every field of every byte format lies: offset, width, most significant byte
    first. The formats are fixed by these positions, not by who wrote the bytes. */
module Layouts {
  import opened Types
  import opened Bytes
  import opened BookRestore
  import opened GatewayRestore
  import opened StateCodec
  import opened Snapshots
  import F = JournalRecords
  import W = Wire
  import R = RiskSpec
  import BookSpec

  /** The number a byte string spells, its first byte weighing most. */
  function Spelled(b: Octets): nat {
    if b == [] then 0 else b[0] * Pow256(|b| - 1) + Spelled(b[1..])
  }

  /** Bytes `at` to `at + width` of `b` spell `x`. */
  predicate Field(b: Octets, at: nat, width: nat, x: nat) {
    at + width <= |b| && Spelled(b[at..at + width]) == x
  }

  /** Two's complement in 64 and in 128 bits. */
  function Word(x: I64): nat {
    if x >= 0 then x else U64_BOUND + x
  }

  function LongWord(x: I128): nat {
    if x >= 0 then x else U128_BOUND + x
  }

  function SideByte(side: Side): nat {
    match side
    case Buy => 1
    case Sell => 2
  }

  function Flag(b: bool): nat {
    if b then 1 else 0
  }

  lemma {:induction false} SpelledSnoc(b: Octets, x: U8)
    ensures Spelled(b + [x]) == 256 * Spelled(b) + x
  {
    if b == [] {
      assert [x][1..] == [];
      assert b + [x] == [x];
    } else {
      SpelledSnoc(b[1..], x);
      assert (b + [x])[1..] == b[1..] + [x];
      assert Pow256(|b|) == 256 * Pow256(|b| - 1);
      Spread(b[0], Pow256(|b| - 1));
    }
  }

  lemma {:induction false} Spread(a: nat, p: nat)
    ensures a * (256 * p) == 256 * (a * p)
  {
  }

  lemma {:induction false} SpelledIs(b: Octets)
    ensures Spelled(b) == FromBytes(b)
  {
    if b != [] {
      SpelledIs(b[..|b| - 1]);
      SpelledSnoc(b[..|b| - 1], b[|b| - 1]);
      assert b == b[..|b| - 1] + [b[|b| - 1]];
    }
  }

  /** A field put in front is the first one, and moves the others back by its width. */
  lemma {:induction false} PutField(n: nat, x: nat, rest: Octets)
    requires x < Pow256(n)
    ensures Field(Put(n, x, rest), 0, n, x)
    ensures forall at: nat, width: nat, y: nat :: Field(rest, at, width, y) ==> Field(Put(n, x, rest), at + n, width, y)
  {
    FromTo(n, x);
    SpelledIs(ToBytes(n, x));
    assert Put(n, x, rest)[0..n] == ToBytes(n, x);
    RawField(ToBytes(n, x), rest);
  }

  lemma {:induction false} RawField(raw: Octets, rest: Octets)
    ensures forall at: nat, width: nat, y: nat :: Field(rest, at, width, y) ==> Field(raw + rest, at + |raw|, width, y)
  {
    forall at: nat, width: nat, y: nat | Field(rest, at, width, y) ensures Field(raw + rest, at + |raw|, width, y) {
      assert (raw + rest)[at + |raw|..at + |raw| + width] == rest[at..at + width];
    }
  }

  lemma {:induction false} Field8(x: U8, rest: Octets)
    ensures Field(PutU8(x, rest), 0, 1, x)
    ensures forall at: nat, width: nat, y: nat :: Field(rest, at, width, y) ==> Field(PutU8(x, rest), at + 1, width, y)
  {
    hide Put, Field;
    Widths();
    PutField(1, x, rest);
  }

  lemma {:induction false} Field16(x: U16, rest: Octets)
    ensures Field(PutU16(x, rest), 0, 2, x)
    ensures forall at: nat, width: nat, y: nat :: Field(rest, at, width, y) ==> Field(PutU16(x, rest), at + 2, width, y)
  {
    hide Put, Field;
    Widths();
    PutField(2, x, rest);
  }

  lemma {:induction false} Field32(x: U32, rest: Octets)
    ensures Field(PutU32(x, rest), 0, 4, x)
    ensures forall at: nat, width: nat, y: nat :: Field(rest, at, width, y) ==> Field(PutU32(x, rest), at + 4, width, y)
  {
    hide Put, Field;
    Widths();
    PutField(4, x, rest);
  }

  lemma {:induction false} Field64(x: U64, rest: Octets)
    ensures Field(PutU64(x, rest), 0, 8, x)
    ensures forall at: nat, width: nat, y: nat :: Field(rest, at, width, y) ==> Field(PutU64(x, rest), at + 8, width, y)
  {
    hide Put, Field;
    Widths();
    PutField(8, x, rest);
  }

  lemma {:induction false} Field128(x: U128, rest: Octets)
    ensures Field(PutU128(x, rest), 0, 16, x)
    ensures forall at: nat, width: nat, y: nat :: Field(rest, at, width, y) ==> Field(PutU128(x, rest), at + 16, width, y)
  {
    hide Put, Field;
    Widths();
    PutField(16, x, rest);
  }

  lemma {:induction false} FieldWord(x: I64, rest: Octets)
    ensures Field(PutI64(x, rest), 0, 8, Word(x))
    ensures forall at: nat, width: nat, y: nat :: Field(rest, at, width, y) ==> Field(PutI64(x, rest), at + 8, width, y)
  {
    hide Put, Field;
    Widths();
    PutField(8, Word(x), rest);
  }

  lemma {:induction false} FieldLongWord(x: I128, rest: Octets)
    ensures Field(PutI128(x, rest), 0, 16, LongWord(x))
    ensures forall at: nat, width: nat, y: nat :: Field(rest, at, width, y) ==> Field(PutI128(x, rest), at + 16, width, y)
  {
    hide Put, Field;
    Widths();
    PutField(16, LongWord(x), rest);
  }

  lemma {:induction false} FieldSide(x: Side, rest: Octets)
    ensures Field(PutSide(x, rest), 0, 1, SideByte(x))
    ensures forall at: nat, width: nat, y: nat :: Field(rest, at, width, y) ==> Field(PutSide(x, rest), at + 1, width, y)
  {
    hide PutU8, Field;
    Field8(SideByte(x), rest);
  }

  lemma {:induction false} FieldFlag(x: bool, rest: Octets)
    ensures Field(PutBool(x, rest), 0, 1, Flag(x))
    ensures forall at: nat, width: nat, y: nat :: Field(rest, at, width, y) ==> Field(PutBool(x, rest), at + 1, width, y)
  {
    hide PutU8, Field;
    Field8(Flag(x), rest);
  }

  /** An optional id: a flag, then the id or zero. */
  lemma {:induction false} FieldOptional(x: Option<OrderId>, rest: Octets)
    ensures Field(PutOptional(x, rest), 0, 1, Flag(x != None))
    ensures Field(PutOptional(x, rest), 1, 8, if x == None then 0 else x.value)
    ensures forall at: nat, width: nat, y: nat :: Field(rest, at, width, y) ==> Field(PutOptional(x, rest), at + 9, width, y)
  {
    hide PutBool, PutU64, Field;
    var id := if x.Some? then x.value else 0;
    Field64(id, rest);
    FieldFlag(x.Some?, PutU64(id, rest));
    forall at: nat, width: nat, y: nat | Field(rest, at, width, y) ensures Field(PutOptional(x, rest), at + 9, width, y) {
      assert Field(PutU64(id, rest), at + 8, width, y);
      assert Field(PutBool(x.Some?, PutU64(id, rest)), (at + 8) + 1, width, y);
    }
    assert Field(PutBool(x.Some?, PutU64(id, rest)), 0 + 1, 8, id);
  }

  // Records of the state payload.

  /** 37 bytes an order. */
  lemma {:induction false} OrderLayout(o: BookOrderState, rest: Octets)
    ensures var b := PutOrder(o, rest);
            && Field(b, 0, 8, o.id) && Field(b, 8, 4, o.account) && Field(b, 12, 1, SideByte(o.side)) && Field(b, 13, 8, Word(o.price))
            && Field(b, 21, 8, o.quantity) && Field(b, 29, 8, o.sequence)
  {
    hide PutU64, PutU32, PutSide, PutI64, Field, Word, SideByte;
    var b5 := PutU64(o.sequence, rest);
    var b4 := PutU64(o.quantity, b5);
    var b3 := PutI64(o.price, b4);
    var b2 := PutSide(o.side, b3);
    var b1 := PutU32(o.account, b2);
    Field64(o.sequence, rest);
    Field64(o.quantity, b5);
    FieldWord(o.price, b4);
    FieldSide(o.side, b3);
    Field32(o.account, b2);
    Field64(o.id, b1);
  }

  /** 21 bytes a reservation. */
  lemma {:induction false} ReservationLayout(e: (OrderId, R.Reservation), rest: Octets)
    ensures var b := PutReservation(e, rest);
            && Field(b, 0, 8, e.0) && Field(b, 8, 4, e.1.account) && Field(b, 12, 1, SideByte(e.1.side)) && Field(b, 13, 8, e.1.quantity)
  {
    hide PutU64, PutU32, PutSide, Field, SideByte;
    var b3 := PutU64(e.1.quantity, rest);
    var b2 := PutSide(e.1.side, b3);
    var b1 := PutU32(e.1.account, b2);
    Field64(e.1.quantity, rest);
    FieldSide(e.1.side, b3);
    Field32(e.1.account, b2);
    Field64(e.0, b1);
  }

  /** 109 bytes an account. */
  lemma {:induction false} AccountLayout(e: (AccountId, R.Account), rest: Octets)
    ensures var b := PutAccount(e, rest);
            && Field(b, 0, 4, e.0) && Field(b, 4, 8, e.1.limits.maxQuantity) && Field(b, 12, 16, e.1.limits.maxNotional)
            && Field(b, 28, 8, e.1.limits.maxPosition) && Field(b, 36, 4, e.1.limits.maxOpen)
            && Field(b, 40, 8, Word(e.1.limits.minPrice)) && Field(b, 48, 8, Word(e.1.limits.maxPrice))
            && Field(b, 56, 16, LongWord(e.1.settled)) && Field(b, 72, 16, e.1.buys) && Field(b, 88, 16, e.1.sells)
            && Field(b, 104, 4, e.1.open) && Field(b, 108, 1, Flag(e.1.killed))
  {
    hide PutU64, PutU32, PutU128, PutI64, PutI128, PutBool, Field, Word, LongWord, Flag;
    var a, l := e.1, e.1.limits;
    var b11 := PutBool(a.killed, rest);
    var b10 := PutU32(a.open, b11);
    var b9 := PutU128(a.sells, b10);
    var b8 := PutU128(a.buys, b9);
    var b7 := PutI128(a.settled, b8);
    var b6 := PutI64(l.maxPrice, b7);
    var b5 := PutI64(l.minPrice, b6);
    var b4 := PutU32(l.maxOpen, b5);
    var b3 := PutU64(l.maxPosition, b4);
    var b2 := PutU128(l.maxNotional, b3);
    var b1 := PutU64(l.maxQuantity, b2);
    FieldFlag(a.killed, rest);
    Field32(a.open, b11);
    Field128(a.sells, b10);
    Field128(a.buys, b9);
    FieldLongWord(a.settled, b8);
    FieldWord(l.maxPrice, b7);
    FieldWord(l.minPrice, b6);
    Field32(l.maxOpen, b5);
    Field64(l.maxPosition, b4);
    Field128(l.maxNotional, b3);
    Field64(l.maxQuantity, b2);
    Field32(e.0, b1);
  }

  /** 13 bytes a level, its orders behind them. */
  lemma {:induction false} LevelLayout(l: BookLevelState, rest: Octets)
    requires Counted(|l.orders|)
    ensures var b := PutLevel(l, rest);
            && Field(b, 0, 1, SideByte(l.side)) && Field(b, 1, 8, Word(l.price)) && Field(b, 9, 4, |l.orders|)
            && |b| >= 13 && b[13..] == PutList(PutOrder, l.orders, rest)
  {
    hide PutList, PutOrder, Word, SideByte;
    var b2 := PutU32(|l.orders|, PutList(PutOrder, l.orders, rest));
    var b1 := PutI64(l.price, b2);
    PutTails(l.side, l.price, |l.orders|, PutList(PutOrder, l.orders, rest));
    hide PutU32, PutI64, PutSide, Field;
    Field32(|l.orders|, PutList(PutOrder, l.orders, rest));
    FieldWord(l.price, b2);
    FieldSide(l.side, b1);
  }

  lemma {:induction false} PutTails(side: Side, price: I64, count: U32, rest: Octets)
    ensures var b := PutSide(side, PutI64(price, PutU32(count, rest))); |b| >= 13 && b[13..] == rest
  {
  }

  /** Element `i` of a list of one width starts at `i` widths. */
  lemma {:induction false} ListLayout<T(!new)>(put: (T, Octets) -> Octets, width: nat, list: seq<T>, rest: Octets, i: nat)
    requires i < |list| && forall x, b :: |put(x, b)| == width + |b| && put(x, b)[width..] == b
    ensures width * i <= |PutList(put, list, rest)|
    ensures PutList(put, list, rest)[width * i..] == put(list[i], PutList(put, list[i + 1..], rest))
  {
    if i > 0 {
      ListLayout(put, width, list[1..], rest, i - 1);
      assert list[1..][i..] == list[i + 1..];
      assert width * i == width + width * (i - 1);
      var tail := PutList(put, list[1..], rest);
      assert PutList(put, list, rest)[width..] == tail;
      assert PutList(put, list, rest)[width * i..] == tail[width * (i - 1)..];
    }
  }

  /** The fixed fields at the head of the state payload: 47 bytes. */
  lemma {:induction false} HeadLayout(h: Head, rest: Octets)
    ensures var b := PutHead(h, rest);
            && Field(b, 0, 4, h.instrument) && Field(b, 4, 8, h.expected)
            && Field(b, 12, 1, Flag(h.maximum != None)) && Field(b, 13, 8, if h.maximum == None then 0 else h.maximum.value)
            && Field(b, 21, 1, Flag(h.riskMaximum != None)) && Field(b, 22, 8, if h.riskMaximum == None then 0 else h.riskMaximum.value)
            && Field(b, 30, 1, Flag(h.killed))
            && Field(b, 31, 4, h.accounts) && Field(b, 35, 4, h.reservations) && Field(b, 39, 4, h.bids) && Field(b, 43, 4, h.asks)
  {
    hide PutU64, PutU32, PutBool, PutOptional, Field, Flag;
    var b8 := PutU32(h.asks, rest);
    var b7 := PutU32(h.bids, b8);
    var b6 := PutU32(h.reservations, b7);
    var b5 := PutU32(h.accounts, b6);
    var b4 := PutBool(h.killed, b5);
    var b3 := PutOptional(h.riskMaximum, b4);
    var b2 := PutOptional(h.maximum, b3);
    var b1 := PutU64(h.expected, b2);
    Field32(h.asks, rest);
    Field32(h.bids, b8);
    Field32(h.reservations, b7);
    Field32(h.accounts, b6);
    FieldFlag(h.killed, b5);
    FieldOptional(h.riskMaximum, b4);
    FieldOptional(h.maximum, b3);
    Field64(h.expected, b2);
    Field32(h.instrument, b1);
  }

  // The snapshot.

  /** The 96 bytes in front of the payload. */
  lemma {:induction false} HeaderLayout(h: Header, rest: Octets)
    ensures var b := PutHeader(h, rest);
            && |b| == 96 + |rest| && b[..8] == h.magic
            && Field(b, 8, 2, h.version) && Field(b, 10, 2, h.headerLength) && Field(b, 12, 4, h.flags)
            && Field(b, 16, 2, h.hash) && Field(b, 18, 2, h.digestLength)
            && Field(b, 20, 8, h.payloadLength) && Field(b, 28, 8, h.applied)
            && Field(b, 36, 4, h.accounts) && Field(b, 40, 4, h.riskOrders) && Field(b, 44, 4, h.levels) && Field(b, 48, 4, h.levelOrders)
            && b[52..84] == h.digest && b[84..96] == h.pad && b[96..] == rest
  {
    hide Field;
    HeaderTail(h, rest);
    var b11 := h.digest + (h.pad + rest);
    var b10 := PutU32(h.levelOrders, b11);
    var b9 := PutU32(h.levels, b10);
    var b8 := PutU32(h.riskOrders, b9);
    var b7 := PutU32(h.accounts, b8);
    var b6 := PutU64(h.applied, b7);
    var b5 := PutU64(h.payloadLength, b6);
    var b4 := PutU16(h.digestLength, b5);
    var b3 := PutU16(h.hash, b4);
    var b2 := PutU32(h.flags, b3);
    var b1 := PutU16(h.headerLength, b2);
    var b0 := PutU16(h.version, b1);
    hide PutU16, PutU32, PutU64;
    Field32(h.levelOrders, b11);
    Field32(h.levels, b10);
    Field32(h.riskOrders, b9);
    Field32(h.accounts, b8);
    Field64(h.applied, b7);
    Field64(h.payloadLength, b6);
    Field16(h.digestLength, b5);
    Field16(h.hash, b4);
    Field32(h.flags, b3);
    Field16(h.headerLength, b2);
    Field16(h.version, b1);
    RawField(h.magic, b0);
  }

  lemma {:induction false} HeaderTail(h: Header, rest: Octets)
    ensures var b := PutHeader(h, rest);
            && |b| == 96 + |rest| && b[..8] == h.magic && b[52..84] == h.digest && b[84..96] == h.pad && b[96..] == rest
  {
    hide ToBytes;
    var b := PutHeader(h, rest);
    assert |b| == 96 + |rest|;
    assert b[52..] == h.digest + (h.pad + rest);
    assert b[52..84] == b[52..][..32];
    assert b[84..96] == b[52..][32..44];
    assert b[96..] == b[52..][44..];
  }

  /** Every byte of an encoded snapshot: the magic `HFTSNAP` and a zero, version 1, header
      length 96, no flags, hash 1 of 32 bytes, the payload's length, the cut, four
      capacities, the digest of domain, blanked header and payload, twelve zeros, and the
      payload with its own head. */
  lemma {:induction false} SnapshotLayout(r: GatewayRecords, applied: U64, shape: BookSpec.Shape, riskShape: R.RiskShape, sha: Octets -> Digest)
    requires Encode(r, applied, shape, riskShape, sha).Ok?
    ensures CountedState(r)
    ensures var b := Encode(r, applied, shape, riskShape, sha).value;
            && |b| >= 96 && b[..8] == [0x48, 0x46, 0x54, 0x53, 0x4e, 0x41, 0x50, 0]
            && Field(b, 8, 2, 1) && Field(b, 10, 2, 96) && Field(b, 12, 4, 0) && Field(b, 16, 2, 1) && Field(b, 18, 2, 32)
            && Field(b, 20, 8, |b| - 96) && Field(b, 28, 8, applied)
            && Field(b, 36, 4, riskShape.accounts) && Field(b, 40, 4, riskShape.orders)
            && Field(b, 44, 4, shape.levels) && Field(b, 48, 4, shape.orders)
            && b[52..84] == sha(DOMAIN + (b[..52] + Zeros(44)) + b[96..]) && b[84..96] == Zeros(12)
            && b[96..] == PutState(r)
  {
    hide PutState, CountedState, Field;
    var payload := PutState(r);
    var blank := BlankHeader(|payload|, applied, shape, riskShape);
    var h := blank.(digest := SnapshotDigest(sha, blank, payload));
    HeaderLayout(h, payload);
    BlankedHeader(h, payload);
    ZerosAre();
    assert h.(digest := NO_DIGEST) == blank;
    hide PutHeader;
  }

  function Zeros(n: nat): (z: Octets)
    ensures |z| == n
  {
    seq(n, i => 0)
  }

  lemma {:induction false} ZeroBytes(n: nat)
    ensures ToBytes(n, 0) == Zeros(n)
  {
    if n > 0 {
      ZeroBytes(n - 1);
    }
  }

  lemma {:induction false} ZerosAre()
    ensures NO_DIGEST == Zeros(32) && NO_PAD == Zeros(12) && Zeros(32) + Zeros(12) == Zeros(44)
  {
    hide ToBytes;
    ZeroBytes(32);
    ZeroBytes(12);
  }

  /** Blanking the digest of a header zeroes its 32 bytes. */
  lemma {:induction false} BlankedHeader(h: Header, payload: Octets)
    requires h.pad == NO_PAD
    ensures |PutHeader(h, payload)| >= 96
    ensures PutHeader(h.(digest := NO_DIGEST), []) == PutHeader(h, payload)[..52] + Zeros(44)
  {
    hide ToBytes, Zeros, PutHeader;
    ZerosAre();
    var blank := h.(digest := NO_DIGEST);
    HeaderTail(h, payload);
    HeaderTail(blank, []);
    SameFront(h, blank, payload, []);
    InThree(PutHeader(blank, []));
  }

  lemma {:induction false} InThree(b: Octets)
    requires |b| == 96
    ensures b == b[..52] + (b[52..84] + b[84..96])
  {
  }

  lemma {:induction false} SameFront(g: Header, h: Header, x: Octets, y: Octets)
    requires h == g.(digest := h.digest)
    ensures |PutHeader(g, x)| >= 52 && |PutHeader(h, y)| >= 52
    ensures PutHeader(g, x)[..52] == PutHeader(h, y)[..52]
  {
    hide ToBytes;
    var front := g.magic + (ToBytes(2, g.version) + (ToBytes(2, g.headerLength) + (ToBytes(4, g.flags) + (ToBytes(2, g.hash)
                 + (ToBytes(2, g.digestLength) + (ToBytes(8, g.payloadLength) + (ToBytes(8, g.applied) + (ToBytes(4, g.accounts)
                 + (ToBytes(4, g.riskOrders) + (ToBytes(4, g.levels) + ToBytes(4, g.levelOrders)))))))))));
    assert |front| == 52;
    assert PutHeader(g, x) == front + (g.digest + (g.pad + x));
    assert PutHeader(h, y) == front + (h.digest + (h.pad + y));
  }

  // Journal records and command frames.

  /** 64 bytes a record; the checksum is that of the record with the checksum zeroed. */
  lemma {:induction false} RecordLayout(crc: Octets -> U32, r: F.Record)
    ensures var b := F.EncodeRecord(crc, r);
            && |b| == 64
            && Field(b, 0, 2, 0x4a52) && Field(b, 2, 1, 1) && Field(b, 3, 1, 0) && Field(b, 4, 8, r.sequence) && Field(b, 12, 2, r.length)
            && Field(b, 14, 4, crc(b[..14] + [0, 0, 0, 0] + b[18..])) && b[18..] == r.payload
  {
    hide Field;
    F.RecordLength(crc, r);
    RecordTails(r, F.Checksum(crc, r));
    RecordTails(r, 0);
    ZeroBytes(4);
    var sum := F.Checksum(crc, r);
    var b5 := PutU32(sum, r.payload);
    var b4 := PutU16(r.length, b5);
    var b3 := PutU64(r.sequence, b4);
    var b2 := PutU8(0, b3);
    var b1 := PutU8(F.RECORD_VERSION, b2);
    assert F.PutRecord(r, 0) == F.PutRecord(r, sum)[..14] + [0, 0, 0, 0] + F.PutRecord(r, sum)[18..];
    hide PutU8, PutU16, PutU32, PutU64;
    Field32(sum, r.payload);
    Field16(r.length, b5);
    Field64(r.sequence, b4);
    Field8(0, b3);
    Field8(F.RECORD_VERSION, b2);
    Field16(F.RECORD_MAGIC, b1);
  }

  lemma {:induction false} RecordTails(r: F.Record, sum: U32)
    ensures var b := F.PutRecord(r, sum);
            && |b| == 64 && b[18..] == r.payload && b[14..18] == ToBytes(4, sum)
            && b[..14] == ToBytes(2, F.RECORD_MAGIC) + (ToBytes(1, F.RECORD_VERSION) + (ToBytes(1, 0) + (ToBytes(8, r.sequence) + ToBytes(2, r.length))))
  {
    hide ToBytes;
    var front := ToBytes(2, F.RECORD_MAGIC) + (ToBytes(1, F.RECORD_VERSION) + (ToBytes(1, 0) + (ToBytes(8, r.sequence) + ToBytes(2, r.length))));
    assert |front| == 14;
    assert F.PutRecord(r, sum) == front + (ToBytes(4, sum) + r.payload);
  }

  function TifByte(t: TimeInForce): nat {
    match t
    case Gtc => 1
    case Ioc => 2
    case Fok => 3
    case PostOnly => 4
  }

  /** Version, type and length, then the fields of the command. */
  lemma {:induction false} FrameLayout(c: Command)
    ensures var b := W.EncodeCommand(c);
            && Field(b, 0, 1, 2) && Field(b, 2, 2, |b|)
            && match c
               case New(o) =>
                 && |b| == 46 && Field(b, 1, 1, 1) && Field(b, 4, 8, o.orderId) && Field(b, 12, 4, o.accountId) && Field(b, 16, 4, o.instrument)
                 && Field(b, 20, 8, Word(o.price)) && Field(b, 28, 8, o.quantity) && Field(b, 36, 8, o.sequence)
                 && Field(b, 44, 1, SideByte(o.side)) && Field(b, 45, 1, TifByte(o.tif))
               case Cancel(x) =>
                 && |b| == 28 && Field(b, 1, 1, 2) && Field(b, 4, 8, x.orderId) && Field(b, 12, 4, x.accountId) && Field(b, 16, 4, x.instrument)
                 && Field(b, 20, 8, x.sequence)
               case Replace(r) =>
                 && |b| == 44 && Field(b, 1, 1, 3) && Field(b, 4, 8, r.orderId) && Field(b, 12, 4, r.accountId) && Field(b, 16, 4, r.instrument)
                 && Field(b, 20, 8, r.sequence) && Field(b, 28, 8, Word(r.price)) && Field(b, 36, 8, r.quantity)
  {
    hide Field, Word, SideByte, TifByte, W.PutNew, W.PutCancel, W.PutReplace, PutU8, PutU16;
    W.FrameLength(c);
    match c
    case New(o) =>
      NewFields(o);
      FrameFields(W.NEW_ORDER_TYPE, W.NEW_ORDER_LEN, W.PutNew(o));
    case Cancel(x) =>
      CancelFields(x);
      FrameFields(W.CANCEL_ORDER_TYPE, W.CANCEL_ORDER_LEN, W.PutCancel(x));
    case Replace(r) =>
      ReplaceFields(r);
      FrameFields(W.REPLACE_ORDER_TYPE, W.REPLACE_ORDER_LEN, W.PutReplace(r));
  }

  lemma {:induction false} FrameFields(kind: U8, length: U16, body: Octets)
    ensures var b := W.Frame(kind, length, body);
            && Field(b, 0, 1, 2) && Field(b, 1, 1, kind) && Field(b, 2, 2, length)
            && forall at: nat, width: nat, y: nat :: Field(body, at, width, y) ==> Field(b, at + 4, width, y)
  {
    hide Field, PutU8, PutU16;
    var b2 := PutU16(length, body);
    var b1 := PutU8(kind, b2);
    Field16(length, body);
    Field8(kind, b2);
    Field8(2, b1);
    forall at: nat, width: nat, y: nat | Field(body, at, width, y) ensures Field(W.Frame(kind, length, body), at + 4, width, y) {
      assert Field(b2, at + 2, width, y);
      assert Field(b1, (at + 2) + 1, width, y);
      assert Field(PutU8(2, b1), ((at + 2) + 1) + 1, width, y);
    }
  }

  lemma {:induction false} NewFields(o: NewOrder)
    ensures var b := W.PutNew(o);
            && Field(b, 0, 8, o.orderId) && Field(b, 8, 4, o.accountId) && Field(b, 12, 4, o.instrument) && Field(b, 16, 8, Word(o.price))
            && Field(b, 24, 8, o.quantity) && Field(b, 32, 8, o.sequence) && Field(b, 40, 1, SideByte(o.side)) && Field(b, 41, 1, TifByte(o.tif))
  {
    hide PutU8, PutU32, PutU64, PutI64, PutSide, Field, Word, SideByte;
    var b7 := PutU8(W.TifTag(o.tif), []);
    var b6 := PutSide(o.side, b7);
    var b5 := PutU64(o.sequence, b6);
    var b4 := PutU64(o.quantity, b5);
    var b3 := PutI64(o.price, b4);
    var b2 := PutU32(o.instrument, b3);
    var b1 := PutU32(o.accountId, b2);
    Field8(W.TifTag(o.tif), []);
    FieldSide(o.side, b7);
    Field64(o.sequence, b6);
    Field64(o.quantity, b5);
    FieldWord(o.price, b4);
    Field32(o.instrument, b3);
    Field32(o.accountId, b2);
    Field64(o.orderId, b1);
  }

  lemma {:induction false} CancelFields(x: CancelOrder)
    ensures var b := W.PutCancel(x);
            Field(b, 0, 8, x.orderId) && Field(b, 8, 4, x.accountId) && Field(b, 12, 4, x.instrument) && Field(b, 16, 8, x.sequence)
  {
    hide PutU32, PutU64, Field;
    var b3 := PutU64(x.sequence, []);
    var b2 := PutU32(x.instrument, b3);
    var b1 := PutU32(x.accountId, b2);
    Field64(x.sequence, []);
    Field32(x.instrument, b3);
    Field32(x.accountId, b2);
    Field64(x.orderId, b1);
  }

  lemma {:induction false} ReplaceFields(r: ReplaceOrder)
    ensures var b := W.PutReplace(r);
            && Field(b, 0, 8, r.orderId) && Field(b, 8, 4, r.accountId) && Field(b, 12, 4, r.instrument)
            && Field(b, 16, 8, r.sequence) && Field(b, 24, 8, Word(r.price)) && Field(b, 32, 8, r.quantity)
  {
    hide PutU32, PutU64, PutI64, Field, Word;
    var b5 := PutU64(r.quantity, []);
    var b4 := PutI64(r.price, b5);
    var b3 := PutU64(r.sequence, b4);
    var b2 := PutU32(r.instrument, b3);
    var b1 := PutU32(r.accountId, b2);
    Field64(r.quantity, []);
    FieldWord(r.price, b5);
    Field64(r.sequence, b4);
    Field32(r.instrument, b3);
    Field32(r.accountId, b2);
    Field64(r.orderId, b1);
  }
}
