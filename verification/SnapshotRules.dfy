/** Which byte strings are snapshots: every demand of the container in the order of
    checking, told by the bytes themselves. */
module SnapshotRules {
  import opened Types
  import opened Bytes
  import opened Decisions
  import opened StateCodec
  import opened Snapshots
  import opened Layouts
  import R = RiskSpec
  import BookSpec
  import GatewayRestore

  /** The number in a two-byte field, as an error reports it. */
  function Short(b: Octets, at: nat): U16
    requires at + 2 <= |b|
  {
    (b[at] as int) * 256 + b[at + 1]
  }

  function Wide(b: Octets, at: nat): U32
    requires at + 4 <= |b|
  {
    Short(b, at) * U16_BOUND + Short(b, at + 2)
  }

  function FormatClauses(b: Octets): seq<Clause<SnapshotError>>
    requires |b| >= 96
  {
    [Clause(b[..8] == [0x48, 0x46, 0x54, 0x53, 0x4e, 0x41, 0x50, 0], BadMagic),
     Clause(Field(b, 8, 2, 1), UnsupportedVersion(Short(b, 8))),
     Clause(Field(b, 10, 2, 96), HeaderLength(Short(b, 10))),
     Clause(Field(b, 12, 4, 0), UnsupportedFlags(Wide(b, 12))),
     Clause(Field(b, 16, 2, 1), UnsupportedHash(Short(b, 16)))]
    + [Clause(Field(b, 18, 2, 32), DigestLength(Short(b, 18)))]
  }

  function LengthClauses(b: Octets): seq<Clause<SnapshotError>>
    requires |b| >= 96
  {
    var payload := Spelled(b[20..28]);
    [Clause(96 + payload < U64_BOUND, LengthOverflow),
     Clause(|b| >= 96 + payload, BadPayloadField(Truncated)),
     Clause(|b| <= 96 + payload, TrailingBytes)]
  }

  function CapacityClauses(b: Octets, at: nat, capacity: nat): seq<Clause<SnapshotError>> {
    [Clause(capacity < U32_BOUND, LengthOverflow), Clause(Field(b, at, 4, capacity), CapacityMismatch)]
  }

  function SealClauses(b: Octets, sha: Octets -> Digest): seq<Clause<SnapshotError>>
    requires |b| >= 96
  {
    [Clause(b[84..96] == Zeros(12), BadPayloadField(FieldError.NonCanonical)),
     Clause(b[52..84] == sha(DOMAIN + (b[..52] + Zeros(44)) + b[96..]), IntegrityMismatch)]
  }

  /** All that the container asks, once there are 96 bytes of it. */
  function HeaderClauses(b: Octets, shape: BookSpec.Shape, riskShape: R.RiskShape, sha: Octets -> Digest): seq<Clause<SnapshotError>>
    requires |b| >= 96
  {
    FormatClauses(b) + LengthClauses(b)
    + CapacityClauses(b, 36, riskShape.accounts) + CapacityClauses(b, 40, riskShape.orders)
    + CapacityClauses(b, 44, shape.levels) + CapacityClauses(b, 48, shape.orders)
    + SealClauses(b, sha)
  }

  /** 96 bytes hold a header, and its fields are where they are written. */
  lemma {:induction false} HeaderRead(b: Octets)
    ensures GetHeader(b).Ok? <==> |b| >= 96
    ensures |b| >= 96 ==> PutHeader(GetHeader(b).value.0, GetHeader(b).value.1) == b
  {
    HeaderReads(b);
    if GetHeader(b).Ok? {
      WriteHeader(b);
    }
    hide GetHeader, PutHeader;
  }

  lemma {:induction false} HeaderReads(b: Octets)
    ensures GetHeader(b).Ok? <==> |b| >= 96
    ensures GetHeader(b).Err? ==> GetHeader(b) == Err(Truncated)
  {
    HeaderSizes();
    hide GetU16, GetU32, GetU64;
  }

  lemma {:induction false} HeaderSizes()
    ensures forall b :: if |b| >= 2 then GetU16(b).Ok? && |GetU16(b).value.1| == |b| - 2 else GetU16(b) == Err(Truncated)
    ensures forall b :: if |b| >= 4 then GetU32(b).Ok? && |GetU32(b).value.1| == |b| - 4 else GetU32(b) == Err(Truncated)
    ensures forall b :: if |b| >= 8 then GetU64(b).Ok? && |GetU64(b).value.1| == |b| - 8 else GetU64(b) == Err(Truncated)
  {
  }

  lemma {:induction false} ShortIs(b: Octets, at: nat, x: U16)
    requires Field(b, at, 2, x)
    ensures Short(b, at) == x
  {
    TwoBytes(b[at..at + 2]);
  }

  lemma {:induction false} TwoBytes(b: Octets)
    requires |b| == 2
    ensures Spelled(b) == (b[0] as int) * 256 + b[1]
  {
    assert b[1..][1..] == [] && Pow256(0) == 1 && Pow256(1) == 256;
    assert Spelled(b[1..]) == b[1];
  }

  lemma {:induction false} WideIs(b: Octets, at: nat, x: U32)
    requires Field(b, at, 4, x)
    ensures Wide(b, at) == x
  {
    FourBytes(b[at..at + 4]);
  }

  lemma {:induction false} FourBytes(b: Octets)
    requires |b| == 4
    ensures Spelled(b) == ((b[0] as int) * 256 + b[1]) * U16_BOUND + ((b[2] as int) * 256 + b[3])
  {
    TwoBytes(b[2..]);
    assert b[1..][1..] == b[2..];
    assert Pow256(2) == 256 * Pow256(1) && Pow256(3) == 256 * Pow256(2);
  }

  lemma {:induction false} OneValue(b: Octets, at: nat, width: nat, x: nat, y: nat)
    requires Field(b, at, width, x)
    ensures Field(b, at, width, y) <==> x == y
  {
  }

  lemma {:induction false} FormatIs(b: Octets, h: Header, payload: Octets)
    requires b == PutHeader(h, payload)
    ensures |b| >= 96
    ensures Verdict(FormatClauses(b)) ==
            if h.magic != MAGIC then Some(BadMagic)
            else if h.version != FORMAT_VERSION then Some(UnsupportedVersion(h.version))
            else if h.headerLength != HEADER_SIZE then Some(HeaderLength(h.headerLength))
            else if h.flags != 0 then Some(UnsupportedFlags(h.flags))
            else if h.hash != HASH_ALGORITHM_SHA256 then Some(UnsupportedHash(h.hash))
            else if h.digestLength != DIGEST_SIZE then Some(DigestLength(h.digestLength)) else None
  {
    hide PutHeader, Field, Verdict, Short, Wide;
    HeaderLayout(h, payload);
    OneValue(b, 8, 2, h.version, 1);
    OneValue(b, 10, 2, h.headerLength, 96);
    OneValue(b, 12, 4, h.flags, 0);
    OneValue(b, 16, 2, h.hash, 1);
    OneValue(b, 18, 2, h.digestLength, 32);
    ShortIs(b, 8, h.version);
    ShortIs(b, 10, h.headerLength);
    WideIs(b, 12, h.flags);
    ShortIs(b, 16, h.hash);
    ShortIs(b, 18, h.digestLength);
    var c := FormatClauses(b);
    FiveClauses(c[0], c[1], c[2], c[3], c[4]);
    OneClause(c[5]);
    VerdictThen([c[0], c[1], c[2], c[3], c[4]], [c[5]]);
    assert c == [c[0], c[1], c[2], c[3], c[4]] + [c[5]];
  }

  lemma {:induction false} LengthIs(b: Octets, h: Header, payload: Octets)
    requires b == PutHeader(h, payload)
    ensures |b| >= 96
    ensures Verdict(LengthClauses(b)) ==
            if HEADER_SIZE + h.payloadLength >= U64_BOUND then Some(LengthOverflow)
            else if |payload| < h.payloadLength then Some(BadPayloadField(Truncated))
            else if |payload| > h.payloadLength then Some(TrailingBytes) else None
  {
    hide PutHeader, Verdict;
    HeaderLayout(h, payload);
    var c := LengthClauses(b);
    ThreeClauses(c[0], c[1], c[2]);
  }

  lemma {:induction false} CapacityIs(b: Octets, at: nat, found: U32, capacity: nat)
    requires Field(b, at, 4, found)
    ensures Verdict(CapacityClauses(b, at, capacity)) == CapacityDefect(found, capacity)
  {
    hide Field, Verdict;
    OneValue(b, at, 4, found, capacity);
    TwoClauses(CapacityClauses(b, at, capacity)[0], CapacityClauses(b, at, capacity)[1]);
  }

  lemma {:induction false} CapacitiesAre(b: Octets, h: Header, payload: Octets, shape: BookSpec.Shape, riskShape: R.RiskShape)
    requires b == PutHeader(h, payload)
    ensures Verdict(CapacityClauses(b, 36, riskShape.accounts) + CapacityClauses(b, 40, riskShape.orders)
                    + CapacityClauses(b, 44, shape.levels) + CapacityClauses(b, 48, shape.orders))
            == CapacitiesDefect(h, shape, riskShape)
  {
    hide PutHeader, Field, Verdict, CapacityClauses, CapacityDefect;
    HeaderLayout(h, payload);
    var w, x := CapacityClauses(b, 36, riskShape.accounts), CapacityClauses(b, 40, riskShape.orders);
    var y, z := CapacityClauses(b, 44, shape.levels), CapacityClauses(b, 48, shape.orders);
    CapacityIs(b, 36, h.accounts, riskShape.accounts);
    CapacityIs(b, 40, h.riskOrders, riskShape.orders);
    CapacityIs(b, 44, h.levels, shape.levels);
    CapacityIs(b, 48, h.levelOrders, shape.orders);
    VerdictThen(w, x);
    VerdictThen(w + x, y);
    VerdictThen(w + x + y, z);
  }

  lemma {:induction false} SealIs(b: Octets, h: Header, payload: Octets, sha: Octets -> Digest)
    requires b == PutHeader(h, payload)
    ensures |b| >= 96
    ensures Verdict(SealClauses(b, sha)) ==
            if h.pad != NO_PAD then Some(BadPayloadField(FieldError.NonCanonical))
            else if SnapshotDigest(sha, h, payload) != h.digest then Some(IntegrityMismatch) else None
  {
    hide PutHeader, Field, Verdict, Zeros, ToBytes;
    HeaderLayout(h, payload);
    ZerosAre();
    TwoClauses(SealClauses(b, sha)[0], SealClauses(b, sha)[1]);
    if h.pad == NO_PAD {
      BlankedHeader(h, payload);
    }
  }

  lemma {:induction false} HeaderIs(b: Octets, h: Header, payload: Octets, shape: BookSpec.Shape, riskShape: R.RiskShape, sha: Octets -> Digest)
    requires b == PutHeader(h, payload)
    ensures |b| >= 96
    ensures Verdict(HeaderClauses(b, shape, riskShape, sha)) == HeaderDefect(h, payload, shape, riskShape, sha)
  {
    hide PutHeader, Verdict, FormatClauses, LengthClauses, CapacityClauses, SealClauses, CapacitiesDefect, SnapshotDigest;
    FormatIs(b, h, payload);
    LengthIs(b, h, payload);
    CapacitiesAre(b, h, payload, shape, riskShape);
    SealIs(b, h, payload, sha);
    var f, l, s := FormatClauses(b), LengthClauses(b), SealClauses(b, sha);
    var w, x := CapacityClauses(b, 36, riskShape.accounts), CapacityClauses(b, 40, riskShape.orders);
    var y, z := CapacityClauses(b, 44, shape.levels), CapacityClauses(b, 48, shape.orders);
    assert f + l + w + x + y + z + s == f + l + (w + x + y + z) + s;
    VerdictThen(f, l);
    VerdictThen(f + l, w + x + y + z);
    VerdictThen(f + l + (w + x + y + z), s);
  }

  /** What decoding says of any bytes: too few, the first demand of the container that they
      miss, the payload's own defect, a cut that is not the counter's, or the state's. */
  lemma {:induction false} DecodeDecided(b: Octets, shape: BookSpec.Shape, riskShape: R.RiskShape, sha: Octets -> Digest)
    ensures |b| < 96 ==> Decode(b, shape, riskShape, sha) == Err(BadPayloadField(Truncated))
    ensures |b| >= 96 ==>
              var header := Verdict(HeaderClauses(b, shape, riskShape, sha));
              var d := Decode(b, shape, riskShape, sha);
              if header.Some? then d == Err(header.value)
              else match GetState(b[96..], shape, riskShape)
                case Err(BadField(e)) => d == Err(BadPayloadField(e))
                case Err(TrailingPayload) => d == Err(TrailingBytes)
                case Ok(r) =>
                  var applied := Spelled(b[28..36]);
                  if r.expected != applied + 1 then d == Err(InvalidSequence)
                  else match GatewayRestore.GatewayDefect(r, shape, riskShape)
                    case Some(e) => d == Err(BadGateway(e))
                    case None => d.Ok? && d.value.records == r && d.value.applied == applied && d.value.digest == b[52..84]
  {
    hide GetHeader, PutHeader, GetState, HeaderDefect, HeaderClauses, Verdict, GatewayRestore.GatewayDefect;
    HeaderReads(b);
    HeaderRead(b);
    if |b| >= 96 {
      var (h, payload) := GetHeader(b).value;
      HeaderIs(b, h, payload, shape, riskShape, sha);
      HeaderLayout(h, payload);
    }
  }
}
