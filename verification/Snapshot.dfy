/** Snapshot container: a fixed header with capacities and an integrity digest in
    front of the state payload. The digest is any fixed-length function of its input. */
module Snapshots {
  import opened Types
  import opened Bytes
  import opened GatewayRestore
  import opened StateCodec
  import opened RiskRestore
  import opened BookRestore
  import R = RiskSpec
  import BookSpec

  const HEADER_SIZE: nat := 96
  const DIGEST_SIZE: nat := 32
  const FORMAT_VERSION: nat := 1
  const HASH_ALGORITHM_SHA256: nat := 1

  /** The bytes of `HFTSNAP` and a zero. */
  const MAGIC: Octets := [72, 70, 84, 83, 78, 65, 80, 0]

  /** The bytes of `deterministic-exchange snapshot v1` and a zero. */
  const DOMAIN: Octets :=
    [100, 101, 116, 101, 114, 109, 105, 110, 105, 115, 116, 105, 99, 45, 101, 120, 99, 104, 97, 110, 103, 101,
     32, 115, 110, 97, 112, 115, 104, 111, 116, 32, 118, 49, 0]

  /** A digest function: nothing is assumed of it but the length of its result. */
  type Digest = d: Octets | |d| == DIGEST_SIZE witness ToBytes(DIGEST_SIZE, 0)
  type Pad = d: Octets | |d| == 12 witness ToBytes(12, 0)
  type Magic = d: Octets | |d| == 8 witness ToBytes(8, 0)

  const NO_DIGEST: Digest := ToBytes(DIGEST_SIZE, 0)
  const NO_PAD: Pad := ToBytes(12, 0)

  datatype SnapshotError =
    | BadPayloadField(field: FieldError)
    | TrailingBytes
    | BadMagic
    | UnsupportedVersion(version: U16)
    | HeaderLength(length: U16)
    | UnsupportedFlags(flags: U32)
    | UnsupportedHash(hash: U16)
    | DigestLength(digestLength: U16)
    | LengthOverflow
    | CapacityMismatch
    | IntegrityMismatch
    | InvalidSequence
    | BadGateway(gateway: GatewayStateError)

  datatype Header = Header(
    magic: Magic, version: U16, headerLength: U16, flags: U32, hash: U16, digestLength: U16,
    payloadLength: U64, applied: U64, accounts: U32, riskOrders: U32, levels: U32, levelOrders: U32,
    digest: Digest, pad: Pad)

  function Take(n: nat, b: Octets): Read<Octets> {
    if |b| < n then Err(Truncated) else Ok((b[..n], b[n..]))
  }

  function PutHeader(h: Header, rest: Octets): Octets {
    h.magic + PutU16(h.version, PutU16(h.headerLength, PutU32(h.flags, PutU16(h.hash, PutU16(h.digestLength,
      PutU64(h.payloadLength, PutU64(h.applied, PutU32(h.accounts, PutU32(h.riskOrders, PutU32(h.levels,
        PutU32(h.levelOrders, h.digest + (h.pad + rest))))))))))))
  }

  function GetHeader(b: Octets): Read<Header> {
    var (magic, b) :- Take(8, b);
    var (version, b) :- GetU16(b);
    var (headerLength, b) :- GetU16(b);
    var (flags, b) :- GetU32(b);
    var (hash, b) :- GetU16(b);
    var (digestLength, b) :- GetU16(b);
    var (payloadLength, b) :- GetU64(b);
    var (applied, b) :- GetU64(b);
    var (accounts, b) :- GetU32(b);
    var (riskOrders, b) :- GetU32(b);
    var (levels, b) :- GetU32(b);
    var (levelOrders, b) :- GetU32(b);
    var (digest, b) :- Take(DIGEST_SIZE, b);
    var (pad, b) :- Take(12, b);
    Ok((Header(magic, version, headerLength, flags, hash, digestLength, payloadLength, applied,
               accounts, riskOrders, levels, levelOrders, digest, pad), b))
  }

  /** The digest covers a domain tag, the header with its digest field blank, and the payload. */
  function SnapshotDigest(sha: Octets -> Digest, h: Header, payload: Octets): Digest {
    sha(DOMAIN + PutHeader(h.(digest := NO_DIGEST), []) + payload)
  }

  predicate CapacitiesFit(shape: BookSpec.Shape, riskShape: R.RiskShape) {
    riskShape.accounts < U32_BOUND && riskShape.orders < U32_BOUND && shape.levels < U32_BOUND && shape.orders < U32_BOUND
  }

  function BlankHeader(payload: nat, applied: U64, shape: BookSpec.Shape, riskShape: R.RiskShape): Header
    requires CapacitiesFit(shape, riskShape) && payload < U64_BOUND
  {
    Header(MAGIC, FORMAT_VERSION, HEADER_SIZE, 0, HASH_ALGORITHM_SHA256, DIGEST_SIZE, payload, applied,
           riskShape.accounts, riskShape.orders, shape.levels, shape.orders, NO_DIGEST, NO_PAD)
  }

  /** One gateway state cut after `applied` commands, as bytes. */
  function Encode(r: GatewayRecords, applied: U64, shape: BookSpec.Shape, riskShape: R.RiskShape, sha: Octets -> Digest): Result<Octets, SnapshotError> {
    if applied + 1 >= U64_BOUND || r.expected != applied + 1 then Err(InvalidSequence)
    else if !CountedState(r) || |PutState(r)| >= U64_BOUND || !CapacitiesFit(shape, riskShape) then Err(LengthOverflow)
    else
      var payload := PutState(r);
      var h := BlankHeader(|payload|, applied, shape, riskShape);
      Ok(PutHeader(h.(digest := SnapshotDigest(sha, h, payload)), payload))
  }

  /** First capacity of the header that differs from the reader's. */
  function CapacityDefect(found: U32, capacity: nat): Option<SnapshotError> {
    if capacity >= U32_BOUND then Some(LengthOverflow) else if found != capacity then Some(CapacityMismatch) else None
  }

  function CapacitiesDefect(h: Header, shape: BookSpec.Shape, riskShape: R.RiskShape): Option<SnapshotError> {
    if CapacityDefect(h.accounts, riskShape.accounts).Some? then CapacityDefect(h.accounts, riskShape.accounts)
    else if CapacityDefect(h.riskOrders, riskShape.orders).Some? then CapacityDefect(h.riskOrders, riskShape.orders)
    else if CapacityDefect(h.levels, shape.levels).Some? then CapacityDefect(h.levels, shape.levels)
    else CapacityDefect(h.levelOrders, shape.orders)
  }

  /** First container defect, before the payload is looked at. */
  function HeaderDefect(h: Header, payload: Octets, shape: BookSpec.Shape, riskShape: R.RiskShape, sha: Octets -> Digest): Option<SnapshotError> {
    if h.magic != MAGIC then Some(BadMagic)
    else if h.version != FORMAT_VERSION then Some(UnsupportedVersion(h.version))
    else if h.headerLength != HEADER_SIZE then Some(HeaderLength(h.headerLength))
    else if h.flags != 0 then Some(UnsupportedFlags(h.flags))
    else if h.hash != HASH_ALGORITHM_SHA256 then Some(UnsupportedHash(h.hash))
    else if h.digestLength != DIGEST_SIZE then Some(DigestLength(h.digestLength))
    else if HEADER_SIZE + h.payloadLength >= U64_BOUND then Some(LengthOverflow)
    else if |payload| < h.payloadLength then Some(BadPayloadField(Truncated))
    else if |payload| > h.payloadLength then Some(TrailingBytes)
    else if CapacitiesDefect(h, shape, riskShape).Some? then CapacitiesDefect(h, shape, riskShape)
    else if h.pad != NO_PAD then Some(BadPayloadField(FieldError.NonCanonical))
    else if SnapshotDigest(sha, h, payload) != h.digest then Some(IntegrityMismatch)
    else None
  }

  datatype Decoded = Decoded(records: GatewayRecords, applied: U64, digest: Digest)

  function Decode(b: Octets, shape: BookSpec.Shape, riskShape: R.RiskShape, sha: Octets -> Digest): Result<Decoded, SnapshotError> {
    match GetHeader(b)
    case Err(e) => Err(BadPayloadField(e))
    case Ok((h, payload)) =>
      if HeaderDefect(h, payload, shape, riskShape, sha).Some? then Err(HeaderDefect(h, payload, shape, riskShape, sha).value)
      else match GetState(payload, shape, riskShape)
        case Err(BadField(e)) => Err(BadPayloadField(e))
        case Err(TrailingPayload) => Err(TrailingBytes)
        case Ok(r) =>
          if h.applied + 1 >= U64_BOUND || r.expected != h.applied + 1 then Err(InvalidSequence)
          else if GatewayDefect(r, shape, riskShape).Some? then Err(BadGateway(GatewayDefect(r, shape, riskShape).value))
          else Ok(Decoded(r, h.applied, h.digest))
  }

  lemma {:induction false} TakeReads(n: nat, x: Octets, rest: Octets)
    requires |x| == n
    ensures Take(n, x + rest) == Ok((x, rest))
  {
  }

  lemma {:induction false} ReadHeader(h: Header, rest: Octets)
    ensures GetHeader(PutHeader(h, rest)) == Ok((h, rest))
  {
    hide PutU16, PutU32, PutU64, GetU16, GetU32, GetU64, Take;
    UnsignedReads();
    TakeReads(12, h.pad, rest);
    TakeReads(DIGEST_SIZE, h.digest, h.pad + rest);
    TakeReads(8, h.magic, PutU16(h.version, PutU16(h.headerLength, PutU32(h.flags, PutU16(h.hash, PutU16(h.digestLength,
      PutU64(h.payloadLength, PutU64(h.applied, PutU32(h.accounts, PutU32(h.riskOrders, PutU32(h.levels,
        PutU32(h.levelOrders, h.digest + (h.pad + rest)))))))))))));
  }

  lemma {:induction false} TakeWrites(n: nat)
    ensures forall b :: Take(n, b).Ok? ==> |Take(n, b).value.0| == n && Take(n, b).value.0 + Take(n, b).value.1 == b
  {
  }

  lemma {:induction false} WriteHeader(b: Octets)
    requires GetHeader(b).Ok?
    ensures PutHeader(GetHeader(b).value.0, GetHeader(b).value.1) == b
  {
    hide PutU16, PutU32, PutU64, GetU16, GetU32, GetU64, Take;
    UnsignedWrites();
    TakeWrites(8);
    TakeWrites(DIGEST_SIZE);
    TakeWrites(12);
  }

  /** Reading back an encoded snapshot gives exactly what restore says of the state: the
      state and its cut, or the state's first defect. */
  lemma {:induction false} EncodedReads(r: GatewayRecords, applied: U64, shape: BookSpec.Shape, riskShape: R.RiskShape, sha: Octets -> Digest)
    requires Encode(r, applied, shape, riskShape, sha).Ok? && SizesFit(r, shape, riskShape) && r.book.instrument == r.instrument
    requires HEADER_SIZE + |PutState(r)| < U64_BOUND
    ensures var d := Decode(Encode(r, applied, shape, riskShape, sha).value, shape, riskShape, sha);
            match GatewayDefect(r, shape, riskShape)
            case Some(e) => d == Err(BadGateway(e))
            case None => d.Ok? && d.value.records == r && d.value.applied == applied
  {
    hide GetHeader, PutHeader, PutState, GetState, CountedState, GatewayDefect, SizesFit;
    StateDecodes(r, shape, riskShape);
    var payload := PutState(r);
    var blank := BlankHeader(|payload|, applied, shape, riskShape);
    var h := blank.(digest := SnapshotDigest(sha, blank, payload));
    ReadHeader(h, payload);
    assert h.(digest := NO_DIGEST) == blank;
  }

  /** Reading back an encoded snapshot of a restorable state gives that state and its cut. */
  lemma {:induction false} EncodedDecodes(r: GatewayRecords, applied: U64, shape: BookSpec.Shape, riskShape: R.RiskShape, sha: Octets -> Digest)
    requires Encode(r, applied, shape, riskShape, sha).Ok? && GatewayDefect(r, shape, riskShape).None?
    requires HEADER_SIZE + |PutState(r)| < U64_BOUND
    ensures var d := Decode(Encode(r, applied, shape, riskShape, sha).value, shape, riskShape, sha);
            d.Ok? && d.value.records == r && d.value.applied == applied
  {
    hide Encode, Decode, GatewayDefect, SizesFit;
    AcceptedSizes(r, shape, riskShape);
    EncodedReads(r, applied, shape, riskShape, sha);
  }

  lemma {:induction false} AcceptedSizes(r: GatewayRecords, shape: BookSpec.Shape, riskShape: R.RiskShape)
    requires GatewayDefect(r, shape, riskShape).None?
    ensures SizesFit(r, shape, riskShape) && r.book.instrument == r.instrument
  {
    hide CrossDefect, SideError, OrderDefect, AccountsDefect, KeyError;
    SideErrorNone(r.book.bids, Buy, shape, None);
    SideErrorNone(r.book.asks, Sell, shape, None);
  }

  /** An accepted byte string is the encoding of what it decodes to: nothing else decodes. */
  lemma {:induction false} DecodedEncodes(b: Octets, shape: BookSpec.Shape, riskShape: R.RiskShape, sha: Octets -> Digest)
    requires Decode(b, shape, riskShape, sha).Ok?
    ensures var d := Decode(b, shape, riskShape, sha).value;
            && Encode(d.records, d.applied, shape, riskShape, sha) == Ok(b)
            && GatewayDefect(d.records, shape, riskShape).None?
  {
    hide GetHeader, PutHeader, PutState, GetState, CountedState, GatewayDefect;
    var (h, payload) := GetHeader(b).value;
    WriteHeader(b);
    StateEncodes(payload, shape, riskShape);
    var blank := BlankHeader(|payload|, h.applied, shape, riskShape);
    assert blank.(digest := h.digest) == h;
    assert h.(digest := NO_DIGEST) == blank;
  }
}
