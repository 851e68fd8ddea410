/** One journal record: 64 bytes holding a sequence number and one command frame under
    a checksum. The checksum is any 32-bit function of its input. */
module JournalRecords {
  import opened Types
  import opened Bytes

  const MAX_PAYLOAD: nat := 46
  const RECORD_SIZE: nat := 64
  const RECORD_MAGIC: nat := 0x4a52
  const RECORD_VERSION: nat := 1

  type Payload = p: Octets | |p| == MAX_PAYLOAD witness ToBytes(MAX_PAYLOAD, 0)

  /** A record as stored: the frame is the first `length` bytes of the payload field. */
  datatype Record = Record(sequence: Sequence, length: U16, payload: Payload) {
    predicate Valid() {
      length <= MAX_PAYLOAD
    }

    function Slice(): Octets
      requires Valid()
    {
      payload[..length]
    }
  }

  datatype DecodeError =
    | BadMagic(magic: U16)
    | UnsupportedVersion(version: U8)
    | UnsupportedFlags(flags: U8)
    | PayloadLength(length: U16)
    | ChecksumMismatch(sequence: Sequence)
    | Malformed

  /** A record for `frame`, zero padded. */
  function NewRecord(sequence: Sequence, frame: Octets): (r: Record)
    requires |frame| <= MAX_PAYLOAD
    ensures r.Valid() && r.Slice() == frame && r.sequence == sequence
  {
    Record(sequence, |frame|, frame + ToBytes(MAX_PAYLOAD - |frame|, 0))
  }

  function PutRecord(r: Record, checksum: U32): Octets {
    PutU16(RECORD_MAGIC, PutU8(RECORD_VERSION, PutU8(0, PutU64(r.sequence, PutU16(r.length, PutU32(checksum, r.payload))))))
  }

  /** The checksum covers the record with its checksum field blank. */
  function Checksum(crc: Octets -> U32, r: Record): U32 {
    crc(PutRecord(r, 0))
  }

  /** Does a stored record pass verification? Its magic, version and flags are fixed. */
  predicate Verified(crc: Octets -> U32, r: Record, checksum: U32) {
    r.Valid() && checksum == Checksum(crc, r)
  }

  function EncodeRecord(crc: Octets -> U32, r: Record): Octets {
    PutRecord(r, Checksum(crc, r))
  }

  function DecodeRecord(crc: Octets -> U32, b: Octets): Result<Record, DecodeError>
    requires |b| == RECORD_SIZE
  {
    match GetU16(b)
    case Err(_) => Err(Malformed)
    case Ok((magic, b)) =>
      if magic != RECORD_MAGIC then Err(BadMagic(magic))
      else match GetU8(b)
        case Err(_) => Err(Malformed)
        case Ok((version, b)) =>
          if version != RECORD_VERSION then Err(UnsupportedVersion(version))
          else match GetU8(b)
            case Err(_) => Err(Malformed)
            case Ok((flags, b)) => if flags != 0 then Err(UnsupportedFlags(flags)) else DecodeBody(crc, b)
  }

  function DecodeBody(crc: Octets -> U32, b: Octets): Result<Record, DecodeError> {
    match GetU64(b)
    case Err(_) => Err(Malformed)
    case Ok((sequence, b)) =>
      match GetU16(b)
      case Err(_) => Err(Malformed)
      case Ok((length, b)) =>
        if length > MAX_PAYLOAD then Err(PayloadLength(length))
        else match GetU32(b)
          case Err(_) => Err(Malformed)
          case Ok((checksum, payload)) =>
            if |payload| != MAX_PAYLOAD then Err(Malformed)
            else if Checksum(crc, Record(sequence, length, payload)) != checksum then Err(ChecksumMismatch(sequence))
            else Ok(Record(sequence, length, payload))
  }

  lemma {:induction false} RecordLength(crc: Octets -> U32, r: Record)
    ensures |EncodeRecord(crc, r)| == RECORD_SIZE
  {
  }

  /** Decoding an encoded record gives the record back. */
  lemma {:induction false} RecordDecodes(crc: Octets -> U32, r: Record)
    requires r.Valid()
    ensures |EncodeRecord(crc, r)| == RECORD_SIZE
    ensures DecodeRecord(crc, EncodeRecord(crc, r)) == Ok(r)
  {
    RecordLength(crc, r);
    hide PutU8, PutU16, PutU32, PutU64, GetU8, GetU16, GetU32, GetU64, Checksum;
    UnsignedReads();
  }

  /** Only encodings of valid records decode. */
  lemma {:induction false} RecordEncodes(crc: Octets -> U32, b: Octets)
    requires |b| == RECORD_SIZE && DecodeRecord(crc, b).Ok?
    ensures DecodeRecord(crc, b).value.Valid() && EncodeRecord(crc, DecodeRecord(crc, b).value) == b
  {
    hide PutU8, PutU16, PutU32, PutU64, GetU8, GetU16, GetU32, GetU64, Checksum;
    UnsignedWrites();
  }
}
