/** Which journal tails recovery accepts, told by their bytes: whole records under valid
    checksums, each the frame of one command, all in sequence. */
module RecoveryRules {
  import opened Types
  import opened Bytes
  import opened BookSpec
  import opened Decisions
  import opened GatewayRestore
  import opened Layouts
  import opened SnapshotRules
  import opened GatewaySpec
  import opened GatewayLaws
  import opened GatewayRuns
  import opened Recovery
  import J = JournalRecords
  import R = RiskSpec
  import S = Snapshots
  import W = Wire

  /** 64 bytes are a valid record under this sequence number that holds the frame of `c`. */
  ghost predicate RecordTells(crc: Crc, chunk: Octets, expected: Sequence, c: Command) {
    && c.SequenceOf() == expected
    && exists r: J.Record :: r.Valid() && r.sequence == expected && r.Slice() == W.EncodeCommand(c) && chunk == J.EncodeRecord(crc, r)
  }

  /** The `i`-th 64 bytes. */
  function RecordAt(tail: Octets, i: nat): (chunk: Octets)
    requires J.RECORD_SIZE * i + J.RECORD_SIZE <= |tail|
  {
    tail[J.RECORD_SIZE * i..J.RECORD_SIZE * i + J.RECORD_SIZE]
  }

  lemma {:induction false} RecordShift(tail: Octets, i: nat)
    requires J.RECORD_SIZE * i + 2 * J.RECORD_SIZE <= |tail|
    ensures RecordAt(tail[J.RECORD_SIZE..], i) == RecordAt(tail, i + 1)
  {
  }

  lemma {:induction false} RecordFirst(tail: Octets)
    requires |tail| >= J.RECORD_SIZE
    ensures RecordAt(tail, 0) == tail[..J.RECORD_SIZE]
  {
  }

  /** The tail tells exactly these commands, one a record, from `first` on. */
  ghost predicate TailTells(crc: Crc, tail: Octets, first: nat, commands: seq<Command>) {
    && |tail| == J.RECORD_SIZE * |commands| && first + |commands| < U64_BOUND
    && forall i :: 0 <= i < |commands| ==> RecordTells(crc, RecordAt(tail, i), first + i, commands[i])
  }

  lemma {:induction false} ToldReads(crc: Crc, chunk: Octets, offset: nat, expected: Sequence, c: Command)
    requires RecordTells(crc, chunk, expected, c)
    ensures |chunk| == J.RECORD_SIZE && ReadRecord(crc, chunk, offset, expected) == Ok(c)
  {
    hide J.EncodeRecord, J.DecodeRecord, W.EncodeCommand, W.Parse;
    var r: J.Record :| r.Valid() && r.sequence == expected && r.Slice() == W.EncodeCommand(c) && chunk == J.EncodeRecord(crc, r);
    J.RecordDecodes(crc, r);
    W.ParseEncode(c);
  }

  lemma {:induction false} ReadTells(crc: Crc, chunk: Octets, offset: nat, expected: Sequence)
    requires |chunk| == J.RECORD_SIZE && ReadRecord(crc, chunk, offset, expected).Ok?
    ensures RecordTells(crc, chunk, expected, ReadRecord(crc, chunk, offset, expected).value)
  {
    hide J.EncodeRecord, J.DecodeRecord, W.EncodeCommand, W.Parse;
    J.RecordEncodes(crc, chunk);
    W.EncodeParse(J.DecodeRecord(crc, chunk).value.Slice());
  }

  lemma {:induction false} TellsFirst(crc: Crc, tail: Octets, first: nat, commands: seq<Command>)
    requires TailTells(crc, tail, first, commands) && commands != []
    ensures |tail| >= J.RECORD_SIZE && RecordTells(crc, tail[..J.RECORD_SIZE], first, commands[0])
    ensures TailTells(crc, tail[J.RECORD_SIZE..], first + 1, commands[1..])
  {
    hide RecordTells, RecordAt;
    var more := tail[J.RECORD_SIZE..];
    RecordFirst(tail);
    assert RecordTells(crc, RecordAt(tail, 0), first + 0, commands[0]);
    forall i | 0 <= i < |commands| - 1 ensures RecordTells(crc, RecordAt(more, i), first + 1 + i, commands[1..][i]) {
      RecordShift(tail, i);
      assert RecordTells(crc, RecordAt(tail, i + 1), first + (i + 1), commands[i + 1]);
    }
  }

  lemma {:induction false} TellsCons(crc: Crc, tail: Octets, first: nat, c: Command, commands: seq<Command>)
    requires |tail| >= J.RECORD_SIZE && first < U64_BOUND && RecordTells(crc, tail[..J.RECORD_SIZE], first, c)
    requires TailTells(crc, tail[J.RECORD_SIZE..], first + 1, commands)
    ensures TailTells(crc, tail, first, [c] + commands)
  {
    hide RecordTells, RecordAt;
    var more, all := tail[J.RECORD_SIZE..], [c] + commands;
    RecordFirst(tail);
    forall i | 0 <= i < |all| ensures RecordTells(crc, RecordAt(tail, i), first + i, all[i]) {
      if i > 0 {
        RecordShift(tail, i - 1);
        assert RecordTells(crc, RecordAt(more, i - 1), first + 1 + (i - 1), commands[i - 1]);
      }
    }
  }

  /** A tail that tells commands recovers to their replay. */
  lemma {:induction false} ToldRecovers(cfg: Config, g: GatewayState, tail: Octets, commands: seq<Command>, offset: nat, room: nat, crc: Crc)
    requires SoundGateway(cfg, g) && TailTells(crc, tail, g.expected, commands)
    ensures Whole(tail) && RecoverTail(cfg, g, tail, offset, g.expected, room, crc) == Ok(Replay(cfg, g, commands, room))
    decreases |commands|
  {
    hide SoundGateway, Process, ReadRecord, RecordTells, Stops, RecoverTail, Replay;
    WholeTail(tail, |commands|, crc, g.expected, commands);
    if commands == [] {
      EmptyTail(crc, tail, g.expected);
      TailEnd(cfg, g, offset, g.expected, room, crc);
      ReplayNone(cfg, g, room);
    } else {
      TellsFirst(crc, tail, g.expected, commands);
      TellsBound(crc, tail, g.expected, commands);
      ToldReads(crc, tail[..J.RECORD_SIZE], offset, g.expected, commands[0]);
      ToldSequence(crc, tail[..J.RECORD_SIZE], g.expected, commands[0]);
      ProcessCounts(cfg, g, commands[0], room);
      TailStep(cfg, g, tail, offset, g.expected, room, crc);
      ToldRecovers(cfg, Advance(cfg, g, commands[0], room).state, tail[J.RECORD_SIZE..], commands[1..], offset + J.RECORD_SIZE, room, crc);
      ReplayFirst(cfg, g, commands, room);
    }
  }

  lemma {:induction false} WholeTail(tail: Octets, n: nat, crc: Crc, first: nat, commands: seq<Command>)
    requires TailTells(crc, tail, first, commands)
    ensures Whole(tail)
  {
    hide RecordTells;
  }

  lemma {:induction false} EmptyTail(crc: Crc, tail: Octets, first: nat)
    requires TailTells(crc, tail, first, [])
    ensures tail == []
  {
  }

  lemma {:induction false} TellsBound(crc: Crc, tail: Octets, first: nat, commands: seq<Command>)
    requires TailTells(crc, tail, first, commands)
    ensures first + |commands| < U64_BOUND
  {
  }

  lemma {:induction false} ToldSequence(crc: Crc, chunk: Octets, expected: Sequence, c: Command)
    requires RecordTells(crc, chunk, expected, c)
    ensures c.SequenceOf() == expected
  {
  }

  lemma {:induction false} ReplayNone(cfg: Config, g: GatewayState, room: nat)
    requires SoundGateway(cfg, g)
    ensures Replay(cfg, g, [], room) == g
  {
  }

  lemma {:induction false} ReplayFirst(cfg: Config, g: GatewayState, commands: seq<Command>, room: nat)
    requires SoundGateway(cfg, g) && commands != []
    ensures SoundGateway(cfg, Advance(cfg, g, commands[0], room).state)
    ensures Replay(cfg, g, commands, room) == Replay(cfg, Advance(cfg, g, commands[0], room).state, commands[1..], room)
  {
    hide SoundGateway, Advance, Process;
  }

  /** An accepted tail tells commands. */
  lemma {:induction false} RecoveredTells(cfg: Config, g: GatewayState, tail: Octets, offset: nat, room: nat, crc: Crc) returns (commands: seq<Command>)
    requires SoundGateway(cfg, g) && Whole(tail) && RecoverTail(cfg, g, tail, offset, g.expected, room, crc).Ok?
    ensures TailTells(crc, tail, g.expected, commands)
    decreases |tail|
  {
    hide SoundGateway, Process, ReadRecord, RecordTells, Stops, RecoverTail, TailTells, Whole, R.NetPosition;
    WholeRest(tail);
    if |tail| == 0 {
      commands := [];
      NothingTold(crc, tail, g.expected);
    } else {
      TailStep(cfg, g, tail, offset, g.expected, room, crc);
      var c := ReadRecord(crc, tail[..J.RECORD_SIZE], offset, g.expected).value;
      ReadTells(crc, tail[..J.RECORD_SIZE], offset, g.expected);
      ToldSequence(crc, tail[..J.RECORD_SIZE], g.expected, c);
      ProcessKeeps(cfg, g, c, room);
      ProcessCounts(cfg, g, c, room);
      var rest := RecoveredTells(cfg, Advance(cfg, g, c, room).state, tail[J.RECORD_SIZE..], offset + J.RECORD_SIZE, room, crc);
      TellsCons(crc, tail, g.expected, c, rest);
      commands := [c] + rest;
    }
  }

  lemma {:induction false} NothingTold(crc: Crc, tail: Octets, first: nat)
    requires |tail| == 0 && first < U64_BOUND
    ensures TailTells(crc, tail, first, [])
  {
  }

  /** Recovery accepts a tail if and only if it tells commands in sequence, and then the
      state is their replay, whatever commands the tail is said to tell. */
  lemma {:induction false} TailDecided(cfg: Config, g: GatewayState, tail: Octets, offset: nat, room: nat, crc: Crc)
    requires SoundGateway(cfg, g) && Whole(tail)
    ensures RecoverTail(cfg, g, tail, offset, g.expected, room, crc).Ok? <==> exists commands :: TailTells(crc, tail, g.expected, commands)
    ensures forall commands :: TailTells(crc, tail, g.expected, commands) ==>
              RecoverTail(cfg, g, tail, offset, g.expected, room, crc) == Ok(Replay(cfg, g, commands, room))
  {
    hide SoundGateway, RecoverTail, TailTells, Whole, Replay;
    forall commands | TailTells(crc, tail, g.expected, commands)
      ensures RecoverTail(cfg, g, tail, offset, g.expected, room, crc) == Ok(Replay(cfg, g, commands, room))
    {
      ToldRecovers(cfg, g, tail, commands, offset, room, crc);
    }
    if RecoverTail(cfg, g, tail, offset, g.expected, room, crc).Ok? {
      var commands := RecoveredTells(cfg, g, tail, offset, room, crc);
    }
  }

  // One record, byte by byte.

  /** The number in an eight-byte field. */
  lemma {:induction false} LongFits(b: Octets)
    requires |b| == 8
    ensures Spelled(b) < U64_BOUND
  {
    Widths();
    SpelledIs(b);
    ToFrom(b);
  }

  function SequenceAt(chunk: Octets): Sequence
    requires |chunk| == 64
  {
    LongFits(chunk[4..12]);
    Spelled(chunk[4..12])
  }

  /** All that the record format asks of 64 bytes. */
  function RecordClauses(crc: Crc, chunk: Octets): seq<Clause<J.DecodeError>>
    requires |chunk| == 64
  {
    [Clause(Field(chunk, 0, 2, 0x4a52), J.BadMagic(Short(chunk, 0))),
     Clause(chunk[2] == 1, J.UnsupportedVersion(chunk[2])),
     Clause(chunk[3] == 0, J.UnsupportedFlags(chunk[3])),
     Clause(Short(chunk, 12) <= 46, J.PayloadLength(Short(chunk, 12))),
     Clause(Field(chunk, 14, 4, crc(chunk[..14] + [0, 0, 0, 0] + chunk[18..])), J.ChecksumMismatch(SequenceAt(chunk)))]
  }

  lemma {:induction false} GetIs(n: nat, b: Octets)
    requires n <= |b|
    ensures Get(n, b) == Ok((Spelled(b[..n]), b[n..]))
  {
    SpelledIs(b[..n]);
  }

  lemma {:induction false} ShortGet(b: Octets)
    requires |b| >= 2
    ensures GetU16(b) == Ok((Short(b, 0), b[2..]))
  {
    GetIs(2, b);
    TwoBytes(b[..2]);
  }

  lemma {:induction false} ByteGet(b: Octets)
    requires |b| >= 1
    ensures GetU8(b) == Ok((b[0], b[1..]))
  {
    GetIs(1, b);
    OneByte(b[..1]);
  }

  lemma {:induction false} OneByte(b: Octets)
    requires |b| == 1
    ensures Spelled(b) == b[0]
  {
    assert b[1..] == [] && Pow256(0) == 1;
  }

  lemma {:induction false} LongGet(b: Octets)
    requires |b| >= 8
    ensures GetU64(b).Ok? && GetU64(b).value.0 == Spelled(b[..8]) && GetU64(b).value.1 == b[8..]
  {
    GetIs(8, b);
  }

  lemma {:induction false} WideGet(b: Octets)
    requires |b| >= 4
    ensures GetU32(b).Ok? && GetU32(b).value.0 == Spelled(b[..4]) && GetU32(b).value.1 == b[4..]
  {
    GetIs(4, b);
  }

  /** Reading a record as the model does: its fields, where they lie. */
  lemma {:induction false} BodyIs(crc: Crc, chunk: Octets)
    requires |chunk| == 64
    ensures |chunk[18..]| == 46
    ensures J.DecodeBody(crc, chunk[4..]) ==
            if Short(chunk, 12) > 46 then Err(J.PayloadLength(Short(chunk, 12)))
            else
              var r := J.Record(SequenceAt(chunk), Short(chunk, 12), chunk[18..]);
              if Spelled(chunk[14..18]) != J.Checksum(crc, r) then Err(J.ChecksumMismatch(SequenceAt(chunk))) else Ok(r)
  {
    hide Spelled, J.Checksum, GetU64, GetU16, GetU32, Short;
    var b := chunk[4..];
    LongGet(b);
    assert b[..8] == chunk[4..12] && b[8..] == chunk[12..];
    ShortGet(chunk[12..]);
    assert chunk[12..][2..] == chunk[14..];
    ShortAt(chunk, 12);
    WideGet(chunk[14..]);
    assert chunk[14..][..4] == chunk[14..18] && chunk[14..][4..] == chunk[18..];
  }

  lemma {:induction false} ShortAt(b: Octets, at: nat)
    requires at + 2 <= |b|
    ensures Short(b[at..], 0) == Short(b, at)
  {
  }

  lemma {:induction false} HeadIs(crc: Crc, chunk: Octets)
    requires |chunk| == 64
    ensures J.DecodeRecord(crc, chunk) ==
            if Short(chunk, 0) != J.RECORD_MAGIC then Err(J.BadMagic(Short(chunk, 0)))
            else if chunk[2] != J.RECORD_VERSION then Err(J.UnsupportedVersion(chunk[2]))
            else if chunk[3] != 0 then Err(J.UnsupportedFlags(chunk[3])) else J.DecodeBody(crc, chunk[4..])
  {
    hide J.DecodeBody, GetU16, GetU8, Short;
    ShortGet(chunk);
    ByteGet(chunk[2..]);
    assert chunk[2..][0] == chunk[2] && chunk[2..][1..] == chunk[3..];
    ByteGet(chunk[3..]);
    assert chunk[3..][0] == chunk[3] && chunk[3..][1..] == chunk[4..];
  }

  /** The checksum covers the record with its own field zeroed, as long as its fixed fields
      are right. */
  lemma {:induction false} CoveredBytes(crc: Crc, chunk: Octets)
    requires |chunk| == 64 && Field(chunk, 0, 2, 0x4a52) && chunk[2] == 1 && chunk[3] == 0
    ensures |chunk[18..]| == 46
    ensures J.Checksum(crc, J.Record(SequenceAt(chunk), Short(chunk, 12), chunk[18..])) == crc(chunk[..14] + [0, 0, 0, 0] + chunk[18..])
  {
    hide Spelled, ToBytes, J.PutRecord, Field, SequenceAt, Short, Zeros;
    var r := J.Record(SequenceAt(chunk), Short(chunk, 12), chunk[18..]);
    RecordTails(r, 0);
    FourZeros();
    FrontIs(chunk);
    var put := J.PutRecord(r, 0);
    assert put == put[..14] + put[14..18] + put[18..];
  }

  lemma {:induction false} FourZeros()
    ensures ToBytes(4, 0) == [0, 0, 0, 0]
  {
    ZeroBytes(4);
    assert Zeros(4) == [0, 0, 0, 0];
  }

  lemma {:induction false} FrontIs(chunk: Octets)
    requires |chunk| == 64 && Field(chunk, 0, 2, 0x4a52) && chunk[2] == 1 && chunk[3] == 0
    ensures chunk[..14] == ToBytes(2, 0x4a52) + (ToBytes(1, 1) + (ToBytes(1, 0) + (ToBytes(8, SequenceAt(chunk)) + ToBytes(2, Short(chunk, 12)))))
  {
    hide Spelled, ToBytes;
    assert chunk[0..0 + 2] == chunk[..2];
    BytesOf(chunk[..2], 0x4a52);
    OneByte(chunk[2..3]);
    OneByte(chunk[3..4]);
    BytesOf(chunk[2..3], 1);
    BytesOf(chunk[3..4], 0);
    BytesOf(chunk[4..12], SequenceAt(chunk));
    TwoBytes(chunk[12..14]);
    BytesOf(chunk[12..14], Short(chunk, 12));
    hide Field, SequenceAt, Short;
    assert chunk[..14] == chunk[..2] + (chunk[2..3] + (chunk[3..4] + (chunk[4..12] + chunk[12..14])));
  }

  /** Bytes that spell a number are its bytes. */
  lemma {:induction false} BytesOf(b: Octets, x: nat)
    requires Spelled(b) == x
    ensures ToBytes(|b|, x) == b
  {
    SpelledIs(b);
    ToFrom(b);
  }

  lemma {:induction false} MagicIs(chunk: Octets)
    requires |chunk| == 64
    ensures Field(chunk, 0, 2, 0x4a52) <==> Short(chunk, 0) == 0x4a52
  {
    TwoBytes(chunk[0..2]);
  }

  /** A record is refused with the first demand of the format that it misses, and read into
      its fields otherwise. */
  lemma {:induction false} RecordDecided(crc: Crc, chunk: Octets)
    requires |chunk| == 64
    ensures |chunk[18..]| == 46
    ensures match J.DecodeRecord(crc, chunk)
            case Err(e) => Verdict(RecordClauses(crc, chunk)) == Some(e)
            case Ok(r) => AllHold(RecordClauses(crc, chunk)) && r == J.Record(SequenceAt(chunk), Short(chunk, 12), chunk[18..])
  {
    hide Verdict, AllHold, Short, Spelled, J.Checksum, J.DecodeBody, J.DecodeRecord, SequenceAt;
    HeadIs(crc, chunk);
    BodyIs(crc, chunk);
    MagicIs(chunk);
    if Field(chunk, 0, 2, 0x4a52) && chunk[2] == 1 && chunk[3] == 0 {
      CoveredBytes(crc, chunk);
    }
    var c := RecordClauses(crc, chunk);
    FiveClauses(c[0], c[1], c[2], c[3], c[4]);
    VerdictIff(c);
  }

  /** What recovery says of one record: the format's refusal at its offset, a sequence number
      that is not next, a frame that does not parse, or one under another number. */
  lemma {:induction false} ReadDecided(crc: Crc, chunk: Octets, offset: nat, expected: Sequence)
    requires |chunk| == 64
    ensures var read := ReadRecord(crc, chunk, offset, expected);
            var defect := Verdict(RecordClauses(crc, chunk));
            if defect.Some? then read == Err(JournalDecode(offset, defect.value))
            else if SequenceAt(chunk) != expected then read == Err(JournalSequence(expected, SequenceAt(chunk)))
            else
              && Short(chunk, 12) <= 46
              && match W.Parse(chunk[18..18 + Short(chunk, 12)])
                 case Err(e) => read == Err(PayloadParse(e))
                 case Ok(c) => if c.SequenceOf() == expected then read == Ok(c) else read == Err(PayloadSequence(expected, c.SequenceOf()))
  {
    hide Verdict, Spelled, J.DecodeRecord, SequenceAt, W.Parse;
    RecordDecided(crc, chunk);
    VerdictIff(RecordClauses(crc, chunk));
    if Verdict(RecordClauses(crc, chunk)).None? {
      assert RecordClauses(crc, chunk)[3].holds;
      assert chunk[18..][..Short(chunk, 12)] == chunk[18..18 + Short(chunk, 12)];
    }
    hide Short;
  }

  /** Recovery as a whole accepts exactly a snapshot that decodes with a tail of whole
      records that tells commands from the cut on, and gives their replay. */
  lemma {:induction false} RecoverDecided(snapshot: Octets, tail: Octets, shape: Shape, riskShape: R.RiskShape, room: nat, sha: Sha, crc: Crc)
    requires 0 < shape.orders
    ensures match S.Decode(snapshot, shape, riskShape, sha)
            case Err(e) => Recover(snapshot, tail, shape, riskShape, room, sha, crc) == Err(BadSnapshot(e))
            case Ok(d) =>
              if |tail| % 64 != 0 then Recover(snapshot, tail, shape, riskShape, room, sha, crc) == Err(TruncatedJournal(|tail| % 64))
              else
                var cfg := Config(d.records.instrument, shape, riskShape);
                var g := ImportGateway(d.records);
                && SoundGateway(cfg, g) && g.expected == d.applied + 1
                && (Recover(snapshot, tail, shape, riskShape, room, sha, crc).Ok? <==> exists commands :: TailTells(crc, tail, g.expected, commands))
                && forall commands :: TailTells(crc, tail, g.expected, commands) ==>
                     Recover(snapshot, tail, shape, riskShape, room, sha, crc) == Ok(Replay(cfg, g, commands, room))
  {
    hide S.Decode, SoundGateway, RecoverTail, TailTells, Replay;
    if S.Decode(snapshot, shape, riskShape, sha).Ok? && Whole(tail) {
      var d := S.Decode(snapshot, shape, riskShape, sha).value;
      DecodedSound(snapshot, shape, riskShape, sha);
      ImportExpected(d.records);
      TailDecided(Config(d.records.instrument, shape, riskShape), ImportGateway(d.records), tail, 0, room, crc);
    }
  }

  lemma {:induction false} ImportExpected(r: GatewayRecords)
    ensures ImportGateway(r).expected == r.expected
  {
  }
}
