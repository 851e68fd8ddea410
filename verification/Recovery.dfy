/** Snapshot plus journal tail: recovery gives the state the uninterrupted run reached. */
module Recovery {
  import opened Types
  import opened Bytes
  import opened BookSpec
  import opened Reports
  import opened GatewaySpec
  import opened GatewayLaws
  import opened GatewayRuns
  import opened GatewayRestore
  import opened RiskRestore
  import opened BookRestore
  import opened Snapshots
  import opened SnapshotInput
  import opened StateCodec
  import opened StateSizes
  import B = OrderBooks
  import E = RiskEngines
  import G = Gateways
  import J = JournalRecords
  import R = RiskSpec
  import W = Wire

  datatype RecoveryError =
    | BadSnapshot(snapshot: SnapshotError)
    | TruncatedJournal(bytes: nat)
    | JournalDecode(offset: nat, source: J.DecodeError)
    | JournalSequence(expected: Sequence, received: Sequence)
    | PayloadSequence(journal: Sequence, payload: Sequence)
    | PayloadParse(parse: W.ParseError)
    | GatewayFailed(gateway: GatewayError)
    | SequenceOverflow

  type Crc = Octets -> U32
  type Sha = Octets -> Digest

  /** The command a record holds, checked against the expected sequence. */
  function ReadRecord(crc: Crc, chunk: Octets, offset: nat, expected: Sequence): Result<Command, RecoveryError>
    requires |chunk| == J.RECORD_SIZE
  {
    match J.DecodeRecord(crc, chunk)
    case Err(e) => Err(JournalDecode(offset, e))
    case Ok(record) =>
      if record.sequence != expected then Err(JournalSequence(expected, record.sequence))
      else if !record.Valid() then Err(JournalDecode(offset, J.PayloadLength(U16_BOUND - 1)))
      else match W.Parse(record.Slice())
        case Err(e) => Err(PayloadParse(e))
        case Ok(command) =>
          if command.SequenceOf() != record.sequence then Err(PayloadSequence(record.sequence, command.SequenceOf()))
          else Ok(command)
  }

  /** Nothing but whole records. */
  predicate Whole(tail: Octets) {
    |tail| % 64 == 0
  }

  lemma {:induction false} WholeRest(tail: Octets)
    ensures Whole(tail) && |tail| > 0 ==> |tail| >= J.RECORD_SIZE && Whole(tail[J.RECORD_SIZE..])
    ensures |tail| >= J.RECORD_SIZE && Whole(tail[J.RECORD_SIZE..]) ==> Whole(tail)
  {
  }

  /** Business refusals are part of history; anything else stops recovery. */
  predicate Stops(r: Result<GatewayOutcome, GatewayError>) {
    r.Err? && (r.error.SequenceGap? || r.error.RiskStateBroken?)
  }

  /** Applies whole records in order, starting at byte `offset` of the tail. */
  ghost function RecoverTail(cfg: Config, g: GatewayState, tail: Octets, offset: nat, expected: Sequence, room: nat, crc: Crc): Result<GatewayState, RecoveryError>
    requires SoundGateway(cfg, g) && Whole(tail)
    decreases |tail|
  {
    hide SoundGateway, Process, ReadRecord, Whole;
    WholeRest(tail);
    if |tail| == 0 then Ok(g)
    else match ReadRecord(crc, tail[..J.RECORD_SIZE], offset, expected)
      case Err(e) => Err(e)
      case Ok(command) =>
        var s := Advance(cfg, g, command, room);
        if Stops(s.result) then Err(GatewayFailed(s.result.error))
        else if expected + 1 >= U64_BOUND then Err(SequenceOverflow)
        else RecoverTail(cfg, s.state, tail[J.RECORD_SIZE..], offset + J.RECORD_SIZE, expected + 1, room, crc)
  }

  /** One record of the tail. */
  lemma {:induction false} TailStep(cfg: Config, g: GatewayState, tail: Octets, offset: nat, expected: Sequence, room: nat, crc: Crc)
    requires SoundGateway(cfg, g) && Whole(tail) && |tail| >= J.RECORD_SIZE
    ensures Whole(tail[J.RECORD_SIZE..])
    ensures var read := ReadRecord(crc, tail[..J.RECORD_SIZE], offset, expected);
            RecoverTail(cfg, g, tail, offset, expected, room, crc)
            == if read.Err? then Err(read.error)
               else
                 var s := Advance(cfg, g, read.value, room);
                 if Stops(s.result) then Err(GatewayFailed(s.result.error))
                 else if expected + 1 >= U64_BOUND then Err(SequenceOverflow)
                 else RecoverTail(cfg, s.state, tail[J.RECORD_SIZE..], offset + J.RECORD_SIZE, expected + 1, room, crc)
  {
    hide SoundGateway, Process, Advance, ReadRecord, Whole, Stops;
    WholeRest(tail);
  }

  lemma {:induction false} TailEnd(cfg: Config, g: GatewayState, offset: nat, expected: Sequence, room: nat, crc: Crc)
    requires SoundGateway(cfg, g)
    ensures Whole([]) && RecoverTail(cfg, g, [], offset, expected, room, crc) == Ok(g)
  {
    hide SoundGateway, Process, ReadRecord;
  }

  /** Restores a snapshot and applies the journal records after it. */
  ghost function Recover(snapshot: Octets, tail: Octets, shape: Shape, riskShape: R.RiskShape, room: nat, sha: Sha, crc: Crc)
    : Result<GatewayState, RecoveryError>
    requires 0 < shape.orders
  {
    hide SoundGateway, ImportGateway, Whole, RecoverTail;
    match Decode(snapshot, shape, riskShape, sha)
    case Err(e) => Err(BadSnapshot(e))
    case Ok(d) =>
      if !Whole(tail) then Err(TruncatedJournal(|tail| % 64))
      else if d.applied + 1 >= U64_BOUND then Err(SequenceOverflow)
      else
        var cfg := Config(d.records.instrument, shape, riskShape);
        DecodedSound(snapshot, shape, riskShape, sha);
        RecoverTail(cfg, ImportGateway(d.records), tail, 0, d.applied + 1, room, crc)
  }

  lemma {:induction false} DecodedSound(snapshot: Octets, shape: Shape, riskShape: R.RiskShape, sha: Sha)
    requires Decode(snapshot, shape, riskShape, sha).Ok? && 0 < shape.orders
    ensures var d := Decode(snapshot, shape, riskShape, sha).value;
            && SoundGateway(Config(d.records.instrument, shape, riskShape), ImportGateway(d.records))
            && d.records.expected == d.applied + 1
  {
    hide GetHeader, GetState, HeaderDefect, GatewayDefect, SoundGateway;
    var d := Decode(snapshot, shape, riskShape, sha).value;
    GatewayAcceptedIff(d.records, Config(d.records.instrument, shape, riskShape));
  }

  // The journal a run leaves behind.

  function RecordOf(crc: Crc, c: Command): Octets {
    W.FrameLength(c);
    J.EncodeRecord(crc, J.NewRecord(c.SequenceOf(), W.EncodeCommand(c)))
  }

  function JournalOf(crc: Crc, commands: seq<Command>): Octets {
    if commands == [] then [] else RecordOf(crc, commands[0]) + JournalOf(crc, commands[1..])
  }

  predicate Consecutive(commands: seq<Command>, first: int) {
    forall k :: 0 <= k < |commands| ==> commands[k].SequenceOf() == first + k
  }

  lemma {:induction false} ConsecutiveParts(commands: seq<Command>, first: int, cut: nat)
    requires Consecutive(commands, first) && cut <= |commands|
    ensures Consecutive(commands[..cut], first) && Consecutive(commands[cut..], first + cut)
    ensures commands != [] ==> commands[0].SequenceOf() == first
  {
  }

  lemma {:induction false} RecordReads(crc: Crc, c: Command, offset: nat)
    ensures |RecordOf(crc, c)| == J.RECORD_SIZE
    ensures ReadRecord(crc, RecordOf(crc, c), offset, c.SequenceOf()) == Ok(c)
  {
    hide J.EncodeRecord, J.DecodeRecord, W.EncodeCommand, W.Parse;
    W.FrameLength(c);
    W.ParseEncode(c);
    J.RecordDecodes(crc, J.NewRecord(c.SequenceOf(), W.EncodeCommand(c)));
  }

  lemma {:induction false} JournalSize(crc: Crc, commands: seq<Command>)
    ensures |JournalOf(crc, commands)| == J.RECORD_SIZE * |commands|
  {
    hide RecordOf;
    if commands != [] {
      RecordReads(crc, commands[0], 0);
      JournalSize(crc, commands[1..]);
    }
  }

  /** Recovering the journal of a run replays the run. */
  lemma {:induction false} JournalReplays(cfg: Config, g: GatewayState, commands: seq<Command>, offset: nat, room: nat, crc: Crc)
    requires SoundGateway(cfg, g) && Consecutive(commands, g.expected) && g.expected + |commands| < U64_BOUND
    ensures Whole(JournalOf(crc, commands))
    ensures RecoverTail(cfg, g, JournalOf(crc, commands), offset, g.expected, room, crc) == Ok(Replay(cfg, g, commands, room))
    decreases |commands|
  {
    hide SoundGateway, Process, ReadRecord, RecordOf, Whole, Consecutive, Stops;
    var tail := JournalOf(crc, commands);
    JournalWhole(crc, commands);
    if commands != [] {
      var c := commands[0];
      ConsecutiveParts(commands, g.expected, 1);
      RecordReads(crc, c, offset);
      ProcessCounts(cfg, g, c, room);
      var s := Advance(cfg, g, c, room);
      assert tail[..J.RECORD_SIZE] == RecordOf(crc, c);
      assert tail[J.RECORD_SIZE..] == JournalOf(crc, commands[1..]);
      JournalReplays(cfg, s.state, commands[1..], offset + J.RECORD_SIZE, room, crc);
    }
  }

  lemma {:induction false} JournalWhole(crc: Crc, commands: seq<Command>)
    ensures Whole(JournalOf(crc, commands)) && (commands != [] ==> |JournalOf(crc, commands)| >= J.RECORD_SIZE)
  {
    JournalSize(crc, commands);
    hide JournalOf;
  }

  /** An in-sequence command never stops recovery while the counter has room. */
  lemma {:induction false} ProcessCounts(cfg: Config, g: GatewayState, c: Command, room: nat)
    requires SoundGateway(cfg, g) && c.SequenceOf() == g.expected && g.expected + 1 < U64_BOUND
    ensures StockedBook(g.book)
    ensures var s := Process(cfg, g, c, room); s.state.expected == g.expected + 1 && !Stops(s.result)
  {
    hide SoundGateway, R.NetPosition, Process, Unmoved;
    ProcessKeeps(cfg, g, c, room);
  }

  /** The commands in a tail of whole records. */
  ghost function CommandsIn(crc: Crc, tail: Octets, expected: Sequence): Option<seq<Command>>
    requires Whole(tail)
    decreases |tail|
  {
    hide Whole, ReadRecord;
    WholeRest(tail);
    if |tail| == 0 then Some([])
    else if expected + 1 >= U64_BOUND || ReadRecord(crc, tail[..J.RECORD_SIZE], 0, expected).Err? then None
    else match CommandsIn(crc, tail[J.RECORD_SIZE..], expected + 1)
      case None => None
      case Some(rest) => Some([ReadRecord(crc, tail[..J.RECORD_SIZE], 0, expected).value] + rest)
  }

  lemma {:induction false} ReadAnywhere(crc: Crc, chunk: Octets, a: nat, b: nat, expected: Sequence)
    requires |chunk| == J.RECORD_SIZE
    ensures ReadRecord(crc, chunk, a, expected).Ok? <==> ReadRecord(crc, chunk, b, expected).Ok?
    ensures ReadRecord(crc, chunk, a, expected).Ok? ==> ReadRecord(crc, chunk, a, expected) == ReadRecord(crc, chunk, b, expected)
    ensures ReadRecord(crc, chunk, a, expected).Ok? ==> ReadRecord(crc, chunk, a, expected).value.SequenceOf() == expected
  {
    hide J.DecodeRecord, W.Parse;
  }

  /** Whatever recovery accepts, the state it returns is the replay of the commands in
      the tail, one a record and in sequence. */
  lemma {:induction false} RecoveredIsReplay(cfg: Config, g: GatewayState, tail: Octets, offset: nat, room: nat, crc: Crc)
    requires SoundGateway(cfg, g) && Whole(tail)
    requires RecoverTail(cfg, g, tail, offset, g.expected, room, crc).Ok?
    ensures CommandsIn(crc, tail, g.expected).Some?
    ensures var commands := CommandsIn(crc, tail, g.expected).value;
            && J.RECORD_SIZE * |commands| == |tail| && Consecutive(commands, g.expected)
            && RecoverTail(cfg, g, tail, offset, g.expected, room, crc) == Ok(Replay(cfg, g, commands, room))
    decreases |tail|
  {
    hide SoundGateway, Process, ReadRecord, R.NetPosition, Whole;
    WholeRest(tail);
    if |tail| > 0 {
      var chunk, more := tail[..J.RECORD_SIZE], tail[J.RECORD_SIZE..];
      ReadAnywhere(crc, chunk, offset, 0, g.expected);
      var c := ReadRecord(crc, chunk, offset, g.expected).value;
      ProcessKeeps(cfg, g, c, room);
      ProcessCounts(cfg, g, c, room);
      RecoveredIsReplay(cfg, Process(cfg, g, c, room).state, more, offset + J.RECORD_SIZE, room, crc);
      var rest := CommandsIn(crc, more, g.expected + 1).value;
      var commands := CommandsIn(crc, tail, g.expected).value;
      assert commands[0] == c && commands[1..] == rest;
      forall k | 0 <= k < |commands| ensures commands[k].SequenceOf() == g.expected + k {
        assert k > 0 ==> commands[k] == rest[k - 1];
      }
    }
  }

  /** A state whose snapshot encodes and is accepted back. */
  ghost predicate Snapshottable(cfg: Config, g: GatewayState, sha: Sha) {
    && 0 < cfg.book.orders && g.expected > 0
    && var encoded := Encode(ExportGateway(cfg.instrument, g), g.expected - 1, cfg.book, cfg.risk, sha);
    encoded.Ok? && Decode(encoded.value, cfg.book, cfg.risk, sha).Ok?
  }

  /** In a buildable gateway a sound state can be snapshotted exactly when its resting
      orders are within limits: no length field can overflow. The only other condition is
      on the build: the header's 32-bit capacity field must hold the orders per level,
      which follows from the index size unless the book has no levels at all. */
  lemma {:induction false} SnapshottableIff(cfg: Config, g: GatewayState, sha: Sha)
    requires SoundGateway(cfg, g) && Buildable(cfg.book, cfg.risk)
    ensures Snapshottable(cfg, g, sha) <==> WithinLimits(g) && cfg.book.orders < U32_BOUND
    ensures cfg.book.levels > 0 ==> cfg.book.orders < U32_BOUND
  {
    hide Encode, Decode, GatewayDefect, WithinLimits, ExportGateway, PutState, SoundGateway, CountedState, SizesFit;
    OrdersPositive(cfg, g);
    if cfg.book.levels > 0 {
      OrdersFit(cfg.book.levels, cfg.book.orders);
    }
    SoundEncodes(cfg, g, sha);
    RestorableIff(cfg.instrument, g, cfg);
    if cfg.book.orders < U32_BOUND {
      ExportSizes(cfg, g);
      ExportedInstrument(cfg.instrument, g);
      EncodedReads(ExportGateway(cfg.instrument, g), g.expected - 1, cfg.book, cfg.risk, sha);
    }
  }

  lemma {:induction false} OrdersFit(levels: nat, orders: nat)
    requires 4 * (levels * orders) <= U32_BOUND && levels > 0
    ensures orders < U32_BOUND
  {
  }

  // The second condition is real.

  const NO_LEVELS: Config := Config(0, Shape(0, U32_BOUND), R.RiskShape(1, 1))
  const NO_LEVELS_START: GatewayState := GatewayState(Book([], []), R.RiskState(map[], map[], None, false), 1, None)

  /** A gateway whose book has no levels but 2^32 orders per level can be built; not even
      its first state, within all limits, can be encoded. */
  lemma {:induction false} NoLevelsOverflow(sha: Sha)
    ensures Buildable(NO_LEVELS.book, NO_LEVELS.risk)
    ensures SoundGateway(NO_LEVELS, NO_LEVELS_START) && WithinLimits(NO_LEVELS_START)
    ensures Encode(ExportGateway(0, NO_LEVELS_START), 0, NO_LEVELS.book, NO_LEVELS.risk, sha) == Err(LengthOverflow)
    ensures !Snapshottable(NO_LEVELS, NO_LEVELS_START, sha)
  {
    hide PutState, Snapshottable, Decode;
    R.EmptySound(NO_LEVELS.risk);
    FreshSound(NO_LEVELS, NO_LEVELS_START.risk);
    SnapshottableIff(NO_LEVELS, NO_LEVELS_START, sha);
    EmptyWithin(NO_LEVELS_START);
  }

  lemma {:induction false} EmptyWithin(g: GatewayState)
    requires g.book == Book([], [])
    ensures WithinLimits(g)
  {
  }

  ghost function SnapshotOf(cfg: Config, g: GatewayState, sha: Sha): Octets
    requires Snapshottable(cfg, g, sha)
  {
    Encode(ExportGateway(cfg.instrument, g), g.expected - 1, cfg.book, cfg.risk, sha).value
  }

  /** Recovery equals full replay: cut a run anywhere, snapshot the state there, and the
      snapshot with the journal of the rest gives the final state and the same answers. */
  lemma {:induction false} RecoveryIsFullReplay(cfg: Config, g: GatewayState, commands: seq<Command>, cut: nat, room: nat, sha: Sha, crc: Crc)
    requires SoundGateway(cfg, g) && Buildable(cfg.book, cfg.risk) && cfg.book.orders < U32_BOUND
    requires Consecutive(commands, g.expected) && g.expected + |commands| < U64_BOUND && cut <= |commands|
    requires WithinLimits(Replay(cfg, g, commands[..cut], room))
    ensures 0 < cfg.book.orders && Snapshottable(cfg, Replay(cfg, g, commands[..cut], room), sha)
    ensures Recover(SnapshotOf(cfg, Replay(cfg, g, commands[..cut], room), sha), JournalOf(crc, commands[cut..]),
                    cfg.book, cfg.risk, room, sha, crc)
            == Ok(Replay(cfg, g, commands, room))
    ensures Outcomes(cfg, g, commands, room)
            == Outcomes(cfg, g, commands[..cut], room) + Outcomes(cfg, Replay(cfg, g, commands[..cut], room), commands[cut..], room)
  {
    hide Snapshottable, SnapshotOf, SoundGateway, Recover, RecoverTail, JournalOf, Consecutive, Replay, Outcomes, Whole, Process, WithinLimits;
    ReplaySound(cfg, g, commands[..cut], room);
    OrdersPositive(cfg, g);
    var mid := Replay(cfg, g, commands[..cut], room);
    ConsecutiveParts(commands, g.expected, cut);
    ReplayCounts(cfg, g, commands[..cut], room);
    SnapshottableIff(cfg, mid, sha);
    JournalReplays(cfg, mid, commands[cut..], 0, room, crc);
    SnapshotRecovers(cfg, mid, JournalOf(crc, commands[cut..]), room, sha, crc);
    assert commands == commands[..cut] + commands[cut..];
    ReplaySplit(cfg, g, commands[..cut], commands[cut..], room);
  }

  /** Recovering from a snapshot is continuing from the state that was snapshotted. */
  lemma {:induction false} SnapshotRecovers(cfg: Config, g: GatewayState, tail: Octets, room: nat, sha: Sha, crc: Crc)
    requires SoundGateway(cfg, g) && Buildable(cfg.book, cfg.risk) && Snapshottable(cfg, g, sha) && Whole(tail)
    ensures Recover(SnapshotOf(cfg, g, sha), tail, cfg.book, cfg.risk, room, sha, crc)
            == RecoverTail(cfg, g, tail, 0, g.expected, room, crc)
  {
    hide Encode, Decode, GatewayDefect, WithinLimits, ExportGateway, ImportGateway, PutState, CountedState, RecoverTail, SoundGateway, Whole;
    SnapshottableIff(cfg, g, sha);
    SoundEncodes(cfg, g, sha);
    var records := ExportGateway(cfg.instrument, g);
    RestorableIff(cfg.instrument, g, cfg);
    EncodedDecodes(records, g.expected - 1, cfg.book, cfg.risk, sha);
    ImportExportGateway(cfg.instrument, g);
    ExportedInstrument(cfg.instrument, g);
  }

  lemma {:induction false} ReplaySound(cfg: Config, g: GatewayState, commands: seq<Command>, room: nat)
    requires SoundGateway(cfg, g)
    ensures SoundGateway(cfg, Replay(cfg, g, commands, room))
  {
  }

  lemma {:induction false} OrdersPositive(cfg: Config, g: GatewayState)
    requires SoundGateway(cfg, g)
    ensures 0 < cfg.book.orders
  {
  }

  lemma {:induction false} ExportedInstrument(instrument: InstrumentId, g: GatewayState)
    ensures ExportGateway(instrument, g).instrument == instrument && ExportGateway(instrument, g).book.instrument == instrument
  {
    hide ExportRisk, ExportSide;
  }

  lemma {:induction false} ReplayCounts(cfg: Config, g: GatewayState, commands: seq<Command>, room: nat)
    requires SoundGateway(cfg, g) && Consecutive(commands, g.expected) && g.expected + |commands| < U64_BOUND
    ensures Replay(cfg, g, commands, room).expected == g.expected + |commands|
    decreases |commands|
  {
    hide SoundGateway, Process;
    if commands != [] {
      ProcessKeeps(cfg, g, commands[0], room);
      ProcessCounts(cfg, g, commands[0], room);
      assert forall k :: 0 <= k < |commands[1..]| ==> commands[1..][k] == commands[k + 1];
      ReplayCounts(cfg, Process(cfg, g, commands[0], room).state, commands[1..], room);
    }
  }

  // The same on live objects.

  /** Snapshots a gateway: exports its logical state and encodes it at the cut. */
  method EncodeSnapshot(g: G.Gateway, applied: U64, sha: Sha) returns (r: Result<Octets, SnapshotError>)
    requires g.Valid()
    ensures r == Encode(ExportGateway(g.book.instrument, g.View()), applied, g.book.shape, g.risk.shape, sha)
  {
    hide B.OrderBook.Valid, E.RiskEngine.Valid, ExportRisk, PutState, CountedState, B.OrderBook.View;
    var risk := ExportEngine(g.risk);
    var records := GatewayRecords(g.book.instrument, ExportBook(g.book.instrument, g.book.View()), risk, g.expected, g.maximum);
    assert records == ExportGateway(g.book.instrument, g.View());
    r := Encode(records, applied, g.book.shape, g.risk.shape, sha);
  }

  /** Verifies a snapshot and rebuilds the gateway it holds. */
  method DecodeSnapshot(bytes: Octets, shape: Shape, riskShape: R.RiskShape, sha: Sha) returns (r: Result<(G.Gateway, U64), SnapshotError>)
    requires Buildable(shape, riskShape)
    ensures match Decode(bytes, shape, riskShape, sha)
            case Err(e) => r == Err(e)
            case Ok(d) =>
              && r.Ok? && r.value.1 == d.applied && fresh(r.value.0) && r.value.0.Valid()
              && r.value.0.Cfg() == Config(d.records.instrument, shape, riskShape)
              && r.value.0.View() == ImportGateway(d.records)
              && SoundGateway(r.value.0.Cfg(), r.value.0.View())
    ensures r.Ok? ==> FreshParts(r.value.0)
  {
    hide GetHeader, HeaderDefect, GetState, GatewayDefect, G.Gateway.Valid, G.Gateway.View, SoundGateway, ExportGateway, ImportGateway;
    var parsed := GetHeader(bytes);
    if parsed.Err? {
      return Err(BadPayloadField(parsed.error));
    }
    var (h, payload) := parsed.value;
    var defect := HeaderDefect(h, payload, shape, riskShape, sha);
    if defect.Some? {
      return Err(defect.value);
    }
    var state := DecodeState(payload, shape, riskShape);
    if state.Err? {
      return Err(match state.error { case BadField(e) => BadPayloadField(e) case TrailingPayload => TrailingBytes });
    }
    if h.applied + 1 >= U64_BOUND || state.value.expected != h.applied + 1 {
      return Err(InvalidSequence);
    }
    var gateway := RestoreGateway(state.value, shape, riskShape);
    if gateway.Err? {
      return Err(BadGateway(gateway.error));
    }
    ImportExportGateway(state.value.instrument, gateway.value.View());
    r := Ok((gateway.value, h.applied));
  }

  /** Recovers a gateway: it behaves from then on as the uninterrupted one would. */
  method RecoverSnapshotAndTail(snapshot: Octets, tail: Octets, shape: Shape, riskShape: R.RiskShape, room: nat, sha: Sha, crc: Crc)
    returns (r: Result<G.Gateway, RecoveryError>)
    requires Buildable(shape, riskShape)
    ensures r.Err? ==> Recover(snapshot, tail, shape, riskShape, room, sha, crc) == Err(r.error)
    ensures r.Ok? ==> r.value.Valid() && Recover(snapshot, tail, shape, riskShape, room, sha, crc) == Ok(r.value.View())
  {
    hide Decode, G.Gateway.Valid, G.Gateway.View, SoundGateway, ImportGateway, ReadRecord, Process, Whole, RecoverTail;
    var decoded := DecodeSnapshot(snapshot, shape, riskShape, sha);
    if decoded.Err? {
      return Err(BadSnapshot(decoded.error));
    }
    DecodedSound(snapshot, shape, riskShape, sha);
    if !Whole(tail) {
      return Err(TruncatedJournal(|tail| % 64));
    }
    var (gateway, applied) := decoded.value;
    if applied + 1 >= U64_BOUND {
      return Err(SequenceOverflow);
    }
    var expected: Sequence := applied + 1;
    var reports := new ReportBuffer(room);
    ghost var cfg, start := gateway.Cfg(), gateway.View();
    var offset := 0;
    assert tail[0..] == tail;
    while offset < |tail|
      invariant 0 <= offset <= |tail| && Whole(tail[offset..])
      invariant gateway.Valid() && gateway.Cfg() == cfg && SoundGateway(cfg, gateway.View()) && FreshParts(gateway)
      invariant reports.capacity == room && fresh(reports)
      invariant RecoverTail(cfg, start, tail, 0, applied + 1, room, crc)
                == RecoverTail(cfg, gateway.View(), tail[offset..], offset, expected, room, crc)
    {
      ghost var view := gateway.View();
      WholeRest(tail[offset..]);
      var chunk := tail[offset..offset + J.RECORD_SIZE];
      assert tail[offset..][..J.RECORD_SIZE] == chunk && tail[offset..][J.RECORD_SIZE..] == tail[offset + J.RECORD_SIZE..];
      var command := ReadRecord(crc, chunk, offset, expected);
      if command.Err? {
        TailStep(cfg, view, tail[offset..], offset, expected, room, crc);
        return Err(command.error);
      }
      ProcessKeeps(cfg, view, command.value, room);
      TailStep(cfg, view, tail[offset..], offset, expected, room, crc);
      var outcome := gateway.ProcessCommand(command.value, reports);
      if Stops(outcome) {
        return Err(GatewayFailed(outcome.error));
      }
      if expected + 1 >= U64_BOUND {
        return Err(SequenceOverflow);
      }
      expected := expected + 1;
      offset := offset + J.RECORD_SIZE;
    }
    TailEnd(cfg, gateway.View(), offset, expected, room, crc);
    assert tail[offset..] == [];
    r := Ok(gateway);
  }
}
