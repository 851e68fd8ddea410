/** The journal as interleaved steps: one writer thread, one persistence worker, a sink
    that may write partially or fail, and a status reader between any of them. */
module Journals {
  import opened Types
  import opened Bytes
  import opened JournalRecords

  const RING_CAPACITY: nat := 1024

  datatype FlushPolicy = EveryBatch | OnShutdown

  datatype Setup = Setup(first: nat, batch: nat, policy: FlushPolicy, crc: Octets -> U32)

  /** Where the worker is inside a call. `last` marks calls made by shutdown. */
  datatype Phase =
    | Idle
    | Collecting(count: nat, last: bool)
    | Writing(count: nat, index: nat, done: nat, last: bool)
    | Publishing(last: bool)
    | Flushing(last: bool)
    | Flushed(last: bool)
    | FinalFlush
    | FinalFlushed
    | Completing
    | Finished
    | Dead

  /** A status reader part way through its loads. */
  datatype Observer =
    | Away
    | SawComplete(complete: bool)
    | SawDurable(complete: bool, durable: nat)
    | SawWritten(complete: bool, durable: nat, written: nat)
    | SawClosed(complete: bool, durable: nat, written: nat, closed: bool)
    | SawAll(complete: bool, durable: nat, written: nat, closed: bool, poisoned: bool)

  /** `checksums[i]` is the checksum stored in record `i` when it was enqueued. */
  datatype Journal = Journal(
    enqueued: seq<Record>,
    checksums: seq<U32>,
    popped: nat,
    nextWritten: nat,
    nextDurable: nat,
    closed: bool,
    poisoned: bool,
    complete: bool,
    phase: Phase,
    sink: Octets,
    flushed: nat,
    observer: Observer)

  datatype Action =
    | Enqueue(frame: Octets)
    | Close
    | StartDrain
    | StartShutdown
    | Pop
    | EndCollect
    | WriteSome(bytes: nat)
    | WriteInterrupted
    | WriteFails(partial: nat)
    | PublishWritten
    | FlushOk
    | FlushFails
    | PublishDurable
    | Complete
    | DropWorker
    | Observe

  function Start(setup: Setup): Journal {
    Journal([], [], 0, setup.first, setup.first, false, false, false, Idle, [], 0, Away)
  }

  function NextSequence(setup: Setup, s: Journal): nat {
    setup.first + |s.enqueued|
  }

  datatype EnqueueError = Saturated | SequenceOverflow | PayloadTooLarge

  /** Why the writer refuses a frame, before it changes anything. */
  function EnqueueDefect(setup: Setup, s: Journal, frame: Octets): Option<EnqueueError> {
    if NextSequence(setup, s) + 1 >= U64_BOUND then Some(SequenceOverflow)
    else if |frame| > MAX_PAYLOAD then Some(PayloadTooLarge)
    else if |s.enqueued| - s.popped >= RING_CAPACITY then Some(Saturated)
    else None
  }

  /** Does the record at the head of the ring pass verification? */
  predicate HeadVerifies(setup: Setup, s: Journal)
    requires s.popped < |s.enqueued|
  {
    s.popped < |s.checksums| && Verified(setup.crc, s.enqueued[s.popped], s.checksums[s.popped])
  }

  function Fail(s: Journal): Journal {
    s.(phase := Dead, poisoned := true)
  }

  /** The record being written, if the worker is writing one. */
  function Current(s: Journal): int
    requires s.phase.Writing?
  {
    s.popped - s.phase.count + s.phase.index
  }

  predicate InRecord(s: Journal) {
    s.phase.Writing? && 0 <= Current(s) < |s.enqueued| && s.phase.index < s.phase.count
  }

  /** What follows a published batch. */
  function AfterBatch(last: bool): Phase {
    if last then Collecting(0, true) else Idle
  }

  /** One atomic step; an action that is not enabled changes nothing. */
  function Do(setup: Setup, s: Journal, a: Action): Journal {
    match a
    case Enqueue(frame) =>
      if s.closed || EnqueueDefect(setup, s, frame).Some? then s
      else
        var r := NewRecord(NextSequence(setup, s), frame);
        s.(enqueued := s.enqueued + [r], checksums := s.checksums + [Checksum(setup.crc, r)])
    case Close => s.(closed := true)
    case StartDrain => if s.phase.Idle? then s.(phase := Collecting(0, false)) else s
    case StartShutdown => if s.phase.Idle? && s.closed then s.(phase := Collecting(0, true)) else s
    case Pop =>
      if s.phase.Collecting? && s.phase.count < setup.batch && s.popped < |s.enqueued| then
        if !HeadVerifies(setup, s) || s.enqueued[s.popped].sequence != setup.first + s.popped || setup.first + s.popped + 1 >= U64_BOUND
        then Fail(s.(popped := s.popped + 1))
        else s.(popped := s.popped + 1, phase := Collecting(s.phase.count + 1, s.phase.last))
      else s
    case EndCollect =>
      if s.phase.Collecting? && (s.phase.count == setup.batch || s.popped == |s.enqueued|) then
        if s.phase.count > 0 then s.(phase := Writing(s.phase.count, 0, 0, s.phase.last))
        else s.(phase := if s.phase.last then FinalFlush else Idle)
      else s
    case WriteSome(n) =>
      if InRecord(s) && 0 < n <= RECORD_SIZE - s.phase.done then
        var chunk := EncodeRecord(setup.crc, s.enqueued[Current(s)]);
        RecordLength(setup.crc, s.enqueued[Current(s)]);
        var done := s.phase.done + n;
        s.(sink := s.sink + chunk[s.phase.done..done],
           phase := if done < RECORD_SIZE then s.phase.(done := done)
                    else if s.phase.index + 1 < s.phase.count then s.phase.(index := s.phase.index + 1, done := 0)
                    else Publishing(s.phase.last))
      else s
    case WriteInterrupted => s
    case WriteFails(n) =>
      if InRecord(s) && n <= RECORD_SIZE - s.phase.done then
        var chunk := EncodeRecord(setup.crc, s.enqueued[Current(s)]);
        RecordLength(setup.crc, s.enqueued[Current(s)]);
        Fail(s.(sink := s.sink + chunk[s.phase.done..s.phase.done + n]))
      else s
    case PublishWritten =>
      if s.phase.Publishing? then
        s.(nextWritten := setup.first + s.popped,
           phase := if setup.policy == EveryBatch then Flushing(s.phase.last) else AfterBatch(s.phase.last))
      else s
    case FlushOk =>
      if s.phase.Flushing? then s.(flushed := |s.sink|, phase := Flushed(s.phase.last))
      else if s.phase.FinalFlush? then s.(flushed := |s.sink|, phase := FinalFlushed)
      else s
    case FlushFails => if s.phase.Flushing? || s.phase.FinalFlush? then Fail(s) else s
    case PublishDurable =>
      if s.phase.Flushed? then s.(nextDurable := setup.first + s.popped, phase := AfterBatch(s.phase.last))
      else if s.phase.FinalFlushed? then s.(nextDurable := setup.first + s.popped, phase := Completing)
      else s
    case Complete => if s.phase.Completing? then s.(complete := true, phase := Finished) else s
    case DropWorker => if s.phase.Idle? then Fail(s) else s
    case Observe =>
      s.(observer := match s.observer
                     case Away => SawComplete(s.complete)
                     case SawComplete(c) => SawDurable(c, s.nextDurable)
                     case SawDurable(c, d) => SawWritten(c, d, s.nextWritten)
                     case SawWritten(c, d, w) => SawClosed(c, d, w, s.closed)
                     case SawClosed(c, d, w, closed) => SawAll(c, d, w, closed, s.poisoned)
                     case SawAll(_, _, _, _, _) => Away)
  }

  function Exec(setup: Setup, s: Journal, actions: seq<Action>): Journal
    decreases |actions|
  {
    if actions == [] then s else Exec(setup, Do(setup, s, actions[0]), actions[1..])
  }

  // The bytes of a list of records.

  function Frames(crc: Octets -> U32, records: seq<Record>): Octets {
    if records == [] then [] else Frames(crc, records[..|records| - 1]) + EncodeRecord(crc, records[|records| - 1])
  }

  lemma {:induction false} FramesSize(crc: Octets -> U32, records: seq<Record>)
    ensures |Frames(crc, records)| == RECORD_SIZE * |records|
  {
    hide EncodeRecord;
    if records != [] {
      FramesSize(crc, records[..|records| - 1]);
      RecordLength(crc, records[|records| - 1]);
    }
  }

  lemma {:induction false} FramesSnoc(crc: Octets -> U32, records: seq<Record>, r: Record)
    ensures Frames(crc, records + [r]) == Frames(crc, records) + EncodeRecord(crc, r)
  {
    hide EncodeRecord;
    assert (records + [r])[..|records|] == records;
  }

  /** The first `k` records are the first bytes. */
  lemma {:induction false} FramesPrefix(crc: Octets -> U32, records: seq<Record>, k: nat)
    requires k <= |records|
    ensures Frames(crc, records[..k]) <= Frames(crc, records)
  {
    hide EncodeRecord;
    if k < |records| {
      FramesPrefix(crc, records[..|records| - 1], k);
      assert records[..|records| - 1][..k] == records[..k];
    } else {
      assert records[..k] == records;
    }
  }

  /** Part of record `k` after all of the first `k`. */
  lemma {:induction false} FramesPartial(crc: Octets -> U32, records: seq<Record>, k: nat, n: nat)
    requires k < |records| && n <= RECORD_SIZE
    ensures |EncodeRecord(crc, records[k])| == RECORD_SIZE
    ensures Frames(crc, records[..k]) + EncodeRecord(crc, records[k])[..n] <= Frames(crc, records)
    ensures n == RECORD_SIZE ==> Frames(crc, records[..k]) + EncodeRecord(crc, records[k])[..n] == Frames(crc, records[..k + 1])
  {
    hide EncodeRecord, Frames;
    RecordLength(crc, records[k]);
    FramesSnoc(crc, records[..k], records[k]);
    assert records[..k] + [records[k]] == records[..k + 1];
    FramesPrefix(crc, records, k + 1);
    var chunk := EncodeRecord(crc, records[k]);
    assert chunk == chunk[..n] + chunk[n..];
    assert Frames(crc, records[..k]) + chunk == (Frames(crc, records[..k]) + chunk[..n]) + chunk[n..];
  }

  // The invariant.

  /** Records that were handed over and wholly written. */
  function WholeWritten(s: Journal): int {
    match s.phase
    case Collecting(count, _) => s.popped - count
    case Writing(count, index, _, _) => s.popped - count + index
    case _ => s.popped
  }

  function PartWritten(s: Journal): nat {
    if s.phase.Writing? then s.phase.done else 0
  }

  /** Counters never overtake one another, and sequences are dense. */
  ghost predicate Ordered(setup: Setup, s: Journal) {
    && s.popped <= |s.enqueued| && NextSequence(setup, s) < U64_BOUND
    && |s.enqueued| - s.popped <= RING_CAPACITY
    && setup.first <= s.nextDurable <= s.nextWritten <= setup.first + s.popped
    && |s.checksums| == |s.enqueued|
    && (forall i :: 0 <= i < |s.enqueued| ==> s.enqueued[i].sequence == setup.first + i && Verified(setup.crc, s.enqueued[i], s.checksums[i]))
  }

  /** Where the worker is, its local counts fit. */
  ghost predicate WorkerAt(setup: Setup, s: Journal) {
    && (s.poisoned <==> s.phase.Dead?) && (s.complete <==> s.phase.Finished?)
    && match s.phase
       case Collecting(count, last) =>
         count <= s.popped && count <= setup.batch && s.nextWritten == setup.first + s.popped - count && (last ==> s.closed)
       case Writing(count, index, done, last) =>
         index < count <= s.popped && done < RECORD_SIZE && s.nextWritten == setup.first + s.popped - count && (last ==> s.closed)
       case Publishing(last) => last ==> s.closed
       case Idle => s.nextWritten == setup.first + s.popped
       case Flushing(last) => s.nextWritten == setup.first + s.popped && (last ==> s.closed)
       case Flushed(last) => s.nextWritten == setup.first + s.popped && (last ==> s.closed) && s.flushed == |s.sink|
       case FinalFlush => s.nextWritten == setup.first + s.popped && Drained(s)
       case FinalFlushed => s.nextWritten == setup.first + s.popped && Drained(s) && s.flushed == |s.sink|
       case Completing | Finished =>
         s.nextWritten == setup.first + s.popped && Drained(s) && s.flushed == |s.sink| && s.nextDurable == s.nextWritten
       case Dead => true
  }

  predicate Drained(s: Journal) {
    s.closed && s.popped == |s.enqueued|
  }

  /** The sink holds a byte prefix of the enqueued records, never less than the watermarks say. */
  ghost predicate SinkIs(setup: Setup, s: Journal) {
    && s.sink <= Frames(setup.crc, s.enqueued)
    && RECORD_SIZE * (s.nextWritten - setup.first) <= |s.sink|
    && RECORD_SIZE * (s.nextDurable - setup.first) <= s.flushed <= |s.sink|
    && (!s.phase.Dead? ==> SinkExact(setup, s))
  }

  ghost predicate SinkExact(setup: Setup, s: Journal) {
    && 0 <= WholeWritten(s) <= |s.enqueued|
    && if PartWritten(s) == 0 then s.sink == Frames(setup.crc, s.enqueued[..WholeWritten(s)])
       else WholeWritten(s) < |s.enqueued| && PartWritten(s) <= RECORD_SIZE
            && |EncodeRecord(setup.crc, s.enqueued[WholeWritten(s)])| == RECORD_SIZE
            && s.sink == Frames(setup.crc, s.enqueued[..WholeWritten(s)]) + EncodeRecord(setup.crc, s.enqueued[WholeWritten(s)])[..PartWritten(s)]
  }

  /** What a status reader has seen is consistent with what it will see. */
  ghost predicate Seen(setup: Setup, s: Journal) {
    match s.observer
    case Away => true
    case SawComplete(c) => c ==> s.complete
    case SawDurable(c, d) => d <= s.nextDurable && (c ==> s.complete && d == NextSequence(setup, s))
    case SawWritten(c, d, w) => d <= w <= s.nextWritten && (c ==> s.complete && d == w == NextSequence(setup, s))
    case SawClosed(c, d, w, closed) => d <= w <= s.nextWritten && (c ==> s.complete && closed && d == w == NextSequence(setup, s))
    case SawAll(c, d, w, closed, poisoned) =>
      && d <= w <= s.nextWritten && (c ==> s.complete && closed && !poisoned && d == w == NextSequence(setup, s))
      && (poisoned ==> s.poisoned)
  }

  ghost predicate Inv(setup: Setup, s: Journal) {
    Ordered(setup, s) && WorkerAt(setup, s) && SinkIs(setup, s) && Seen(setup, s)
  }

  lemma {:induction false} StartInv(setup: Setup)
    requires setup.first < U64_BOUND
    ensures Inv(setup, Start(setup))
  {
  }

  /** Counters stay ordered through every step. */
  lemma {:induction false} OrderedKept(setup: Setup, s: Journal, a: Action)
    requires Ordered(setup, s) && WorkerAt(setup, s)
    ensures Ordered(setup, Do(setup, s, a))
  {
    hide EncodeRecord;
  }

  lemma {:induction false} PlacedKept(setup: Setup, s: Journal, a: Action)
    requires Ordered(setup, s) && WorkerAt(setup, s) && setup.batch > 0
    ensures WorkerAt(setup, Do(setup, s, a))
  {
    hide Ordered, WorkerAt, Do;
    if a.Enqueue? || a.Close? || a.Observe? || a.WriteInterrupted? {
      CallerPlaced(setup, s, a);
    } else if a.Pop? || a.EndCollect? || a.WriteSome? || a.WriteFails? {
      BatchPlaced(setup, s, a);
    } else {
      ControlPlaced(setup, s, a);
    }
  }

  /** The writer and a status reader never move the worker. */
  lemma {:induction false} CallerPlaced(setup: Setup, s: Journal, a: Action)
    requires Ordered(setup, s) && WorkerAt(setup, s)
    requires a.Enqueue? || a.Close? || a.Observe? || a.WriteInterrupted?
    ensures WorkerAt(setup, Do(setup, s, a))
  {
    hide EncodeRecord;
  }

  lemma {:induction false} BatchPlaced(setup: Setup, s: Journal, a: Action)
    requires Ordered(setup, s) && WorkerAt(setup, s) && setup.batch > 0
    requires a.Pop? || a.EndCollect? || a.WriteSome? || a.WriteFails?
    ensures WorkerAt(setup, Do(setup, s, a))
  {
    hide EncodeRecord, HeadVerifies, Verified;
  }

  lemma {:induction false} ControlPlaced(setup: Setup, s: Journal, a: Action)
    requires Ordered(setup, s) && WorkerAt(setup, s) && setup.batch > 0
    requires !a.Enqueue? && !a.Close? && !a.Observe? && !a.WriteInterrupted?
    requires !a.Pop? && !a.EndCollect? && !a.WriteSome? && !a.WriteFails?
    ensures WorkerAt(setup, Do(setup, s, a))
  {
    hide Verified;
  }

  lemma {:induction false} SeenKept(setup: Setup, s: Journal, a: Action)
    requires Ordered(setup, s) && WorkerAt(setup, s) && Seen(setup, s)
    ensures Seen(setup, Do(setup, s, a))
  {
    hide EncodeRecord, NewRecord, Checksum, HeadVerifies, Verified;
  }

  /** Reading never fails: every record in the ring verifies and is in sequence. */
  lemma {:induction false} PopNeverFails(setup: Setup, s: Journal)
    requires Inv(setup, s) && !s.poisoned
    ensures !Do(setup, s, Pop).poisoned
  {
    hide EncodeRecord, Frames, SinkIs, Seen;
  }

  lemma {:induction false} EnqueueSink(setup: Setup, s: Journal, frame: Octets)
    requires Ordered(setup, s) && WorkerAt(setup, s) && SinkIs(setup, s)
    ensures SinkIs(setup, Do(setup, s, Enqueue(frame)))
  {
    hide EncodeRecord, Frames, NewRecord, Checksum, WorkerAt, Ordered, SinkExact;
    if !s.closed && EnqueueDefect(setup, s, frame).None? {
      var r := NewRecord(NextSequence(setup, s), frame);
      FramesSnoc(setup.crc, s.enqueued, r);
      ExactKept(setup, s, Do(setup, s, Enqueue(frame)));
    }
  }

  /** What is exact stays exact while worker and sink stand still. */
  lemma {:induction false} ExactKept(setup: Setup, s: Journal, t: Journal)
    requires s.enqueued <= t.enqueued && t.sink == s.sink && t.popped == s.popped && t.phase == s.phase
    ensures SinkExact(setup, s) ==> SinkExact(setup, t)
  {
    hide EncodeRecord, Frames;
    if SinkExact(setup, s) {
      var k := WholeWritten(s);
      assert t.enqueued[..k] == s.enqueued[..k];
    }
  }

  lemma {:induction false} NoPiece(sink: Octets, chunk: Octets, a: nat)
    requires a <= |chunk|
    ensures sink + chunk[a..a] == sink
  {
  }

  lemma {:induction false} Pieces(sink: Octets, chunk: Octets, a: nat, b: nat, c: nat)
    requires a <= b <= c <= |chunk|
    ensures (sink + chunk[a..b]) + chunk[b..c] == sink + chunk[a..c]
  {
  }

  /** The sink after `n` more bytes of the current record. */
  lemma {:induction false} WriteSink(setup: Setup, s: Journal, n: nat)
    requires Ordered(setup, s) && WorkerAt(setup, s) && SinkIs(setup, s) && InRecord(s) && n <= RECORD_SIZE - s.phase.done
    ensures var k := Current(s);
            && |EncodeRecord(setup.crc, s.enqueued[k])| == RECORD_SIZE
            && var chunk := EncodeRecord(setup.crc, s.enqueued[k]);
            var sink := s.sink + chunk[s.phase.done..s.phase.done + n];
            && sink == Frames(setup.crc, s.enqueued[..k]) + chunk[..s.phase.done + n]
            && sink <= Frames(setup.crc, s.enqueued)
            && (s.phase.done + n == RECORD_SIZE ==> sink == Frames(setup.crc, s.enqueued[..k + 1]))
  {
    hide EncodeRecord, Frames, Ordered, WorkerAt, SinkIs;
    WritingSink(setup, s);
    var k := Current(s);
    FramesPartial(setup.crc, s.enqueued, k, s.phase.done + n);
    var chunk := EncodeRecord(setup.crc, s.enqueued[k]);
    Pieces(Frames(setup.crc, s.enqueued[..k]), chunk, 0, s.phase.done, s.phase.done + n);
  }

  lemma {:induction false} WritingSink(setup: Setup, s: Journal)
    requires WorkerAt(setup, s) && SinkIs(setup, s) && InRecord(s)
    ensures |EncodeRecord(setup.crc, s.enqueued[Current(s)])| == RECORD_SIZE && s.phase.done < RECORD_SIZE
    ensures s.sink == Frames(setup.crc, s.enqueued[..Current(s)]) + EncodeRecord(setup.crc, s.enqueued[Current(s)])[0..s.phase.done]
  {
    hide EncodeRecord, Frames;
    RecordLength(setup.crc, s.enqueued[Current(s)]);
    NoPiece(s.sink, EncodeRecord(setup.crc, s.enqueued[Current(s)]), 0);
  }

  lemma {:induction false} WriteSinkKept(setup: Setup, s: Journal, a: Action)
    requires Ordered(setup, s) && WorkerAt(setup, s) && SinkIs(setup, s)
    requires a.WriteSome? || a.WriteFails?
    ensures SinkIs(setup, Do(setup, s, a))
  {
    hide EncodeRecord, Frames, SinkExact, Ordered;
    var n := if a.WriteSome? then a.bytes else a.partial;
    if InRecord(s) && n <= RECORD_SIZE - s.phase.done {
      WriteSink(setup, s, n);
      if a.WriteSome? && n > 0 {
        WriteExact(setup, s, n);
      }
    }
  }

  /** The sink is exact again after part of a record, or after the last of it. */
  lemma {:induction false} WriteExact(setup: Setup, s: Journal, n: nat)
    requires Ordered(setup, s) && WorkerAt(setup, s) && SinkIs(setup, s) && InRecord(s) && 0 < n <= RECORD_SIZE - s.phase.done
    ensures SinkExact(setup, Do(setup, s, WriteSome(n)))
  {
    hide EncodeRecord, Frames, Ordered, SinkIs;
    OrderedBounds(setup, s);
    WriteSink(setup, s, n);
  }

  lemma {:induction false} OrderedBounds(setup: Setup, s: Journal)
    requires Ordered(setup, s)
    ensures s.popped <= |s.enqueued|
  {
  }

  lemma {:induction false} PublishSinkKept(setup: Setup, s: Journal, a: Action)
    requires Ordered(setup, s) && WorkerAt(setup, s) && SinkIs(setup, s)
    requires a.PublishWritten? || a.PublishDurable?
    ensures SinkIs(setup, Do(setup, s, a))
  {
    hide EncodeRecord, Frames, SinkExact, Ordered;
    OrderedBounds(setup, s);
    if s.phase.Publishing? || s.phase.Flushed? || s.phase.FinalFlushed? {
      WrittenBytes(setup, s);
      ExactAlike(setup, s, Do(setup, s, a));
    }
  }

  /** Between records the sink holds whole records only. */
  lemma {:induction false} WrittenBytes(setup: Setup, s: Journal)
    requires SinkExact(setup, s) && PartWritten(s) == 0 && WholeWritten(s) == s.popped <= |s.enqueued|
    ensures |s.sink| == RECORD_SIZE * s.popped
  {
    hide EncodeRecord, Frames;
    FramesSize(setup.crc, s.enqueued[..s.popped]);
  }

  lemma {:induction false} ExactAlike(setup: Setup, s: Journal, t: Journal)
    requires t.enqueued == s.enqueued && t.sink == s.sink
    requires WholeWritten(t) == WholeWritten(s) && PartWritten(t) == PartWritten(s)
    ensures SinkExact(setup, s) ==> SinkExact(setup, t)
  {
    hide EncodeRecord, Frames;
  }

  /** Steps that leave sink and enqueued records alone. */
  lemma {:induction false} QuietSinkKept(setup: Setup, s: Journal, a: Action)
    requires Ordered(setup, s) && WorkerAt(setup, s) && SinkIs(setup, s)
    requires !a.Enqueue? && !a.WriteSome? && !a.WriteFails? && !a.PublishWritten? && !a.PublishDurable?
    ensures SinkIs(setup, Do(setup, s, a))
  {
    hide EncodeRecord, Frames, Ordered, HeadVerifies, SinkIs;
    OrderedBounds(setup, s);
    SinkAlike(setup, s, Do(setup, s, a));
  }

  lemma {:induction false} SinkAlike(setup: Setup, s: Journal, t: Journal)
    requires SinkIs(setup, s) && t.enqueued == s.enqueued && t.sink == s.sink
    requires t.nextWritten == s.nextWritten && t.nextDurable == s.nextDurable
    requires t.flushed == s.flushed || t.flushed == |s.sink|
    requires t.phase.Dead? || (!s.phase.Dead? && WholeWritten(t) == WholeWritten(s) && PartWritten(t) == PartWritten(s))
    ensures SinkIs(setup, t)
  {
    hide EncodeRecord, Frames;
  }

  lemma {:induction false} SinkKept(setup: Setup, s: Journal, a: Action)
    requires Ordered(setup, s) && WorkerAt(setup, s) && SinkIs(setup, s)
    ensures SinkIs(setup, Do(setup, s, a))
  {
    hide Ordered, WorkerAt, SinkIs, Do;
    if a.Enqueue? {
      EnqueueSink(setup, s, a.frame);
    } else if a.WriteSome? || a.WriteFails? {
      WriteSinkKept(setup, s, a);
    } else if a.PublishWritten? || a.PublishDurable? {
      PublishSinkKept(setup, s, a);
    } else {
      QuietSinkKept(setup, s, a);
    }
  }

  /** Every step of every thread keeps the invariant. */
  lemma {:induction false} StepKeeps(setup: Setup, s: Journal, a: Action)
    requires Inv(setup, s) && setup.batch > 0
    ensures Inv(setup, Do(setup, s, a))
  {
    hide Ordered, WorkerAt, SinkIs, Seen, Do;
    OrderedKept(setup, s, a);
    PlacedKept(setup, s, a);
    SinkKept(setup, s, a);
    SeenKept(setup, s, a);
  }

  lemma {:induction false} ExecKeeps(setup: Setup, s: Journal, actions: seq<Action>)
    requires Inv(setup, s) && setup.batch > 0
    ensures Inv(setup, Exec(setup, s, actions))
    decreases |actions|
  {
    hide Inv, Do;
    if actions != [] {
      StepKeeps(setup, s, actions[0]);
      ExecKeeps(setup, Do(setup, s, actions[0]), actions[1..]);
    }
  }

  // What every interleaving guarantees.

  /** One step adds at most one record, and none once the writer has closed. */
  lemma {:induction false} EnqueuedGrows(setup: Setup, s: Journal, actions: seq<Action>)
    ensures s.enqueued <= Exec(setup, s, actions).enqueued
    ensures s.closed ==> Exec(setup, s, actions).closed && Exec(setup, s, actions).enqueued == s.enqueued
    decreases |actions|
  {
    if actions != [] {
      var t := Do(setup, s, actions[0]);
      OneStepGrows(setup, s, actions[0]);
      hide Do;
      EnqueuedGrows(setup, t, actions[1..]);
    }
  }

  lemma {:induction false} OneStepGrows(setup: Setup, s: Journal, a: Action)
    ensures s.enqueued <= Do(setup, s, a).enqueued
    ensures s.closed ==> Do(setup, s, a).closed && Do(setup, s, a).enqueued == s.enqueued
  {
    hide EncodeRecord;
  }

  /** Watermarks never overtake each other; the sink is a byte prefix of what was
      enqueued, holds every record below the written watermark and has flushed every
      record below the durable one. */
  lemma {:induction false} JournalSafety(setup: Setup, actions: seq<Action>)
    requires setup.first < U64_BOUND && setup.batch > 0
    ensures var s := Exec(setup, Start(setup), actions);
            && setup.first <= s.nextDurable <= s.nextWritten <= setup.first + s.popped <= NextSequence(setup, s)
            && s.sink <= Frames(setup.crc, s.enqueued)
            && Frames(setup.crc, s.enqueued[..s.nextWritten - setup.first]) <= s.sink
            && s.flushed <= |s.sink| && Frames(setup.crc, s.enqueued[..s.nextDurable - setup.first]) <= s.sink[..s.flushed]
  {
    hide EncodeRecord, Frames, Exec;
    StartInv(setup);
    ExecKeeps(setup, Start(setup), actions);
    var s := Exec(setup, Start(setup), actions);
    PrefixHeld(setup, s, s.nextWritten - setup.first, s.sink);
    PrefixHeld(setup, s, s.nextDurable - setup.first, s.sink[..s.flushed]);
  }

  lemma {:induction false} PrefixHeld(setup: Setup, s: Journal, k: nat, part: Octets)
    requires k <= |s.enqueued| && part <= Frames(setup.crc, s.enqueued) && RECORD_SIZE * k <= |part|
    ensures Frames(setup.crc, s.enqueued[..k]) <= part
  {
    hide Frames;
    FramesSize(setup.crc, s.enqueued[..k]);
    FramesPrefix(setup.crc, s.enqueued, k);
  }

  /** Shutdown misses nothing: once it reports completion the sink holds, flushed,
      exactly the records ever enqueued, and nothing can be enqueued afterwards. */
  lemma {:induction false} ShutdownIsComplete(setup: Setup, actions: seq<Action>, more: seq<Action>)
    requires setup.first < U64_BOUND && setup.batch > 0
    requires Exec(setup, Start(setup), actions).complete
    ensures var s := Exec(setup, Start(setup), actions);
            && s.closed && s.sink == Frames(setup.crc, s.enqueued) && s.flushed == |s.sink|
            && s.nextDurable == s.nextWritten == NextSequence(setup, s)
            && Exec(setup, s, more).enqueued == s.enqueued
  {
    hide EncodeRecord, Frames, Exec;
    StartInv(setup);
    ExecKeeps(setup, Start(setup), actions);
    var s := Exec(setup, Start(setup), actions);
    assert s.enqueued[..|s.enqueued|] == s.enqueued;
    EnqueuedGrows(setup, s, more);
  }

  /** A status snapshot, loaded field by field while the worker runs, never shows durable
      above written; if it shows completion it shows the final counters, closure and no
      poison; and it shows poison only of a poisoned channel. */
  lemma {:induction false} StatusIsConsistent(setup: Setup, actions: seq<Action>)
    requires setup.first < U64_BOUND && setup.batch > 0
    requires Exec(setup, Start(setup), actions).observer.SawAll?
    ensures var s := Exec(setup, Start(setup), actions);
            var o := s.observer;
            && o.durable <= o.written
            && (o.complete ==> o.closed && !o.poisoned && o.durable == o.written == NextSequence(setup, s))
            && (o.poisoned ==> s.poisoned)
  {
    hide EncodeRecord, Frames, Exec;
    StartInv(setup);
    ExecKeeps(setup, Start(setup), actions);
  }

  // Writing one record through a sink that may take it in pieces.

  datatype WriteResult = Wrote(count: nat) | Interrupted | Failed

  /** A sink whose answers are decided by the storage: a script stands for them. */
  class Sink {
    var bytes: Octets
    var script: seq<WriteResult>

    method Write(chunk: Octets) returns (r: WriteResult)
      modifies this
      ensures old(script) == [] ==> r == Failed && script == [] && bytes == old(bytes)
      ensures old(script) != [] ==> r == old(script)[0] && script == old(script)[1..]
      ensures bytes == if r.Wrote? && r.count <= |chunk| then old(bytes) + chunk[..r.count] else old(bytes)
    {
      if script == [] {
        return Failed;
      }
      r := script[0];
      script := script[1..];
      if r.Wrote? && r.count <= |chunk| {
        bytes := bytes + chunk[..r.count];
      }
    }
  }

  /** Does the script let `size` bytes through? A zero or oversized count is an error;
      an interruption is retried. */
  predicate Accepts(script: seq<WriteResult>, size: nat)
    decreases |script|
  {
    if size == 0 then true
    else if script == [] then false
    else match script[0]
      case Interrupted => Accepts(script[1..], size)
      case Failed => false
      case Wrote(n) => 0 < n <= size && Accepts(script[1..], size - n)
  }

  /** How many of `size` bytes the script lets through. */
  function Taken(script: seq<WriteResult>, size: nat): (n: nat)
    ensures n <= size && (n == size <==> Accepts(script, size))
    decreases |script|
  {
    if size == 0 || script == [] then 0
    else match script[0]
      case Interrupted => Taken(script[1..], size)
      case Failed => 0
      case Wrote(n) => if 0 < n <= size then n + Taken(script[1..], size - n) else 0
  }

  /** Writes all of `chunk` or fails having written the prefix that the sink took. */
  method WriteAll(sink: Sink, chunk: Octets) returns (ok: bool)
    modifies sink
    ensures ok <==> Accepts(old(sink.script), |chunk|)
    ensures sink.bytes == old(sink.bytes) + chunk[..Taken(old(sink.script), |chunk|)]
  {
    var k := 0;
    assert chunk[..0] == [] && chunk[0..] == chunk;
    while k < |chunk|
      invariant 0 <= k <= |chunk| && sink.bytes == old(sink.bytes) + chunk[..k]
      invariant Accepts(sink.script, |chunk| - k) <==> Accepts(old(sink.script), |chunk|)
      invariant Taken(old(sink.script), |chunk|) == k + Taken(sink.script, |chunk| - k)
      decreases |sink.script|
    {
      if sink.script == [] {
        return false;
      }
      var r := sink.Write(chunk[k..]);
      match r {
        case Interrupted =>
        case Failed => return false;
        case Wrote(n) =>
          if n == 0 || n > |chunk| - k {
            return false;
          }
          assert chunk[..k] + chunk[k..][..n] == chunk[..k + n];
          k := k + n;
      }
    }
    assert chunk[..k] == chunk;
    ok := true;
  }

  /** The worker steps a script stands for while `size` bytes of a record are left. */
  function StepsOf(script: seq<WriteResult>, size: nat): seq<Action>
    decreases |script|
  {
    if size == 0 then []
    else if script == [] then [WriteFails(0)]
    else match script[0]
      case Interrupted => [WriteInterrupted] + StepsOf(script[1..], size)
      case Failed => [WriteFails(0)]
      case Wrote(n) => if 0 < n <= size then [WriteSome(n)] + StepsOf(script[1..], size - n) else [WriteFails(0)]
  }

  /** Writing a record through such a sink is a run of worker steps: the same bytes
      arrive, and the channel dies exactly when the write fails. */
  lemma {:induction false} WriteAllIsSteps(setup: Setup, s: Journal, script: seq<WriteResult>)
    requires InRecord(s) && s.phase.done < RECORD_SIZE
    ensures var chunk, size := EncodeRecord(setup.crc, s.enqueued[Current(s)]), RECORD_SIZE - s.phase.done;
            Delivered(s, Exec(setup, s, StepsOf(script, size)), chunk, s.phase.done, Taken(script, size), Accepts(script, size))
    decreases |script|
  {
    hide EncodeRecord, Do, Exec, Delivered;
    var chunk, done := EncodeRecord(setup.crc, s.enqueued[Current(s)]), s.phase.done;
    var size := RECORD_SIZE - done;
    RecordLength(setup.crc, s.enqueued[Current(s)]);
    if script == [] || script[0].Failed? || (script[0].Wrote? && !(0 < script[0].count <= size)) {
      FailedStep(setup, s);
    } else if script[0].Interrupted? {
      InterruptedStep(setup, s);
      ExecFirst(setup, s, WriteInterrupted, StepsOf(script[1..], size));
      WriteAllIsSteps(setup, s, script[1..]);
    } else {
      var n := script[0].count;
      var next := Do(setup, s, WriteSome(n));
      WroteStep(setup, s, n);
      ExecFirst(setup, s, WriteSome(n), StepsOf(script[1..], size - n));
      if n < size {
        WriteAllIsSteps(setup, next, script[1..]);
      } else {
        NoSteps(setup, next);
        NoneDelivered(next, chunk, done + n);
      }
      var t := Exec(setup, next, StepsOf(script[1..], size - n));
      ThenDelivered(s, next, t, chunk, done, n, Taken(script[1..], size - n), Accepts(script[1..], size - n));
    }
  }

  /** From `s` to `t` exactly `k` more bytes of `chunk` arrived; the channel survived iff `ok`. */
  ghost predicate Delivered(s: Journal, t: Journal, chunk: Octets, done: nat, k: nat, ok: bool) {
    && done + k <= |chunk| && t.sink == s.sink + chunk[done..done + k]
    && (t.phase.Dead? <==> !ok) && t.enqueued == s.enqueued && t.popped == s.popped
  }

  lemma {:induction false} NoneDelivered(s: Journal, chunk: Octets, done: nat)
    requires done <= |chunk| && !s.phase.Dead?
    ensures Delivered(s, s, chunk, done, 0, true)
  {
    NoPiece(s.sink, chunk, done);
  }

  lemma {:induction false} ThenDelivered(s: Journal, next: Journal, t: Journal, chunk: Octets, done: nat, n: nat, k: nat, ok: bool)
    requires Delivered(s, next, chunk, done, n, true) && Delivered(next, t, chunk, done + n, k, ok)
    ensures Delivered(s, t, chunk, done, n + k, ok)
  {
    Pieces(s.sink, chunk, done, done + n, done + n + k);
  }

  lemma {:induction false} NoSteps(setup: Setup, s: Journal)
    ensures Exec(setup, s, []) == s
  {
  }

  lemma {:induction false} FailedStep(setup: Setup, s: Journal)
    requires InRecord(s) && s.phase.done < RECORD_SIZE
    ensures Delivered(s, Exec(setup, s, [WriteFails(0)]), EncodeRecord(setup.crc, s.enqueued[Current(s)]), s.phase.done, 0, false)
  {
    hide EncodeRecord, Exec;
    RecordLength(setup.crc, s.enqueued[Current(s)]);
    NoPiece(s.sink, EncodeRecord(setup.crc, s.enqueued[Current(s)]), s.phase.done);
    assert [WriteFails(0)] + [] == [WriteFails(0)];
    ExecFirst(setup, s, WriteFails(0), []);
    NoSteps(setup, Do(setup, s, WriteFails(0)));
  }

  lemma {:induction false} InterruptedStep(setup: Setup, s: Journal)
    ensures Do(setup, s, WriteInterrupted) == s
  {
    hide EncodeRecord;
  }

  lemma {:induction false} WroteStep(setup: Setup, s: Journal, n: nat)
    requires InRecord(s) && s.phase.done < RECORD_SIZE && 0 < n <= RECORD_SIZE - s.phase.done
    ensures var t, chunk := Do(setup, s, WriteSome(n)), EncodeRecord(setup.crc, s.enqueued[Current(s)]);
            && Delivered(s, t, chunk, s.phase.done, n, true) && t.enqueued == s.enqueued && !t.phase.Dead?
            && (s.phase.done + n < RECORD_SIZE ==> t.phase == s.phase.(done := s.phase.done + n) && InRecord(t) && Current(t) == Current(s))
  {
    hide EncodeRecord;
    RecordLength(setup.crc, s.enqueued[Current(s)]);
  }

  lemma {:induction false} ExecFirst(setup: Setup, s: Journal, a: Action, rest: seq<Action>)
    ensures Exec(setup, s, [a] + rest) == Exec(setup, Do(setup, s, a), rest)
  {
    hide Do;
    assert ([a] + rest)[1..] == rest;
  }

  // Scanning a journal.

  datatype ScanError = TruncatedTail(bytes: nat) | BadRecord(offset: nat, source: DecodeError) | OutOfSequence(expected: nat, received: Sequence) | Exhausted

  predicate Dense(records: seq<Record>, first: nat) {
    forall i :: 0 <= i < |records| ==> records[i].Valid() && records[i].sequence == first + i
  }

  /** Reads records to the end of the bytes; a partial or foreign record is an error. */
  method Scan(crc: Octets -> U32, bytes: Octets, first: nat) returns (r: Result<nat, ScanError>, records: seq<Record>)
    requires first < U64_BOUND
    ensures r.Ok? ==> Dense(records, first) && r.value == first + |records| < U64_BOUND && Frames(crc, records) == bytes
    ensures r.Err? ==> forall other :: Dense(other, first) && first + |other| < U64_BOUND ==> Frames(crc, other) != bytes
  {
    hide EncodeRecord, DecodeRecord, Frames;
    records := [];
    var expected := first;
    var offset := 0;
    NoFrames(crc, bytes);
    while offset < |bytes|
      invariant 0 <= offset <= |bytes| && Dense(records, first) && expected == first + |records| < U64_BOUND
      invariant Frames(crc, records) == bytes[..offset]
      invariant forall other :: Dense(other, first) && Frames(crc, other) == bytes ==> records <= other
      decreases |bytes| - offset
    {
      FramesSize(crc, records);
      if |bytes| - offset < RECORD_SIZE {
        forall other | Dense(other, first) && Frames(crc, other) == bytes ensures false {
          OtherRecord(crc, bytes, records, other, first);
        }
        return Err(TruncatedTail(|bytes| - offset)), records;
      }
      var chunk := bytes[offset..offset + RECORD_SIZE];
      forall other | Dense(other, first) && Frames(crc, other) == bytes
        ensures |records| < |other| && DecodeRecord(crc, chunk) == Ok(other[|records|])
      {
        OtherRecord(crc, bytes, records, other, first);
      }
      var record := DecodeRecord(crc, chunk);
      if record.Err? {
        return Err(BadRecord(offset, record.error)), records;
      }
      if record.value.sequence != expected {
        return Err(OutOfSequence(expected, record.value.sequence)), records;
      }
      if expected + 1 >= U64_BOUND {
        return Err(Exhausted), records;
      }
      RecordEncodes(crc, chunk);
      FramesSnoc(crc, records, record.value);
      assert bytes[..offset] + chunk == bytes[..offset + RECORD_SIZE];
      records := records + [record.value];
      expected := expected + 1;
      offset := offset + RECORD_SIZE;
    }
    assert bytes[..offset] == bytes;
    r := Ok(expected);
  }

  lemma {:induction false} NoFrames(crc: Octets -> U32, bytes: Octets)
    ensures Frames(crc, []) == bytes[..0]
  {
  }

  /** If longer dense records encode to `bytes`, the next chunk is their next record. */
  lemma {:induction false} OtherRecord(crc: Octets -> U32, bytes: Octets, records: seq<Record>, other: seq<Record>, first: nat)
    requires Dense(other, first) && Frames(crc, other) == bytes && records <= other && RECORD_SIZE * |records| < |bytes|
    ensures |records| < |other| && RECORD_SIZE * (|records| + 1) <= |bytes|
    ensures DecodeRecord(crc, bytes[RECORD_SIZE * |records|..RECORD_SIZE * (|records| + 1)]) == Ok(other[|records|])
  {
    hide EncodeRecord, DecodeRecord, Frames;
    var k := |records|;
    FramesSize(crc, other);
    FramesSize(crc, other[..k]);
    FramesPartial(crc, other, k, RECORD_SIZE);
    var chunk := EncodeRecord(crc, other[k]);
    assert chunk[..RECORD_SIZE] == chunk;
    RecordDecodes(crc, other[k]);
    FramesPrefix(crc, other, k + 1);
    FramesSize(crc, other[..k + 1]);
    assert (Frames(crc, other[..k]) + chunk)[RECORD_SIZE * k..] == chunk;
    assert bytes[..RECORD_SIZE * (k + 1)] == Frames(crc, other[..k + 1]);
    assert bytes[..RECORD_SIZE * (k + 1)][RECORD_SIZE * k..] == bytes[RECORD_SIZE * k..RECORD_SIZE * (k + 1)];
  }
}
