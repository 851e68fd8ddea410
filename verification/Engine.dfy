/** One instrument's engine and its journal as one interleaved system: admit, journal,
    apply, publish on the caller's thread; persistence, status readers and the event
    consumer between any two of those. */
module Engines {
  import opened Types
  import opened GatewaySpec
  import opened GatewayLaws
  import opened GatewayRuns
  import opened Events
  import opened EventRules
  import B = Bytes
  import K = BookSpec
  import F = JournalRecords
  import J = Journals
  import V = Recovery
  import R = RiskSpec
  import W = Wire

  datatype EngineSetup = EngineSetup(cfg: Config, journal: J.Setup, reports: nat, queue: nat)

  /** How far the caller's thread is with one command. */
  datatype Stage = Ready | Admitted(command: Command) | Journaled(command: Command)

  datatype Engine = Engine(
    gateway: GatewayState,
    applied: seq<Command>,
    open: bool,
    failed: bool,
    delivered: seq<seq<Event>>,
    queued: seq<seq<Event>>,
    stage: Stage)

  datatype System = System(engine: Engine, journal: J.Journal)

  datatype EngineError =
    | EngineStopped
    | EngineFailed
    | PersistenceFailed
    | UnknownInstrument(instrument: InstrumentId)
    | Admission(admission: EventEngineError)
    | JournalRefused(journal: J.EnqueueError)
    | SequenceInvariant
    | ApplyFailed(apply: EventEngineError)

  datatype SystemMove = Submit(command: Command) | Append | Apply | StopAdmission | Consume | Storage(action: J.Action)

  /** The next state, and the answer if the call returns. */
  datatype Outcome = Outcome(next: System, answer: Option<Option<EngineError>>)

  predicate ValidSetup(setup: EngineSetup) {
    setup.reports <= MAX_REPORTS && setup.journal.batch > 0
  }

  function Boot(setup: EngineSetup, start: GatewayState): System {
    System(Engine(start, [], true, false, [], [], Ready), J.Start(setup.journal))
  }

  function Fail(s: System): System {
    System(s.engine.(failed := true, open := false, stage := Ready), s.journal.(closed := true))
  }

  function Refuse(s: System, e: EngineError): Outcome {
    Outcome(s.(engine := s.engine.(stage := Ready)), Some(Some(e)))
  }

  /** Everything checked before the command is journaled. */
  function Admit(setup: EngineSetup, s: System, c: Command): Outcome {
    var defect := SequenceDefect(s.engine.gateway, c.SequenceOf());
    if s.engine.failed then Refuse(s, EngineFailed)
    else if s.journal.poisoned then Refuse(Fail(s), PersistenceFailed)
    else if !s.engine.open then Refuse(s, EngineStopped)
    else if c.InstrumentOf() != setup.cfg.instrument then Refuse(s, UnknownInstrument(c.InstrumentOf()))
    else if J.NextSequence(setup.journal, s.journal) != s.engine.gateway.expected then Refuse(Fail(s), SequenceInvariant)
    else if defect.Some? then
      Refuse(if defect.value.RiskStateBroken? then Fail(s) else s, Admission(GatewayBroken(defect.value)))
    else if |s.engine.queued| >= setup.queue then Refuse(s, Admission(Backpressured))
    else Outcome(s.(engine := s.engine.(stage := Admitted(c))), None)
  }

  function AppendRecord(setup: EngineSetup, s: System, c: Command): Outcome {
    var frame := W.EncodeCommand(c);
    var defect := J.EnqueueDefect(setup.journal, s.journal, frame);
    if defect.Some? then Refuse(s, JournalRefused(defect.value))
    else Outcome(System(s.engine.(stage := Journaled(c)), J.Do(setup.journal, s.journal, J.Enqueue(frame))), None)
  }

  /** What is published for command `c` out of state `g`. */
  ghost function PublicationOf(setup: EngineSetup, g: GatewayState, c: Command): Result<seq<Event>, EventEngineError>
    requires SoundGateway(setup.cfg, g) && ValidSetup(setup)
  {
    var step := Advance(setup.cfg, g, c, setup.reports);
    ReportsAreTrades(setup.cfg, g, c, setup.reports);
    Publication(IdentityOf(c), c.SequenceOf(), TopsOf(g.book), TopsOf(step.state.book), step.reports, step.result)
  }

  ghost function ApplyCommand(setup: EngineSetup, s: System, c: Command): Outcome
    requires SoundGateway(setup.cfg, s.engine.gateway) && ValidSetup(setup)
  {
    var step := Advance(setup.cfg, s.engine.gateway, c, setup.reports);
    var published := PublicationOf(setup, s.engine.gateway, c);
    var moved := s.(engine := s.engine.(gateway := step.state, applied := s.engine.applied + [c]));
    if published.Err? then Refuse(Fail(moved), ApplyFailed(published.error))
    else if |s.engine.queued| >= setup.queue then Refuse(Fail(moved), ApplyFailed(PublicationInvariant))
    else Outcome(moved.(engine := moved.engine.(queued := s.engine.queued + [published.value], stage := Ready)), Some(None))
  }

  /** Between calls, admission closes for good. */
  function Stop(s: System): System {
    if s.engine.stage.Ready? then System(s.engine.(open := false), s.journal.(closed := true)) else s
  }

  /** One atomic step of any thread; a move that is not enabled changes nothing. */
  ghost function Next(setup: EngineSetup, s: System, m: SystemMove): Outcome
    requires SoundGateway(setup.cfg, s.engine.gateway) && ValidSetup(setup)
  {
    match m
    case Submit(c) => if s.engine.stage.Ready? then Admit(setup, s, c) else Outcome(s, None)
    case Append => if s.engine.stage.Admitted? then AppendRecord(setup, s, s.engine.stage.command) else Outcome(s, None)
    case Apply => if s.engine.stage.Journaled? then ApplyCommand(setup, s, s.engine.stage.command) else Outcome(s, None)
    case StopAdmission => Outcome(Stop(s), None)
    case Consume =>
      if s.engine.queued == [] then Outcome(s, None)
      else Outcome(s.(engine := s.engine.(delivered := s.engine.delivered + [s.engine.queued[0]], queued := s.engine.queued[1..])), None)
    case Storage(a) =>
      if a.Enqueue? || a.Close? then Outcome(s, None) else Outcome(s.(journal := J.Do(setup.journal, s.journal, a)), None)
  }

  // The invariant.

  /** Commands the journal has been given. */
  function Given(e: Engine): seq<Command> {
    if e.stage.Journaled? then e.applied + [e.stage.command] else e.applied
  }

  /** Record `i` is the frame of command `i` under the next sequence number. */
  ghost predicate RecordsAre(first: nat, records: seq<F.Record>, commands: seq<Command>) {
    && |records| == |commands| && first + |commands| < U64_BOUND
    && forall i :: 0 <= i < |records| ==> records[i] == RecordFor(first + i, commands[i])
  }

  function RecordFor(sequence: Sequence, c: Command): F.Record {
    W.FrameLength(c);
    F.NewRecord(sequence, W.EncodeCommand(c))
  }

  /** Journal and gateway are in lockstep. */
  ghost predicate Lockstep(setup: EngineSetup, start: GatewayState, s: System)
    requires SoundGateway(setup.cfg, start)
  {
    && setup.journal.first == start.expected
    && V.Consecutive(Given(s.engine), setup.journal.first)
    && RecordsAre(setup.journal.first, s.journal.enqueued, Given(s.engine))
    && s.engine.gateway.expected == setup.journal.first + |s.engine.applied|
    && s.engine.gateway == Replay(setup.cfg, start, s.engine.applied, setup.reports)
  }

  ghost predicate Staged(setup: EngineSetup, s: System) {
    && (s.engine.open <==> !s.journal.closed) && (s.engine.failed ==> !s.engine.open)
    && |s.engine.queued| <= setup.queue
    && match s.engine.stage
       case Ready => true
       case Admitted(c) => Admissible(setup, s, c)
       case Journaled(c) => Admissible(setup, s, c)
  }

  /** What admission established for the command in flight. */
  ghost predicate Admissible(setup: EngineSetup, s: System, c: Command) {
    && s.engine.open && !s.engine.failed && |s.engine.queued| < setup.queue
    && c.InstrumentOf() == setup.cfg.instrument
    && c.SequenceOf() == s.engine.gateway.expected && s.engine.gateway.expected + 1 < U64_BOUND
  }

  /** `batch` is what command `c` publishes out of state `g`, and passes the validator. */
  ghost predicate BatchOf(setup: EngineSetup, g: GatewayState, c: Command, batch: seq<Event>)
    requires SoundGateway(setup.cfg, g) && ValidSetup(setup)
  {
    && PublicationOf(setup, g, c) == Ok(batch)
    && WellFormed(batch, setup.cfg.instrument, c.SequenceOf()) && |batch| <= setup.reports + 2
  }

  /** Delivered and queued batches, in order, are what each applied command published out
      of the state the commands before it left. */
  ghost predicate Published(setup: EngineSetup, start: GatewayState, e: Engine)
    requires SoundGateway(setup.cfg, start) && ValidSetup(setup)
  {
    var batches := e.delivered + e.queued;
    && |batches| == |e.applied|
    && forall i :: 0 <= i < |batches| ==>
         BatchOf(setup, Replay(setup.cfg, start, e.applied[..i], setup.reports), e.applied[i], batches[i])
  }

  ghost predicate SystemInv(setup: EngineSetup, start: GatewayState, s: System)
  {
    && ValidSetup(setup) && SoundGateway(setup.cfg, start) && SoundGateway(setup.cfg, s.engine.gateway)
    && J.Inv(setup.journal, s.journal)
    && Lockstep(setup, start, s) && Staged(setup, s) && Published(setup, start, s.engine)
  }

  lemma {:induction false} BootInv(setup: EngineSetup, start: GatewayState)
    requires SoundGateway(setup.cfg, start) && ValidSetup(setup) && setup.journal.first == start.expected
    ensures SystemInv(setup, start, Boot(setup, start))
  {
    hide SoundGateway, J.Inv;
    J.StartInv(setup.journal);
  }

  /** Closing the journal is a step of the journal. */
  lemma {:induction false} FailKeeps(setup: EngineSetup, start: GatewayState, s: System)
    requires SystemInv(setup, start, s) && !s.engine.stage.Journaled?
    ensures SystemInv(setup, start, Fail(s))
  {
    hide SoundGateway, J.Inv, Replay, RecordsAre, V.Consecutive, BatchOf;
    CloseKeeps(setup.journal, s.journal);
    SameRun(setup, start, s, Fail(s).engine);
  }

  /** What was applied and published does not depend on the stage or the flags. */
  lemma {:induction false} SameRun(setup: EngineSetup, start: GatewayState, s: System, e: Engine)
    requires SystemInv(setup, start, s)
    requires e.applied == s.engine.applied && e.delivered == s.engine.delivered && e.queued == s.engine.queued
    ensures Published(setup, start, e)
  {
    hide SoundGateway, J.Inv, Replay, Lockstep, Staged, BatchOf;
  }

  lemma {:induction false} CloseKeeps(setup: J.Setup, j: J.Journal)
    requires J.Inv(setup, j) && setup.batch > 0
    ensures J.Inv(setup, j.(closed := true))
  {
    hide J.Inv;
    J.StepKeeps(setup, j, J.Close);
  }

  lemma {:induction false} ReadyKeeps(setup: EngineSetup, start: GatewayState, s: System)
    requires SystemInv(setup, start, s) && !s.engine.stage.Journaled?
    ensures SystemInv(setup, start, s.(engine := s.engine.(stage := Ready)))
  {
    hide SoundGateway, J.Inv, Replay, RecordsAre, V.Consecutive, BatchOf;
    SameRun(setup, start, s, s.engine.(stage := Ready));
    hide Published;
  }

  /** Between calls the journal's next sequence is the gateway's expected sequence. */
  lemma {:induction false} InStep(setup: EngineSetup, start: GatewayState, s: System)
    requires SystemInv(setup, start, s) && !s.engine.stage.Journaled?
    ensures J.NextSequence(setup.journal, s.journal) == s.engine.gateway.expected
    ensures s.engine.failed ==> !s.engine.open
  {
    hide SoundGateway, J.Inv, Replay, Published, RecordFor;
  }

  lemma {:induction false} ClearKeeps(setup: EngineSetup, start: GatewayState, s: System, c: Command)
    requires SystemInv(setup, start, s) && !s.engine.stage.Journaled? && Admissible(setup, s, c)
    ensures SystemInv(setup, start, s.(engine := s.engine.(stage := Admitted(c))))
  {
    hide SoundGateway, J.Inv, Replay, RecordsAre, V.Consecutive, BatchOf;
    SameRun(setup, start, s, s.engine.(stage := Admitted(c)));
    hide Published;
  }

  /** Answers an engine can give: every refusal is one a caller can cause. */
  predicate Expected(answer: Option<Option<EngineError>>) {
    answer.Some? && answer.value.Some? ==>
      match answer.value.value
      case SequenceInvariant => false
      case ApplyFailed(_) => false
      case JournalRefused(e) => e.Saturated?
      case Admission(e) => e.Backpressured? || e.GatewayBroken?
      case _ => true
  }

  /** Admission keeps the invariant; its lockstep check cannot fail. */
  lemma {:induction false} AdmitKeeps(setup: EngineSetup, start: GatewayState, s: System, c: Command)
    requires SystemInv(setup, start, s) && s.engine.stage.Ready?
    ensures SystemInv(setup, start, Admit(setup, s, c).next)
    ensures Expected(Admit(setup, s, c).answer)
  {
    hide SystemInv;
    InStep(setup, start, s);
    FailKeeps(setup, start, s);
    ReadyKeeps(setup, start, s);
    ReadyKeeps(setup, start, Fail(s));
    if Admissible(setup, s, c) {
      ClearKeeps(setup, start, s, c);
    }
  }

  lemma {:induction false} RecordsSnoc(first: nat, records: seq<F.Record>, commands: seq<Command>, c: Command)
    requires RecordsAre(first, records, commands) && first + |commands| + 1 < U64_BOUND
    ensures RecordsAre(first, records + [RecordFor(first + |commands|, c)], commands + [c])
  {
    hide RecordFor;
  }

  lemma {:induction false} ConsecutiveSnoc(commands: seq<Command>, first: int, c: Command)
    requires V.Consecutive(commands, first) && c.SequenceOf() == first + |commands|
    ensures V.Consecutive(commands + [c], first)
  {
  }

  /** Journaling an admitted command keeps the invariant and can only be refused by a full ring. */
  lemma {:induction false} AppendKeeps(setup: EngineSetup, start: GatewayState, s: System)
    requires SystemInv(setup, start, s) && s.engine.stage.Admitted?
    ensures var o := AppendRecord(setup, s, s.engine.stage.command);
            && SystemInv(setup, start, o.next)
            && (o.answer.Some? ==> o.answer == Some(Some(JournalRefused(J.Saturated))))
  {
    hide SystemInv, W.EncodeCommand, J.Do;
    var c := s.engine.stage.command;
    W.FrameLength(c);
    InStep(setup, start, s);
    AdmittedClear(setup, start, s);
    ReadyKeeps(setup, start, s);
    if J.EnqueueDefect(setup.journal, s.journal, W.EncodeCommand(c)).None? {
      AppendedKeeps(setup, start, s, c);
    }
  }

  lemma {:induction false} AdmittedClear(setup: EngineSetup, start: GatewayState, s: System)
    requires SystemInv(setup, start, s) && !s.engine.stage.Ready?
    ensures Admissible(setup, s, s.engine.stage.command) && !s.journal.closed
  {
    hide SoundGateway, J.Inv, Lockstep, Published;
  }

  /** The record appended for an admitted command is the next of the lockstep. */
  lemma {:induction false} AppendedKeeps(setup: EngineSetup, start: GatewayState, s: System, c: Command)
    requires SystemInv(setup, start, s) && s.engine.stage == Admitted(c)
    requires J.EnqueueDefect(setup.journal, s.journal, W.EncodeCommand(c)).None?
    ensures SystemInv(setup, start, System(s.engine.(stage := Journaled(c)), J.Do(setup.journal, s.journal, J.Enqueue(W.EncodeCommand(c)))))
  {
    hide SoundGateway, J.Inv, J.Do, W.EncodeCommand, Lockstep, Staged, Published, RecordFor, J.NextSequence;
    W.FrameLength(c);
    InStep(setup, start, s);
    AdmittedClear(setup, start, s);
    AppendedJournal(setup.journal, s.journal, c);
    var after := J.Do(setup.journal, s.journal, J.Enqueue(W.EncodeCommand(c)));
    LockstepAppended(setup, start, s, after, c);
    JournaledStage(setup, s, after, c);
    SameRun(setup, start, s, s.engine.(stage := Journaled(c)));
  }

  lemma {:induction false} JournaledStage(setup: EngineSetup, s: System, after: J.Journal, c: Command)
    requires Staged(setup, s) && s.engine.stage == Admitted(c) && !s.journal.closed && !after.closed
    ensures Staged(setup, System(s.engine.(stage := Journaled(c)), after))
  {
  }

  lemma {:induction false} LockstepAppended(setup: EngineSetup, start: GatewayState, s: System, after: J.Journal, c: Command)
    requires SoundGateway(setup.cfg, start) && Lockstep(setup, start, s) && s.engine.stage == Admitted(c)
    requires c.SequenceOf() == s.engine.gateway.expected && s.engine.gateway.expected + 1 < U64_BOUND
    requires J.NextSequence(setup.journal, s.journal) == s.engine.gateway.expected
    requires after.enqueued == s.journal.enqueued + [RecordFor(s.engine.gateway.expected, c)]
    ensures Lockstep(setup, start, System(s.engine.(stage := Journaled(c)), after))
  {
    hide SoundGateway, Replay, RecordFor;
    RecordsSnoc(setup.journal.first, s.journal.enqueued, s.engine.applied, c);
    ConsecutiveSnoc(s.engine.applied, setup.journal.first, c);
    hide RecordsAre, V.Consecutive;
  }

  lemma {:induction false} AppendedJournal(setup: J.Setup, j: J.Journal, c: Command)
    requires J.Inv(setup, j) && setup.batch > 0 && !j.closed && J.EnqueueDefect(setup, j, W.EncodeCommand(c)).None?
    ensures J.NextSequence(setup, j) < U64_BOUND
    ensures var after := J.Do(setup, j, J.Enqueue(W.EncodeCommand(c)));
            && J.Inv(setup, after) && !after.closed
            && after.enqueued == j.enqueued + [RecordFor(J.NextSequence(setup, j), c)]
  {
    hide J.Inv, W.EncodeCommand, F.NewRecord;
    J.StepKeeps(setup, j, J.Enqueue(W.EncodeCommand(c)));
    W.FrameLength(c);
  }

  lemma {:induction false} ReplaySnoc(cfg: Config, g: GatewayState, commands: seq<Command>, c: Command, room: nat)
    requires SoundGateway(cfg, g)
    ensures Replay(cfg, g, commands + [c], room) == Advance(cfg, Replay(cfg, g, commands, room), c, room).state
  {
    hide SoundGateway, Process;
    var h := Replay(cfg, g, commands, room);
    ReplaySplit(cfg, g, commands, [c], room);
    assert [c][1..] == [];
    assert Replay(cfg, Advance(cfg, h, c, room).state, [], room) == Advance(cfg, h, c, room).state;
  }

  /** A journaled command publishes a well-formed batch: no fatal error is possible. */
  lemma {:induction false} ApplyPublishes(setup: EngineSetup, g: GatewayState, c: Command)
    requires SoundGateway(setup.cfg, g) && ValidSetup(setup)
    requires c.InstrumentOf() == setup.cfg.instrument && c.SequenceOf() == g.expected && g.expected + 1 < U64_BOUND
    ensures PublicationOf(setup, g, c).Ok? && BatchOf(setup, g, c, PublicationOf(setup, g, c).value)
    ensures Advance(setup.cfg, g, c, setup.reports).state.expected == g.expected + 1
  {
    hide SoundGateway, Process, WellFormed, AcceptedBatch, TopsOf, Unmoved, R.NetPosition;
    ProcessKeeps(setup.cfg, g, c, setup.reports);
    V.ProcessCounts(setup.cfg, g, c, setup.reports);
    ReportsAreTrades(setup.cfg, g, c, setup.reports);
    var step := Process(setup.cfg, g, c, setup.reports);
    IdentityInstrument(c);
    PublicationWellFormed(IdentityOf(c), c.SequenceOf(), TopsOf(g.book), TopsOf(step.state.book), step.reports, step.result);
  }

  lemma {:induction false} IdentityInstrument(c: Command)
    ensures IdentityOf(c).instrument == c.InstrumentOf()
  {
  }

  /** Applying a journaled command keeps the invariant and always succeeds. */
  lemma {:induction false} ApplyKeeps(setup: EngineSetup, start: GatewayState, s: System)
    requires SystemInv(setup, start, s) && s.engine.stage.Journaled?
    ensures var o := ApplyCommand(setup, s, s.engine.stage.command);
            SystemInv(setup, start, o.next) && o.answer == Some(None)
  {
    hide SoundGateway, PublicationOf, BatchOf, J.Inv, Lockstep, Staged, Published, Advance;
    var c, e := s.engine.stage.command, s.engine;
    AdmittedClear(setup, start, s);
    ApplyPublishes(setup, e.gateway, c);
    AdvancedSound(setup.cfg, e.gateway, c, setup.reports);
    var batch := PublicationOf(setup, e.gateway, c).value;
    var f := e.(gateway := Advance(setup.cfg, e.gateway, c, setup.reports).state, applied := e.applied + [c],
                queued := e.queued + [batch], stage := Ready);
    AppliedLockstep(setup, start, s, c, f);
    AppliedPublished(setup, start, s, c, f, batch);
    AppliedStaged(setup, s, f);
  }

  lemma {:induction false} AdvancedSound(cfg: Config, g: GatewayState, c: Command, room: nat)
    requires SoundGateway(cfg, g)
    ensures SoundGateway(cfg, Advance(cfg, g, c, room).state)
  {
    hide SoundGateway, Process;
  }

  lemma {:induction false} AppliedStaged(setup: EngineSetup, s: System, f: Engine)
    requires Staged(setup, s) && f.stage.Ready? && f.open == s.engine.open && f.failed == s.engine.failed && |f.queued| <= setup.queue
    ensures Staged(setup, System(f, s.journal))
  {
  }

  lemma {:induction false} AppliedLockstep(setup: EngineSetup, start: GatewayState, s: System, c: Command, f: Engine)
    requires SoundGateway(setup.cfg, start) && SoundGateway(setup.cfg, s.engine.gateway)
    requires Lockstep(setup, start, s) && s.engine.stage == Journaled(c)
    requires Advance(setup.cfg, s.engine.gateway, c, setup.reports).state.expected == s.engine.gateway.expected + 1
    requires f.gateway == Advance(setup.cfg, s.engine.gateway, c, setup.reports).state && f.applied == s.engine.applied + [c]
    requires !f.stage.Journaled?
    ensures Lockstep(setup, start, System(f, s.journal))
  {
    hide SoundGateway, Advance, Replay, RecordsAre, V.Consecutive;
    ReplaySnoc(setup.cfg, start, s.engine.applied, c, setup.reports);
  }

  lemma {:induction false} AppliedPublished(setup: EngineSetup, start: GatewayState, s: System, c: Command, f: Engine, batch: seq<Event>)
    requires SystemInv(setup, start, s) && BatchOf(setup, s.engine.gateway, c, batch)
    requires f.applied == s.engine.applied + [c] && f.delivered == s.engine.delivered && f.queued == s.engine.queued + [batch]
    ensures Published(setup, start, f)
  {
    hide SoundGateway, J.Inv, Staged, BatchOf, Replay, RecordsAre, V.Consecutive;
    var before, batches := s.engine.delivered + s.engine.queued, f.delivered + f.queued;
    assert batches == before + [batch];
    forall i | 0 <= i < |batches|
      ensures BatchOf(setup, Replay(setup.cfg, start, f.applied[..i], setup.reports), f.applied[i], batches[i])
    {
      assert f.applied[..i] == s.engine.applied[..i];
      if i == |before| {
        assert f.applied[..i] == s.engine.applied;
      }
    }
  }

  lemma {:induction false} ConsumeKeeps(setup: EngineSetup, start: GatewayState, s: System)
    requires SystemInv(setup, start, s) && s.engine.queued != []
    ensures SystemInv(setup, start,
                      s.(engine := s.engine.(delivered := s.engine.delivered + [s.engine.queued[0]], queued := s.engine.queued[1..])))
  {
    hide SoundGateway, J.Inv, Replay, RecordsAre, V.Consecutive, BatchOf;
    var e := s.engine;
    assert (e.delivered + [e.queued[0]]) + e.queued[1..] == e.delivered + e.queued;
  }

  lemma {:induction false} StorageKeeps(setup: EngineSetup, start: GatewayState, s: System, a: J.Action)
    requires SystemInv(setup, start, s) && !a.Enqueue? && !a.Close?
    ensures SystemInv(setup, start, s.(journal := J.Do(setup.journal, s.journal, a)))
  {
    hide SoundGateway, J.Inv, J.Do, Replay, Published, RecordsAre, V.Consecutive;
    J.StepKeeps(setup.journal, s.journal, a);
    StorageQuiet(setup.journal, s.journal, a);
  }

  lemma {:induction false} StorageQuiet(setup: J.Setup, j: J.Journal, a: J.Action)
    requires !a.Enqueue? && !a.Close?
    ensures J.Do(setup, j, a).enqueued == j.enqueued && J.Do(setup, j, a).closed == j.closed
  {
    hide F.EncodeRecord;
  }

  lemma {:induction false} StopKeeps(setup: EngineSetup, start: GatewayState, s: System)
    requires SystemInv(setup, start, s)
    ensures SystemInv(setup, start, Stop(s))
  {
    hide SoundGateway, J.Inv, Replay, RecordsAre, V.Consecutive;
    CloseKeeps(setup.journal, s.journal);
    SameRun(setup, start, s, s.engine.(open := false));
    hide Published;
  }

  /** One step of any thread keeps the invariant, and no internal error is ever answered. */
  lemma {:induction false} NextKeeps(setup: EngineSetup, start: GatewayState, s: System, m: SystemMove)
    requires SystemInv(setup, start, s)
    ensures SystemInv(setup, start, Next(setup, s, m).next) && Expected(Next(setup, s, m).answer)
  {
    hide SystemInv, Admit, AppendRecord, ApplyCommand, J.Do, SoundGateway;
    InvSound(setup, start, s);
    match m
    case Submit(c) =>
      if s.engine.stage.Ready? {
        AdmitKeeps(setup, start, s, c);
      }
    case Append =>
      if s.engine.stage.Admitted? {
        AppendKeeps(setup, start, s);
      }
    case Apply =>
      if s.engine.stage.Journaled? {
        ApplyKeeps(setup, start, s);
      }
    case StopAdmission => StopKeeps(setup, start, s);
    case Consume =>
      if s.engine.queued != [] {
        ConsumeKeeps(setup, start, s);
      }
    case Storage(a) =>
      if !a.Enqueue? && !a.Close? {
        StorageKeeps(setup, start, s, a);
      }
  }

  lemma {:induction false} InvSound(setup: EngineSetup, start: GatewayState, s: System)
    requires SystemInv(setup, start, s)
    ensures ValidSetup(setup) && SoundGateway(setup.cfg, start) && SoundGateway(setup.cfg, s.engine.gateway)
  {
    hide SoundGateway;
  }

  // Every run.

  ghost function Run(setup: EngineSetup, start: GatewayState, s: System, moves: seq<SystemMove>): (t: System)
    requires SystemInv(setup, start, s)
    ensures SystemInv(setup, start, t)
    decreases |moves|
  {
    hide SystemInv, Next;
    if moves == [] then s
    else
      NextKeeps(setup, start, s, moves[0]);
      InvSound(setup, start, s);
      Run(setup, start, Next(setup, s, moves[0]).next, moves[1..])
  }

  /** A refused call leaves gateway, journal, sink and events exactly as they were. */
  lemma {:induction false} RefusalChangesNothing(setup: EngineSetup, start: GatewayState, s: System, m: SystemMove)
    requires SystemInv(setup, start, s)
    requires SoundGateway(setup.cfg, s.engine.gateway)
    requires Next(setup, s, m).answer.Some? && Next(setup, s, m).answer.value.Some?
    ensures var t := Next(setup, s, m).next;
            && t.engine.gateway == s.engine.gateway && t.engine.applied == s.engine.applied
            && t.engine.delivered == s.engine.delivered && t.engine.queued == s.engine.queued
            && t.journal == s.journal.(closed := t.journal.closed)
  {
    hide SystemInv, SoundGateway, J.Do, ApplyCommand, W.EncodeCommand;
    NextKeeps(setup, start, s, m);
    if m.Apply? && s.engine.stage.Journaled? {
      ApplyKeeps(setup, start, s);
    }
  }

  /** What a caller's step does to the stage and to the applied commands: only a completed
      call applies one, and it is the command in flight. */
  lemma {:induction false} CallerStep(setup: EngineSetup, start: GatewayState, s: System, m: SystemMove)
    requires SystemInv(setup, start, s) && ValidSetup(setup) && SoundGateway(setup.cfg, s.engine.gateway)
    requires (m.Submit? && s.engine.stage.Ready?) || (m.Append? && s.engine.stage.Admitted?) || (m.Apply? && s.engine.stage.Journaled?)
    ensures var o := Next(setup, s, m);
            && (o.answer.Some? <==> o.next.engine.stage.Ready?)
            && (o.answer == Some(None) <==> m.Apply?)
            && (m.Apply? ==> o.next.engine.applied == s.engine.applied + [s.engine.stage.command])
            && (!m.Apply? ==> o.next.engine.applied == s.engine.applied)
            && (Unhealthy(s) ==> Unhealthy(o.next))
  {
    hide SystemInv, SoundGateway, J.Do, W.EncodeCommand, PublicationOf, Advance;
    if m.Append? {
      PoisonStays(setup.journal, s.journal, J.Enqueue(W.EncodeCommand(s.engine.stage.command)));
    }
    if m.Apply? {
      ApplyKeeps(setup, start, s);
    }
  }

  /** No step of another thread touches a call, what was applied, or a failure. */
  lemma {:induction false} BackgroundStep(setup: EngineSetup, s: System, m: SystemMove)
    requires ValidSetup(setup) && SoundGateway(setup.cfg, s.engine.gateway)
    requires m.Consume? || m.Storage? || m.StopAdmission?
    ensures var t := Next(setup, s, m).next;
            && t.engine.stage == s.engine.stage && t.engine.applied == s.engine.applied
            && (Unhealthy(s) ==> Unhealthy(t))
  {
    hide SoundGateway, J.Do, ApplyCommand, Admit, AppendRecord;
    if m.Storage? {
      PoisonStays(setup.journal, s.journal, m.action);
    }
  }

  /** Failed or poisoned: what health reports as failed. */
  predicate Unhealthy(s: System) {
    s.engine.failed || s.journal.poisoned
  }

  lemma {:induction false} PoisonStays(setup: J.Setup, j: J.Journal, a: J.Action)
    ensures j.poisoned ==> J.Do(setup, j, a).poisoned
  {
    hide F.EncodeRecord, F.NewRecord, F.Checksum, F.Verified;
  }

  lemma {:induction false} JournalSnoc(crc: V.Crc, commands: seq<Command>, c: Command)
    ensures V.JournalOf(crc, commands + [c]) == V.JournalOf(crc, commands) + V.RecordOf(crc, c)
  {
    hide V.RecordOf;
    if commands == [] {
      assert [c][1..] == [] && commands + [c] == [c];
      assert V.JournalOf(crc, [c]) == V.RecordOf(crc, c) + [];
    } else {
      assert (commands + [c])[1..] == commands[1..] + [c];
      JournalSnoc(crc, commands[1..], c);
    }
  }

  /** The frames of lockstep records are the journal of their commands. */
  lemma {:induction false} FramesAreJournal(crc: V.Crc, first: nat, records: seq<F.Record>, commands: seq<Command>)
    requires RecordsAre(first, records, commands) && V.Consecutive(commands, first)
    ensures J.Frames(crc, records) == V.JournalOf(crc, commands)
    decreases |records|
  {
    hide F.EncodeRecord, V.RecordOf, RecordsAre, V.Consecutive;
    SameCount(first, records, commands);
    if records == [] {
      assert commands == [];
    } else {
      var n := |records| - 1;
      FrontRecords(first, records, commands);
      FramesAreJournal(crc, first, records[..n], commands[..n]);
      LastRecord(crc, first, records, commands);
      assert commands == commands[..n] + [commands[n]];
      hide V.JournalOf;
      JournalSnoc(crc, commands[..n], commands[n]);
    }
  }

  lemma {:induction false} SameCount(first: nat, records: seq<F.Record>, commands: seq<Command>)
    requires RecordsAre(first, records, commands)
    ensures |records| == |commands|
  {
  }

  lemma {:induction false} FrontRecords(first: nat, records: seq<F.Record>, commands: seq<Command>)
    requires RecordsAre(first, records, commands) && V.Consecutive(commands, first) && records != []
    ensures var n := |records| - 1;
            n < |commands| && RecordsAre(first, records[..n], commands[..n]) && V.Consecutive(commands[..n], first)
  {
    hide RecordFor;
  }

  lemma {:induction false} LastRecord(crc: V.Crc, first: nat, records: seq<F.Record>, commands: seq<Command>)
    requires RecordsAre(first, records, commands) && V.Consecutive(commands, first) && records != []
    ensures |records| == |commands| && F.EncodeRecord(crc, records[|records| - 1]) == V.RecordOf(crc, commands[|records| - 1])
  {
    hide F.EncodeRecord, W.EncodeCommand, F.NewRecord;
    var n := |records| - 1;
    assert records[n] == RecordFor(first + n, commands[n]);
  }

  /** Once shutdown is complete and no call is in flight both watermarks stand exactly at
      the gateway's expected sequence: a checkpoint never sees a mismatch. */
  lemma {:induction false} WatermarksMeet(setup: EngineSetup, start: GatewayState, s: System)
    requires SystemInv(setup, start, s) && s.journal.complete && s.engine.stage.Ready?
    ensures s.journal.nextWritten == s.journal.nextDurable == s.engine.gateway.expected
    ensures !s.engine.open && !s.journal.poisoned
  {
    hide SoundGateway, Replay, Published, V.Consecutive, J.SinkIs, J.Seen;
  }

  /** When a checkpoint may be taken: admission closed, shutdown complete, watermarks met. */
  predicate CanSnapshot(s: System) {
    && !s.engine.failed && !s.journal.poisoned && !s.engine.open && s.engine.stage.Ready? && s.journal.complete
    && s.journal.nextWritten == s.engine.gateway.expected == s.journal.nextDurable
  }

  /** Durable checkpoint: the sink holds, flushed, exactly the journal of every command
      applied since the build, and the gateway is their replay. */
  lemma {:induction false} DurableCheckpoint(setup: EngineSetup, start: GatewayState, s: System)
    requires SystemInv(setup, start, s) && CanSnapshot(s)
    ensures s.journal.sink == V.JournalOf(setup.journal.crc, s.engine.applied) && s.journal.flushed == |s.journal.sink|
    ensures s.engine.gateway == Replay(setup.cfg, start, s.engine.applied, setup.reports)
    ensures s.engine.gateway.expected == start.expected + |s.engine.applied|
  {
    hide SoundGateway, Replay, Published, J.Frames, V.JournalOf, J.Seen, RecordsAre, V.Consecutive, F.EncodeRecord;
    FramesAreJournal(setup.journal.crc, setup.journal.first, s.journal.enqueued, s.engine.applied);
    assert s.journal.enqueued[..|s.journal.enqueued|] == s.journal.enqueued;
  }

  /** Whatever the sink holds at any moment, in any interleaving: each whole-record prefix
      of it replays to the state the gateway had after that many commands. */
  lemma {:induction false} PrefixReplays(setup: EngineSetup, start: GatewayState, s: System, k: nat)
    requires SystemInv(setup, start, s) && SoundGateway(setup.cfg, start)
    requires k <= |s.engine.applied| && F.RECORD_SIZE * k <= |s.journal.sink|
    ensures V.Whole(s.journal.sink[..F.RECORD_SIZE * k])
    ensures V.RecoverTail(setup.cfg, start, s.journal.sink[..F.RECORD_SIZE * k], 0, start.expected, setup.reports, setup.journal.crc)
            == Ok(Replay(setup.cfg, start, s.engine.applied[..k], setup.reports))
  {
    hide SystemInv, SoundGateway, Replay, V.RecoverTail, V.JournalOf, J.Frames, V.Whole, V.Consecutive, RecordsAre, J.Inv;
    PrefixRecords(setup, start, s, k);
    var records, commands := s.journal.enqueued[..k], s.engine.applied[..k];
    FramesAreJournal(setup.journal.crc, setup.journal.first, records, commands);
    J.FramesSize(setup.journal.crc, records);
    J.FramesPrefix(setup.journal.crc, s.journal.enqueued, k);
    SinkPrefix(setup, s);
    SamePrefix(s.journal.sink, J.Frames(setup.journal.crc, records), J.Frames(setup.journal.crc, s.journal.enqueued), F.RECORD_SIZE * k);
    V.JournalReplays(setup.cfg, start, commands, 0, setup.reports, setup.journal.crc);
  }

  lemma {:induction false} SamePrefix(a: B.Octets, b: B.Octets, c: B.Octets, n: nat)
    requires a <= c && b <= c && |b| == n <= |a|
    ensures a[..n] == b
  {
  }

  lemma {:induction false} SinkPrefix(setup: EngineSetup, s: System)
    requires J.Inv(setup.journal, s.journal)
    ensures s.journal.sink <= J.Frames(setup.journal.crc, s.journal.enqueued)
  {
    hide J.Frames, J.Seen, J.WorkerAt, J.Ordered;
  }

  lemma {:induction false} PrefixRecords(setup: EngineSetup, start: GatewayState, s: System, k: nat)
    requires SystemInv(setup, start, s) && k <= |s.engine.applied|
    ensures k <= |s.journal.enqueued| && J.Inv(setup.journal, s.journal)
    ensures RecordsAre(setup.journal.first, s.journal.enqueued[..k], s.engine.applied[..k])
    ensures V.Consecutive(s.engine.applied[..k], setup.journal.first) && setup.journal.first == start.expected
    ensures start.expected + k < U64_BOUND
  {
    hide SoundGateway, Replay, Published, J.Inv, RecordFor;
    var given := Given(s.engine);
    assert given[..k] == s.engine.applied[..k];
  }

  /** The whole story over every interleaving from a fresh build: answers are honest, the
      sink replays, and each applied command published exactly its own batch, in order. */
  lemma {:induction false} EngineSafety(setup: EngineSetup, start: GatewayState, moves: seq<SystemMove>, m: SystemMove)
    requires SoundGateway(setup.cfg, start) && ValidSetup(setup) && setup.journal.first == start.expected
    ensures SystemInv(setup, start, Boot(setup, start))
    ensures var s := Run(setup, start, Boot(setup, start), moves);
            && SoundGateway(setup.cfg, s.engine.gateway)
            && Expected(Next(setup, s, m).answer)
            && s.engine.gateway == Replay(setup.cfg, start, s.engine.applied, setup.reports)
            && (s.engine.stage.Ready? ==> J.NextSequence(setup.journal, s.journal) == s.engine.gateway.expected)
            && Published(setup, start, s.engine)
  {
    hide SystemInv, Next, Run;
    BootInv(setup, start);
    var s := Run(setup, start, Boot(setup, start), moves);
    RunInv(setup, start, Boot(setup, start), moves);
    InvParts(setup, start, s);
    NextKeeps(setup, start, s, m);
  }

  lemma {:induction false} RunInv(setup: EngineSetup, start: GatewayState, s: System, moves: seq<SystemMove>)
    requires SystemInv(setup, start, s)
    ensures SystemInv(setup, start, Run(setup, start, s, moves))
  {
  }

  lemma {:induction false} InvParts(setup: EngineSetup, start: GatewayState, s: System)
    requires SystemInv(setup, start, s)
    ensures SoundGateway(setup.cfg, start) && SoundGateway(setup.cfg, s.engine.gateway)
    ensures ValidSetup(setup) && Published(setup, start, s.engine)
    ensures s.engine.gateway == Replay(setup.cfg, start, s.engine.applied, setup.reports)
    ensures s.engine.stage.Ready? ==> J.NextSequence(setup.journal, s.journal) == s.engine.gateway.expected
  {
    hide SoundGateway, Published, J.Inv, Replay, V.Consecutive;
  }

  /** What reaches the consumer: batch `i` tells step `i` of the run field by field, its
      answer first, then its trades in fill order, then the tops if they moved. */
  lemma {:induction false} TradesInFillOrder(setup: EngineSetup, start: GatewayState, s: System, i: nat)
    requires SystemInv(setup, start, s) && i < |s.engine.applied|
    ensures SoundGateway(setup.cfg, start) && i < |s.engine.delivered + s.engine.queued|
    ensures Told(Replay(setup.cfg, start, s.engine.applied[..i], setup.reports).book, s.engine.applied[i],
                 Outcomes(setup.cfg, start, s.engine.applied, setup.reports)[i], (s.engine.delivered + s.engine.queued)[i])
  {
    hide SystemInv, SoundGateway, Replay, Outcomes, PublicationOf, BatchOf, Told;
    InvParts(setup, start, s);
    var g := Replay(setup.cfg, start, s.engine.applied[..i], setup.reports);
    OutcomeAt(setup.cfg, start, s.engine.applied, i, setup.reports);
    BatchTold(setup, g, s.engine.applied[i], (s.engine.delivered + s.engine.queued)[i]);
  }

  lemma {:induction false} OutcomeAt(cfg: Config, g: GatewayState, commands: seq<Command>, i: nat, room: nat)
    requires SoundGateway(cfg, g) && i < |commands|
    ensures Outcomes(cfg, g, commands, room)[i] == Advance(cfg, Replay(cfg, g, commands[..i], room), commands[i], room)
    decreases i
  {
    hide SoundGateway, Process, Advance;
    if i == 0 {
      assert commands[..0] == [];
    } else {
      assert commands[..i][1..] == commands[1..][..i - 1] && commands[..i][0] == commands[0];
      AdvancedSound(cfg, g, commands[0], room);
      OutcomeAt(cfg, Advance(cfg, g, commands[0], room).state, commands[1..], i - 1, room);
    }
  }

  lemma {:induction false} BatchTold(setup: EngineSetup, g: GatewayState, c: Command, batch: seq<Event>)
    requires SoundGateway(setup.cfg, g) && ValidSetup(setup) && BatchOf(setup, g, c, batch)
    ensures Told(g.book, c, Advance(setup.cfg, g, c, setup.reports), batch)
  {
    hide SoundGateway, TopsOf, WellFormed, Told;
    ReportsAreTrades(setup.cfg, g, c, setup.reports);
    PublishedAdmitted(setup.cfg, g, c, setup.reports, batch);
    PublicationTold(setup.cfg, g, c, setup.reports);
  }

  /** Only an admitted command publishes a batch. */
  lemma {:induction false} PublishedAdmitted(cfg: Config, g: GatewayState, c: Command, room: nat, batch: seq<Event>)
    requires SoundGateway(cfg, g) && K.StockedBook(g.book) && |Process(cfg, g, c, room).reports| <= MAX_REPORTS
    requires var s := Process(cfg, g, c, room);
             Publication(IdentityOf(c), c.SequenceOf(), TopsOf(g.book), TopsOf(s.state.book), s.reports, s.result) == Ok(batch)
    ensures SequenceDefect(g, c.SequenceOf()).None?
  {
    hide SoundGateway, TopsOf, AcceptedBatch, ProcessNew, ProcessCancel, ProcessReplace, K.Stocked;
  }
}
