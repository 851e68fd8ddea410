/** What the engine lets happen: when a call applies its command, what it is told
    otherwise, and that a checkpoint can always be reached. */
module EngineRules {
  import opened Types
  import opened Decisions
  import opened GatewaySpec
  import opened GatewayLaws
  import opened GatewayRuns
  import opened Events
  import opened EventRules
  import opened Engines
  import J = Journals
  import N = JournalRules
  import W = Wire

  /** All that the engine asks of a command, through admission, publication queue and
      journal ring. */
  function CallClauses(setup: EngineSetup, s: System, c: Command): seq<Clause<EngineError>> {
    var expected := s.engine.gateway.expected;
    [Clause(!s.engine.failed, EngineFailed),
     Clause(!s.journal.poisoned, PersistenceFailed),
     Clause(s.engine.open, EngineStopped),
     Clause(c.InstrumentOf() == setup.cfg.instrument, UnknownInstrument(c.InstrumentOf())),
     Clause(c.SequenceOf() == expected, Admission(GatewayBroken(SequenceGap(expected, c.SequenceOf()))))]
    + [Clause(expected + 1 < U64_BOUND, Admission(GatewayBroken(RiskStateBroken(ArithmeticOverflow)))),
       Clause(|s.engine.queued| < setup.queue, Admission(Backpressured)),
       Clause(|s.journal.enqueued| < s.journal.popped + J.RING_CAPACITY, JournalRefused(J.Saturated))]
  }

  /** One call without interruption: admission, journal, apply, until it is answered. */
  ghost function EngineCall(setup: EngineSetup, start: GatewayState, s: System, c: Command): Outcome
    requires SystemInv(setup, start, s)
  {
    hide SystemInv, Next;
    InvSound(setup, start, s);
    NextKeeps(setup, start, s, Submit(c));
    var admitted := Next(setup, s, Submit(c));
    if admitted.answer.Some? then admitted
    else
      InvSound(setup, start, admitted.next);
      NextKeeps(setup, start, admitted.next, Append);
      var journaled := Next(setup, admitted.next, Append);
      if journaled.answer.Some? then journaled
      else
        InvSound(setup, start, journaled.next);
        Next(setup, journaled.next, Apply)
  }

  /** What an applied command leaves behind: the gateway's own step, one record holding the
      command's frame, one batch telling the step; everything else as it was. */
  ghost predicate AppliedOne(setup: EngineSetup, s: System, c: Command, t: System)
    requires SoundGateway(setup.cfg, s.engine.gateway)
  {
    var step := Advance(setup.cfg, s.engine.gateway, c, setup.reports);
    var n := |s.engine.queued|;
    && t.engine.gateway == step.state && t.engine.applied == s.engine.applied + [c]
    && t.engine.open && !t.engine.failed && t.engine.stage == Ready && t.engine.delivered == s.engine.delivered
    && |t.engine.queued| == n + 1 && t.engine.queued[..n] == s.engine.queued
    && Told(s.engine.gateway.book, c, step, t.engine.queued[n])
    && |t.journal.enqueued| == |s.journal.enqueued| + 1 && t.journal.enqueued[..|s.journal.enqueued|] == s.journal.enqueued
    && var r := t.journal.enqueued[|s.journal.enqueued|];
    && r.sequence == s.engine.gateway.expected && r.Valid() && r.Slice() == W.EncodeCommand(c)
    && t.journal == s.journal.(enqueued := t.journal.enqueued, checksums := t.journal.checksums)
  }

  lemma {:induction false} CallVerdict(setup: EngineSetup, s: System, c: Command)
    ensures Verdict(CallClauses(setup, s, c)) ==
            if s.engine.failed then Some(EngineFailed)
            else if s.journal.poisoned then Some(PersistenceFailed)
            else if !s.engine.open then Some(EngineStopped)
            else if c.InstrumentOf() != setup.cfg.instrument then Some(UnknownInstrument(c.InstrumentOf()))
            else if SequenceDefect(s.engine.gateway, c.SequenceOf()).Some?
            then Some(Admission(GatewayBroken(SequenceDefect(s.engine.gateway, c.SequenceOf()).value)))
            else if |s.engine.queued| >= setup.queue then Some(Admission(Backpressured))
            else if |s.journal.enqueued| - s.journal.popped >= J.RING_CAPACITY then Some(JournalRefused(J.Saturated)) else None
  {
    hide Verdict;
    var c1 := CallClauses(setup, s, c);
    FiveClauses(c1[0], c1[1], c1[2], c1[3], c1[4]);
    ThreeClauses(c1[5], c1[6], c1[7]);
    VerdictThen([c1[0], c1[1], c1[2], c1[3], c1[4]], [c1[5], c1[6], c1[7]]);
    assert c1 == [c1[0], c1[1], c1[2], c1[3], c1[4]] + [c1[5], c1[6], c1[7]];
  }

  lemma {:induction false} AppendIs(setup: EngineSetup, start: GatewayState, s: System, c: Command)
    requires SystemInv(setup, start, s) && s.engine.stage == Admitted(c)
    ensures AppendRecord(setup, s, c).answer.Some? <==> |s.journal.enqueued| - s.journal.popped >= J.RING_CAPACITY
    ensures AppendRecord(setup, s, c).answer.Some? ==>
              AppendRecord(setup, s, c).answer == Some(Some(JournalRefused(J.Saturated)))
    ensures AppendRecord(setup, s, c).answer.None? ==>
              var t := AppendRecord(setup, s, c).next;
              && t.engine == s.engine.(stage := Journaled(c))
              && |t.journal.enqueued| == |s.journal.enqueued| + 1 && t.journal.enqueued[..|s.journal.enqueued|] == s.journal.enqueued
              && var r := t.journal.enqueued[|s.journal.enqueued|];
              && r.sequence == s.engine.gateway.expected && r.Valid() && r.Slice() == W.EncodeCommand(c)
              && t.journal == s.journal.(enqueued := t.journal.enqueued, checksums := t.journal.checksums)
  {
    hide SystemInv, W.EncodeCommand, J.Do, AllHold, Verdict;
    W.FrameLength(c);
    InStep(setup, start, s);
    AdmittedClear(setup, start, s);
    N.EnqueueDecided(setup.journal, s.journal, W.EncodeCommand(c));
    VerdictIff(N.FrameClauses(setup.journal, s.journal, W.EncodeCommand(c)));
  }

  lemma {:induction false} ApplyIs(setup: EngineSetup, start: GatewayState, s: System, c: Command)
    requires SystemInv(setup, start, s) && s.engine.stage == Journaled(c)
    ensures SoundGateway(setup.cfg, s.engine.gateway) && ValidSetup(setup)
    ensures ApplyCommand(setup, s, c).answer == Some(None)
    ensures var t := ApplyCommand(setup, s, c).next;
            var step := Advance(setup.cfg, s.engine.gateway, c, setup.reports);
            var n := |s.engine.queued|;
            && t.journal == s.journal && |t.engine.queued| == n + 1 && t.engine.queued[..n] == s.engine.queued
            && t.engine == s.engine.(gateway := step.state, applied := s.engine.applied + [c], queued := t.engine.queued, stage := Ready)
            && Told(s.engine.gateway.book, c, step, t.engine.queued[n])
  {
    hide SystemInv, SoundGateway, PublicationOf, Advance, Told;
    InvSound(setup, start, s);
    ApplyKeeps(setup, start, s);
    AdmittedClear(setup, start, s);
    ApplyPublishes(setup, s.engine.gateway, c);
    BatchTold(setup, s.engine.gateway, c, PublicationOf(setup, s.engine.gateway, c).value);
  }

  /** Which refusals end the engine: lost persistence and an exhausted counter. */
  predicate Fatal(e: EngineError) {
    e == PersistenceFailed || e == Admission(GatewayBroken(RiskStateBroken(ArithmeticOverflow)))
  }

  /** What a refused call leaves behind: nothing but a closed engine, if the refusal is fatal. */
  predicate RefusedOnly(s: System, e: EngineError, t: System) {
    && t.engine == s.engine.(open := t.engine.open, failed := t.engine.failed)
    && t.journal == s.journal.(closed := t.journal.closed)
    && (t.engine.failed <==> s.engine.failed || Fatal(e))
    && (Fatal(e) ==> !t.engine.open && t.journal.closed)
    && (!Fatal(e) ==> t.engine.open == s.engine.open && t.journal.closed == s.journal.closed)
  }

  lemma {:induction false} AdmitIs(setup: EngineSetup, start: GatewayState, s: System, c: Command)
    requires SystemInv(setup, start, s) && s.engine.stage.Ready?
    ensures match Admit(setup, s, c).answer
            case None =>
              && Admit(setup, s, c).next == s.(engine := s.engine.(stage := Admitted(c)))
              && !s.engine.failed && !s.journal.poisoned && s.engine.open && c.InstrumentOf() == setup.cfg.instrument
              && SequenceDefect(s.engine.gateway, c.SequenceOf()).None? && |s.engine.queued| < setup.queue
            case Some(None) => false
            case Some(Some(e)) => Verdict(CallClauses(setup, s, c)) == Some(e) && RefusedOnly(s, e, Admit(setup, s, c).next)
  {
    hide SystemInv, CallClauses, Verdict;
    InStep(setup, start, s);
    CallVerdict(setup, s, c);
  }

  /** A call applies its command if and only if every clause holds; otherwise it answers the
      refusal of the first that fails and leaves everything as it was. */
  lemma {:induction false} CallDecided(setup: EngineSetup, start: GatewayState, s: System, c: Command)
    requires SystemInv(setup, start, s) && s.engine.stage.Ready?
    ensures SoundGateway(setup.cfg, s.engine.gateway)
    ensures var o := EngineCall(setup, start, s, c);
            match o.answer
            case None => false
            case Some(None) => AllHold(CallClauses(setup, s, c)) && AppliedOne(setup, s, c, o.next)
            case Some(Some(e)) => Verdict(CallClauses(setup, s, c)) == Some(e) && RefusedOnly(s, e, o.next)
  {
    hide SystemInv, SoundGateway, Admit, AppendRecord, ApplyCommand, CallClauses, Verdict, AllHold, Advance, Told, J.Do, RefusedOnly, W.EncodeCommand;
    InvSound(setup, start, s);
    AdmitIs(setup, start, s, c);
    CallVerdict(setup, s, c);
    VerdictIff(CallClauses(setup, s, c));
    NextKeeps(setup, start, s, Submit(c));
    var a := Next(setup, s, Submit(c));
    if a.answer.None? {
      InvSound(setup, start, a.next);
      AppendIs(setup, start, a.next, c);
      NextKeeps(setup, start, a.next, Append);
      var j := Next(setup, a.next, Append);
      if j.answer.None? {
        InvSound(setup, start, j.next);
        ApplyIs(setup, start, j.next, c);
        AppliedTogether(setup, s, c, j.next, Next(setup, j.next, Apply).next);
      } else {
        FullRing(setup, s, c);
      }
    }
  }

  lemma {:induction false} FullRing(setup: EngineSetup, s: System, c: Command)
    requires s.engine.stage.Ready?
    ensures AppendRecord(setup, s.(engine := s.engine.(stage := Admitted(c))), c).answer.Some? ==>
              var e := AppendRecord(setup, s.(engine := s.engine.(stage := Admitted(c))), c).answer.value;
              && AppendRecord(setup, s.(engine := s.engine.(stage := Admitted(c))), c).next == s
              && RefusedOnly(s, JournalRefused(J.Saturated), s)
  {
    hide J.Do, W.EncodeCommand;
  }

  lemma {:induction false} AppliedTogether(setup: EngineSetup, s: System, c: Command, j: System, t: System)
    requires SoundGateway(setup.cfg, s.engine.gateway)
    requires j.engine == s.engine.(stage := Journaled(c)) && s.engine.open && !s.engine.failed
    requires |j.journal.enqueued| == |s.journal.enqueued| + 1 && j.journal.enqueued[..|s.journal.enqueued|] == s.journal.enqueued
    requires var r := j.journal.enqueued[|s.journal.enqueued|];
             && r.sequence == s.engine.gateway.expected && r.Valid() && r.Slice() == W.EncodeCommand(c)
             && j.journal == s.journal.(enqueued := j.journal.enqueued, checksums := j.journal.checksums)
    requires var step := Advance(setup.cfg, s.engine.gateway, c, setup.reports);
             var n := |s.engine.queued|;
             && t.journal == j.journal && |t.engine.queued| == n + 1 && t.engine.queued[..n] == s.engine.queued
             && t.engine == j.engine.(gateway := step.state, applied := s.engine.applied + [c], queued := t.engine.queued, stage := Ready)
             && Told(s.engine.gateway.book, c, step, t.engine.queued[n])
    ensures AppliedOne(setup, s, c, t)
  {
    hide SoundGateway, Advance, Told, W.EncodeCommand;
  }

  // Checkpoints.

  /** The worker's steps as moves of the system. */
  function Moves(actions: seq<J.Action>): (m: seq<SystemMove>)
    ensures |m| == |actions|
  {
    if actions == [] then [] else [Storage(actions[0])] + Moves(actions[1..])
  }

  /** Worker steps move the journal alone. */
  lemma {:induction false} StorageRun(setup: EngineSetup, start: GatewayState, s: System, actions: seq<J.Action>)
    requires SystemInv(setup, start, s) && forall i :: 0 <= i < |actions| ==> N.Cooperative(actions[i])
    ensures Run(setup, start, s, Moves(actions)) == s.(journal := J.Exec(setup.journal, s.journal, actions))
    decreases |actions|
  {
    hide SystemInv, J.Do, SoundGateway, ApplyCommand, Admit, AppendRecord, N.Cooperative;
    if actions != [] {
      InvSound(setup, start, s);
      NextKeeps(setup, start, s, Storage(actions[0]));
      assert Moves(actions)[1..] == Moves(actions[1..]);
      StorageOnly(actions[0]);
      StorageRun(setup, start, Next(setup, s, Storage(actions[0])).next, actions[1..]);
    }
  }

  lemma {:induction false} StorageOnly(a: J.Action)
    requires N.Cooperative(a)
    ensures !a.Enqueue? && !a.Close?
  {
  }

  datatype CheckpointError = CheckpointFailed | AdmissionOpen | PersistencePending | WatermarkInvariant

  /** Why a checkpoint is refused between calls. */
  function CheckpointRefusal(s: System): Option<CheckpointError> {
    if s.engine.failed || s.journal.poisoned then Some(CheckpointFailed)
    else if s.engine.open then Some(AdmissionOpen)
    else if !s.journal.complete then Some(PersistencePending)
    else if s.journal.nextWritten != s.engine.gateway.expected || s.journal.nextDurable != s.engine.gateway.expected
    then Some(WatermarkInvariant)
    else None
  }

  /** All that a checkpoint asks; that the watermarks meet is never in question. */
  function CheckpointClauses(s: System): seq<Clause<CheckpointError>> {
    [Clause(!s.engine.failed && !s.journal.poisoned, CheckpointFailed),
     Clause(!s.engine.open, AdmissionOpen),
     Clause(s.journal.complete, PersistencePending)]
  }

  /** A checkpoint may be taken if and only if its clauses hold, and is refused with the
      first that fails; the watermark error cannot occur. */
  lemma {:induction false} CheckpointDecided(setup: EngineSetup, start: GatewayState, s: System)
    requires SystemInv(setup, start, s) && s.engine.stage.Ready?
    ensures CheckpointRefusal(s) == Verdict(CheckpointClauses(s))
    ensures CanSnapshot(s) <==> AllHold(CheckpointClauses(s))
  {
    hide SystemInv, Verdict, AllHold;
    var c := CheckpointClauses(s);
    ThreeClauses(c[0], c[1], c[2]);
    VerdictIff(c);
    if s.journal.complete {
      WatermarksMeet(setup, start, s);
    }
  }

  /** Between calls of a healthy engine a checkpoint can be reached, without another
      command: admission closes, the worker drains and flushes, and the watermarks meet. */
  lemma {:induction false} CheckpointReachable(setup: EngineSetup, start: GatewayState, s: System) returns (moves: seq<SystemMove>)
    requires SystemInv(setup, start, s) && s.engine.stage.Ready? && !s.engine.failed && !s.journal.poisoned
    ensures forall i :: 0 <= i < |moves| ==> moves[i].StopAdmission? || (moves[i].Storage? && N.Cooperative(moves[i].action))
    ensures var t := Run(setup, start, s, moves);
            && CanSnapshot(t) && t.engine.gateway == s.engine.gateway && t.engine.applied == s.engine.applied
            && t.journal.enqueued == s.journal.enqueued
  {
    hide SystemInv, SoundGateway, J.Do, J.Exec, J.Inv, N.WorkerDone, N.Cooperative;
    InvSound(setup, start, s);
    NextKeeps(setup, start, s, StopAdmission);
    var stopped := Next(setup, s, StopAdmission).next;
    SystemParts(setup, start, stopped);
    var actions := N.CanFinish(setup.journal, stopped.journal);
    StorageRun(setup, start, stopped, actions);
    moves := [StopAdmission] + Moves(actions);
    assert moves[1..] == Moves(actions);
    MovesAre(actions);
    var t := Run(setup, start, s, moves);
    assert t == Run(setup, start, stopped, Moves(actions));
    WatermarksMeet(setup, start, t);
  }

  lemma {:induction false} MovesAre(actions: seq<J.Action>)
    requires forall i :: 0 <= i < |actions| ==> N.Cooperative(actions[i])
    ensures forall i :: 0 <= i < |Moves(actions)| ==> Moves(actions)[i].Storage? && N.Cooperative(Moves(actions)[i].action)
  {
    hide N.Cooperative;
    if actions != [] {
      MovesAre(actions[1..]);
    }
  }

  lemma {:induction false} SystemParts(setup: EngineSetup, start: GatewayState, s: System)
    requires SystemInv(setup, start, s)
    ensures J.Inv(setup.journal, s.journal) && setup.journal.batch > 0
  {
    hide SoundGateway, J.Inv, Lockstep, Staged, Published;
  }
}
