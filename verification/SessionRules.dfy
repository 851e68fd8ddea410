/** What the session front end lets happen: when a command is applied, on which shard, what
    the session becomes, and what the caller is told otherwise. */
module SessionRules {
  import opened Types
  import opened Decisions
  import opened GatewayLaws
  import opened Routers
  import opened Sessions
  import opened SessionEngines
  import E = Engines
  import Q = EngineRules

  /** How many steps a call may still take. */
  function StepsLeft(f: Floor, d: Desk): nat {
    match d.call
    case Idle => 0
    case Checking(checked, _, _, _) => if checked < |f.table.byInstrument| then 5 + |f.table.byInstrument| - checked else 5
    case Running(k, _) => if k < |d.shards| && d.shards[k].engine.stage.Admitted? then 4 else 3
    case Refused(_, _) => 1
  }

  /** The call goes on without interruption until it is answered. */
  ghost function Drive(f: Floor, d: Desk, steps: nat): DeskOutcome
    requires DeskInv(f, d)
    decreases steps
  {
    hide DeskInv, Next;
    NextKeeps(f, d, Continue);
    DeskSound(f, d);
    var o := Next(f, d, Continue);
    if o.answer.Some? || steps == 0 then o else Drive(f, o.next, steps - 1)
  }

  lemma {:induction false} DriveStep(f: Floor, d: Desk, steps: nat)
    requires DeskInv(f, d)
    ensures Sound(f, d) && DeskInv(f, Next(f, d, Continue).next)
    ensures var o := Next(f, d, Continue);
            Drive(f, d, steps) == if o.answer.Some? || steps == 0 then o else Drive(f, o.next, steps - 1)
  {
    hide DeskInv, Next, Sound;
    NextKeeps(f, d, Continue);
    DeskSound(f, d);
  }

  lemma {:induction false} DeskSound(f: Floor, d: Desk)
    requires DeskInv(f, d)
    ensures Sound(f, d)
  {
    hide Sound, OneInFlight, CounterAgrees, SessionStaged;
  }

  /** One call of the front end. */
  ghost function DeskCall(f: Floor, d: Desk, sequence: Sequence, command: Command, now: U64): DeskOutcome
    requires DeskInv(f, d) && d.call.Idle?
  {
    hide DeskInv;
    Starts(f, d, sequence, command, now);
    var e := d.(call := Checking(0, sequence, command, now));
    Drive(f, e, StepsLeft(f, e))
  }

  lemma {:induction false} Starts(f: Floor, d: Desk, sequence: Sequence, command: Command, now: U64)
    requires DeskInv(f, d) && d.call.Idle?
    ensures DeskInv(f, d.(call := Checking(0, sequence, command, now)))
  {
    hide DeskInv;
    IdleKeeps(f, d);
  }

  predicate Healthy(s: E.System) {
    !s.engine.failed && !s.journal.poisoned
  }

  /** Route `i` is the first whose shard is not healthy; all are if `i` is past the end. */
  predicate FirstUnhealthy(f: Floor, d: Desk, i: nat) {
    && i <= |f.table.byInstrument|
    && (forall j :: 0 <= j < i ==> f.table.byInstrument[j].shard < |d.shards| && Healthy(d.shards[f.table.byInstrument[j].shard]))
    && (i < |f.table.byInstrument| ==> f.table.byInstrument[i].shard < |d.shards| && !Healthy(d.shards[f.table.byInstrument[i].shard]))
  }

  lemma {:induction false} SomeFirst(f: Floor, d: Desk, from: nat) returns (i: nat)
    requires Sound(f, d) && from <= |f.table.byInstrument|
    requires forall j :: 0 <= j < from ==> f.table.byInstrument[j].shard < |d.shards| && Healthy(d.shards[f.table.byInstrument[j].shard])
    ensures FirstUnhealthy(f, d, i)
    decreases |f.table.byInstrument| - from
  {
    hide Sound;
    ShardsRouted(f, d);
    if from == |f.table.byInstrument| || !Healthy(d.shards[f.table.byInstrument[from].shard]) {
      i := from;
    } else {
      i := SomeFirst(f, d, from + 1);
    }
  }

  lemma {:induction false} ShardsRouted(f: Floor, d: Desk)
    requires Sound(f, d)
    ensures |f.table.byInstrument| == |d.shards| && IsTable(f.table, f.routes)
    ensures forall j :: 0 <= j < |f.table.byInstrument| ==> f.table.byInstrument[j].shard < |d.shards|
  {
    hide SoundShard, ValidShard, Strict, Proper;
  }

  /** Steps 0 to `i` find healthy shards. */
  lemma {:induction false} Checks(f: Floor, d: Desk, i: nat, steps: nat)
    requires DeskInv(f, d) && d.call.Checking? && d.call.checked <= i && FirstUnhealthy(f, d, i) && steps >= i - d.call.checked
    ensures DeskInv(f, d.(call := d.call.(checked := i)))
    ensures Drive(f, d, steps) == Drive(f, d.(call := d.call.(checked := i)), steps - (i - d.call.checked))
    decreases i - d.call.checked
  {
    hide DeskInv, Drive, Next, Sound;
    if d.call.checked < i {
      DriveStep(f, d, steps);
      assert Healthy(d.shards[f.table.byInstrument[d.call.checked].shard]);
      ChecksOne(f, d);
      Checks(f, Next(f, d, Continue).next, i, steps - 1);
    }
  }

  lemma {:induction false} ChecksOne(f: Floor, d: Desk)
    requires Sound(f, d) && d.call.Checking? && d.call.checked < |f.table.byInstrument|
    requires f.table.byInstrument[d.call.checked].shard < |d.shards|
    ensures var k := f.table.byInstrument[d.call.checked].shard;
            Next(f, d, Continue) ==
              if Healthy(d.shards[k]) then DeskOutcome(d.(call := d.call.(checked := d.call.checked + 1)), None)
              else DeskOutcome(FailDesk(d), Some(Err(ShardError(k, E.PersistenceFailed))))
  {
    hide Sound, FailDesk, Admit, Handled;
  }

  // The shard's part.

  lemma {:induction false} ShardIs(f: Floor, d: Desk, k: nat, m: E.SystemMove)
    requires Sound(f, d) && k < |d.shards|
    ensures k < |f.setups| && k < |f.starts| && E.SystemInv(f.setups[k], f.starts[k], d.shards[k])
    ensures SoundGateway(f.setups[k].cfg, d.shards[k].engine.gateway) && E.ValidSetup(f.setups[k])
    ensures Shard(f, d, k, m) == E.Next(f.setups[k], d.shards[k], m)
  {
    hide ValidFloor, E.SystemInv, SoundGateway, E.Next;
    assert SoundShard(f, d.shards, k);
    E.InvSound(f.setups[k], f.starts[k], d.shards[k]);
  }

  lemma {:induction false} ReadyShard(f: Floor, d: Desk, k: nat)
    requires DeskInv(f, d) && k < |d.shards| && !d.call.Running?
    ensures d.shards[k].engine.stage.Ready?
  {
    hide Sound, CounterAgrees, SessionStaged;
  }

  /** What a call that reached shard `k` answers, from what the shard answered. */
  function ShardAnswer(d: Desk, k: nat, staged: Session, o: E.Outcome): DeskOutcome
    requires k < |d.shards|
  {
    var after := d.shards[k := o.next];
    match o.answer
    case Some(Some(e)) => AfterRefusal(Desk(d.session, after, Refused(k, e), d.mark), k, e)
    case _ => DeskOutcome(Desk(staged, after, Idle, d.mark), Some(Ok(Some(k))))
  }

  /** A refused call is answered by the next step. */
  lemma {:induction false} RefusedAnswers(f: Floor, d: Desk, steps: nat)
    requires DeskInv(f, d) && d.call.Refused?
    ensures Drive(f, d, steps) == AfterRefusal(d, d.call.shard, d.call.error)
  {
    hide DeskInv, Drive, Next, Sound;
    DriveStep(f, d, steps);
    RefusedNext(f, d);
  }

  lemma {:induction false} RefusedNext(f: Floor, d: Desk)
    requires Sound(f, d) && d.call.Refused?
    ensures Next(f, d, Continue) == AfterRefusal(d, d.call.shard, d.call.error) && Next(f, d, Continue).answer.Some?
  {
    hide Sound, FailDesk;
  }

  lemma {:induction false} RunningNext(f: Floor, d: Desk, k: nat, staged: Session)
    requires Sound(f, d) && d.call == Running(k, staged) && k < |d.shards|
    ensures Next(f, d, Continue) ==
            Continued(d, k, staged, Shard(f, d, k, if d.shards[k].engine.stage.Admitted? then E.Append else E.Apply))
  {
    hide Sound, Shard, Continued;
  }

  lemma {:induction false} ApplyAnswers(f: Floor, d: Desk, k: nat)
    requires Sound(f, d) && k < |d.shards| && d.shards[k].engine.stage.Journaled?
    ensures Shard(f, d, k, E.Apply).answer == Some(None)
  {
    hide Sound, Shard;
    CallStep(f, d, k, E.Apply);
  }

  lemma {:induction false} Applies(f: Floor, d: Desk, k: nat, staged: Session, steps: nat)
    requires DeskInv(f, d) && Sound(f, d) && d.call == Running(k, staged) && k < |d.shards| && d.shards[k].engine.stage.Journaled?
    ensures Drive(f, d, steps) == ShardAnswer(d, k, staged, Shard(f, d, k, E.Apply))
    ensures Shard(f, d, k, E.Apply).answer == Some(None)
  {
    hide DeskInv, Shard, AfterRefusal, Drive, Next, Sound;
    DriveStep(f, d, steps);
    RunningNext(f, d, k, staged);
    ApplyAnswers(f, d, k);
  }

  lemma {:induction false} Appends(f: Floor, d: Desk, k: nat, staged: Session, command: Command, steps: nat)
    requires DeskInv(f, d) && Sound(f, d) && d.call == Running(k, staged) && k < |d.shards|
    requires d.shards[k].engine.stage == E.Admitted(command) && steps >= 1
    ensures var o := Shard(f, d, k, E.Append);
            var e := d.(shards := d.shards[k := o.next]);
            match o.answer
            case Some(Some(error)) => Drive(f, d, steps) == ShardAnswer(d, k, staged, o)
            case Some(None) => false
            case None =>
              && o.next.engine.stage.Journaled? && DeskInv(f, e) && Sound(f, e)
              && Drive(f, d, steps) == ShardAnswer(e, k, staged, Shard(f, e, k, E.Apply))
              && Shard(f, e, k, E.Apply).answer == Some(None)
  {
    hide DeskInv, Shard, AfterRefusal, Drive, Next, Sound;
    DriveStep(f, d, steps);
    RunningNext(f, d, k, staged);
    AppendStage(f, d, k, command);
    var o := Next(f, d, Continue);
    if o.next.call.Refused? {
      RefusedAnswers(f, o.next, steps - 1);
    } else {
      DeskSound(f, o.next);
      Applies(f, o.next, k, staged, steps - 1);
    }
  }

  lemma {:induction false} AppendStage(f: Floor, d: Desk, k: nat, command: Command)
    requires Sound(f, d) && k < |d.shards| && d.shards[k].engine.stage == E.Admitted(command)
    ensures var o := Shard(f, d, k, E.Append);
            if o.answer.None? then o.next.engine.stage == E.Journaled(command) else o.answer.value.Some?
  {
    hide Sound, E.SystemInv, SoundGateway, E.AppendRecord, Shard;
    ShardIs(f, d, k, E.Append);
    Q.AppendIs(f.setups[k], f.starts[k], d.shards[k], command);
  }

  lemma {:induction false} AnswerAlike(d: Desk, e: Desk, k: nat, staged: Session, o: E.Outcome)
    requires k < |d.shards| == |e.shards| && e.shards == d.shards[k := e.shards[k]]
    requires e.session == d.session && e.mark == d.mark
    ensures ShardAnswer(e, k, staged, o) == ShardAnswer(d, k, staged, o)
  {
    hide AfterRefusal;
    assert e.shards[k := o.next] == d.shards[k := o.next];
  }

  lemma {:induction false} SubmitStage(f: Floor, d: Desk, k: nat, command: Command)
    requires Sound(f, d) && k < |d.shards| && d.shards[k].engine.stage.Ready?
    ensures var o := Shard(f, d, k, E.Submit(command));
            if o.answer.None? then o.next.engine.stage == E.Admitted(command) else o.answer.value.Some?
  {
    hide Sound, E.SystemInv, SoundGateway, E.Admit, Shard, Q.RefusedOnly, Q.CallClauses;
    ShardIs(f, d, k, E.Submit(command));
    Q.AdmitIs(f.setups[k], f.starts[k], d.shards[k], command);
  }

  /** The shard's own steps, taken through the front end, are one call of the engine. */
  lemma {:induction false} StepsAreCall(f: Floor, d: Desk, k: nat, command: Command)
    requires Sound(f, d) && k < |d.shards| && d.shards[k].engine.stage.Ready?
    ensures k < |f.setups| && k < |f.starts| && E.SystemInv(f.setups[k], f.starts[k], d.shards[k])
    ensures var a := Shard(f, d, k, E.Submit(command));
            var d1 := d.(shards := d.shards[k := a.next]);
            var call := Q.EngineCall(f.setups[k], f.starts[k], d.shards[k], command);
            if a.answer.Some? then call == a
            else Sound(f, d1) ==>
              var j := Shard(f, d1, k, E.Append);
              var d2 := d1.(shards := d1.shards[k := j.next]);
              if j.answer.Some? then call == j
              else Sound(f, d2) ==> call == Shard(f, d2, k, E.Apply)
  {
    hide Sound, E.SystemInv, SoundGateway, E.Next, Shard;
    ShardIs(f, d, k, E.Submit(command));
    var a := Shard(f, d, k, E.Submit(command));
    var d1 := d.(shards := d.shards[k := a.next]);
    if a.answer.None? && Sound(f, d1) {
      ShardIs(f, d1, k, E.Append);
      var j := Shard(f, d1, k, E.Append);
      var d2 := d1.(shards := d1.shards[k := j.next]);
      if j.answer.None? && Sound(f, d2) {
        ShardIs(f, d2, k, E.Apply);
      }
    }
  }

  /** From the shard's admission on, the call answers what the engine's call answers. */
  lemma {:induction false} ShardCall(f: Floor, d: Desk, k: nat, staged: Session, command: Command, steps: nat)
    requires DeskInv(f, d) && Sound(f, d) && !d.call.Running? && k < |d.shards| && steps >= 1
    requires d.session.AllowsCommands() && staged.state.Active? && SoundSession(staged) && staged.next == d.session.next + 1
    ensures k < |f.setups| && k < |f.starts| && E.SystemInv(f.setups[k], f.starts[k], d.shards[k])
    ensures var o := Continued(d, k, staged, Shard(f, d, k, E.Submit(command)));
            && o.answer.None? && DeskInv(f, o.next)
            && Drive(f, o.next, steps) == ShardAnswer(d, k, staged, Q.EngineCall(f.setups[k], f.starts[k], d.shards[k], command))
  {
    hide DeskInv, Shard, AfterRefusal, Drive, Sound, SoundSession, Q.EngineCall, ShardAnswer, E.SystemInv;
    ReadyShard(f, d, k);
    StepsAreCall(f, d, k, command);
    SubmitStage(f, d, k, command);
    SubmitKeeps(f, d, k, staged, command);
    var a := Shard(f, d, k, E.Submit(command));
    var o := Continued(d, k, staged, a);
    if o.next.call.Refused? {
      RefusedAnswers(f, o.next, steps);
      RefusedIs(d, k, staged, a);
    } else {
      var d1 := d.(shards := d.shards[k := a.next]);
      DeskSound(f, o.next);
      SameParts(f, o.next, d1);
      ShardAlike(f, d1, o.next, k, E.Append);
      Appends(f, o.next, k, staged, command, steps);
      var j := Shard(f, o.next, k, E.Append);
      if j.answer.Some? {
        AnswerAlike(d, o.next, k, staged, j);
      } else {
        var e := o.next.(shards := o.next.shards[k := j.next]);
        var d2 := d1.(shards := d1.shards[k := j.next]);
        SameParts(f, e, d2);
        ShardAlike(f, d2, e, k, E.Apply);
        AnswerAlike(d, e, k, staged, Shard(f, e, k, E.Apply));
      }
    }
  }

  lemma {:induction false} RefusedIs(d: Desk, k: nat, staged: Session, o: E.Outcome)
    requires k < |d.shards| && o.answer.Some? && o.answer.value.Some?
    ensures var e := Continued(d, k, staged, o).next;
            e.call.Refused? && AfterRefusal(e, e.call.shard, e.call.error) == ShardAnswer(d, k, staged, o)
  {
    hide AfterRefusal;
  }

  lemma {:induction false} ShardAlike(f: Floor, d: Desk, e: Desk, k: nat, m: E.SystemMove)
    requires Sound(f, d) && Sound(f, e) && k < |d.shards| && d.shards == e.shards
    ensures Shard(f, d, k, m) == Shard(f, e, k, m)
  {
    hide Sound, Shard, E.SystemInv, SoundGateway, E.Next;
    ShardIs(f, d, k, m);
    ShardIs(f, e, k, m);
  }

  lemma {:induction false} SubmitKeeps(f: Floor, d: Desk, k: nat, staged: Session, command: Command)
    requires DeskInv(f, d) && !d.call.Running? && k < |d.shards|
    requires d.session.AllowsCommands() && staged.state.Active? && SoundSession(staged) && staged.next == d.session.next + 1
    ensures Sound(f, d) && DeskInv(f, Continued(d, k, staged, Shard(f, d, k, E.Submit(command))).next)
  {
    hide Sound, SoundSession, AppliedOn, Shard, Continued;
    ContinuedKeeps(f, d, k, staged, E.Submit(command));
  }

  // The whole call.

  /** The session has failed and no shard admits anything any more; nothing was applied. */
  ghost predicate DeskHalted(d: Desk, e: Desk) {
    && e.session.state == Failed && e.session.next == 1 && e.session.deadline == None && e.session.timeouts == 0
    && e.call == Idle && |e.shards| == |d.shards|
    && forall j :: 0 <= j < |d.shards| ==>
         && !e.shards[j].engine.open && e.shards[j].journal.closed
         && e.shards[j].engine.gateway == d.shards[j].engine.gateway && e.shards[j].engine.applied == d.shards[j].engine.applied
  }

  /** The command was applied on shard `k` alone, and the session took its event. */
  ghost predicate CommandTaken(f: Floor, d: Desk, k: nat, sequence: Sequence, command: Command, now: U64, e: Desk)
    requires k < |f.setups| && k < |d.shards| && SoundGateway(f.setups[k].cfg, d.shards[k].engine.gateway)
  {
    && |e.shards| == |d.shards| && (forall j :: 0 <= j < |d.shards| && j != k ==> e.shards[j] == d.shards[j])
    && Q.AppliedOne(f.setups[k], d.shards[k], command, e.shards[k])
    && EventLeads(f.session, d.session, CommandReceived(sequence), now, e.session)
    && e.call == Idle && e.mark == d.mark
  }

  /** The shard's clauses decide: the first that fails is answered, and ends the session if
      it is fatal; if all hold the command is taken. */
  ghost predicate ShardTold(f: Floor, d: Desk, k: nat, sequence: Sequence, command: Command, now: U64, o: DeskOutcome) {
    && k < |d.shards| && k < |f.setups| && SoundGateway(f.setups[k].cfg, d.shards[k].engine.gateway)
    && match Verdict(Q.CallClauses(f.setups[k], d.shards[k], command))
       case Some(e) => o.answer == Some(Err(ShardError(k, e))) && (if Q.Fatal(e) then DeskHalted(d, o.next) else o.next == d)
       case None => o.answer == Some(Ok(Some(k))) && CommandTaken(f, d, k, sequence, command, now, o.next)
  }

  lemma {:induction false} FailHalts(d: Desk, e: Desk)
    requires |e.shards| == |d.shards| && forall j :: 0 <= j < |d.shards| ==> e.shards[j].engine.stage.Ready?
    requires forall j :: 0 <= j < |d.shards| ==>
               e.shards[j].engine.gateway == d.shards[j].engine.gateway && e.shards[j].engine.applied == d.shards[j].engine.applied
    ensures DeskHalted(d, FailDesk(e))
  {
  }

  lemma {:induction false} AllReady(f: Floor, d: Desk)
    requires DeskInv(f, d) && !d.call.Running?
    ensures forall j :: 0 <= j < |d.shards| ==> d.shards[j].engine.stage.Ready?
  {
    hide Sound, CounterAgrees, SessionStaged;
  }

  lemma {:induction false} SessionIs(f: Floor, d: Desk)
    requires DeskInv(f, d)
    ensures SoundSession(d.session)
  {
    hide Sound, OneInFlight, CounterAgrees, SoundSession;
  }

  /** All routes healthy: session first, then route, then shard. */
  lemma {:induction false} CheckedNext(f: Floor, d: Desk)
    requires Sound(f, d) && d.call.Checking? && d.call.checked == |f.table.byInstrument|
    ensures Next(f, d, Continue) ==
            match Handled(f.session, d.session, CommandReceived(d.call.sequence), d.call.now)
            case Err(e) => Answer(d, SessionRefused(e))
            case Ok(staged) => Admit(f, d, d.call.command, staged)
  {
    hide Sound, FailDesk, Admit, Handled;
  }

  lemma {:induction false} Routes(f: Floor, d: Desk, instrument: InstrumentId)
    requires Sound(f, d)
    ensures f.table.byInstrument != []
    ensures ShardFor(f.table, instrument).None? ==> forall r :: r in f.routes ==> r.instrument != instrument
    ensures ShardFor(f.table, instrument).Some? ==>
              && Route(instrument, ShardFor(f.table, instrument).value) in f.routes
              && ShardFor(f.table, instrument).value < |d.shards|
    ensures forall k: ShardId :: Route(instrument, k) in f.routes ==> ShardFor(f.table, instrument) == Some(k)
  {
    RoutesProper(f, d);
    hide Sound;
    LookupIs(f.table, f.routes, instrument);
    hide ShardFor, IsTable;
    forall r | ShardFor(f.table, instrument).None? && r in f.routes ensures r.instrument != instrument {
      var i :| 0 <= i < |f.routes| && f.routes[i] == r;
    }
    forall k: ShardId | Route(instrument, k) in f.routes ensures ShardFor(f.table, instrument) == Some(k) {
      var i :| 0 <= i < |f.routes| && f.routes[i] == Route(instrument, k);
      var found := ShardFor(f.table, instrument).value;
      var j :| 0 <= j < |f.routes| && f.routes[j] == Route(instrument, found);
      assert i == j;
    }
  }

  lemma {:induction false} RoutesProper(f: Floor, d: Desk)
    requires Sound(f, d)
    ensures IsTable(f.table, f.routes) && f.table.byInstrument != [] && |f.routes| == |d.shards|
    ensures forall i, j :: 0 <= i < j < |f.routes| ==> f.routes[i].instrument != f.routes[j].instrument
    ensures forall r :: r in f.routes ==> r.shard < |d.shards|
  {
    hide SoundShard, ValidShard, Strict, Indexed;
  }

  lemma {:induction false} AdmitRoutes(f: Floor, d: Desk, command: Command, staged: Session)
    requires Sound(f, d) && f.table.byInstrument != []
    ensures ShardFor(f.table, command.InstrumentOf()).None? ==>
              Admit(f, d, command, staged) == Answer(d, UnknownRoute(command.InstrumentOf()))
    ensures ShardFor(f.table, command.InstrumentOf()).Some? && ShardFor(f.table, command.InstrumentOf()).value < |d.shards| ==>
              var k := ShardFor(f.table, command.InstrumentOf()).value;
              Admit(f, d, command, staged) == Continued(d, k, staged, Shard(f, d, k, E.Submit(command)))
  {
    hide Sound, ShardFor, Continued, Shard;
  }

  /** What one call of the front end does, whatever state it starts from. The first route
      with an unhealthy shard fails the session; then the session's own clauses decide;
      then the route; then the shard's clauses; and only a command that passes them all is
      applied, on its shard alone, with one step of the session counter. */
  lemma {:induction false} DeskDecided(f: Floor, d: Desk, sequence: Sequence, command: Command, now: U64, i: nat)
    requires DeskInv(f, d) && d.call.Idle? && FirstUnhealthy(f, d, i)
    ensures var o := DeskCall(f, d, sequence, command, now);
            var refusal := Verdict(EventClauses(f.session, d.session, CommandReceived(sequence), now));
            && (i < |f.table.byInstrument| ==>
                  o.answer == Some(Err(ShardError(f.table.byInstrument[i].shard, E.PersistenceFailed))) && DeskHalted(d, o.next))
            && (i == |f.table.byInstrument| && refusal.Some? ==> o == DeskOutcome(d, Some(Err(SessionRefused(refusal.value)))))
            && (i == |f.table.byInstrument| && refusal.None? && (forall r :: r in f.routes ==> r.instrument != command.InstrumentOf()) ==>
                  o == DeskOutcome(d, Some(Err(UnknownRoute(command.InstrumentOf())))))
            && (i == |f.table.byInstrument| && refusal.None? ==>
                  forall k: ShardId :: Route(command.InstrumentOf(), k) in f.routes ==> ShardTold(f, d, k, sequence, command, now, o))
  {
    hide DeskInv, Sound, Drive, Next, FailDesk, Handled, Admit, DeskHalted, CommandTaken, Verdict, EventClauses, Q.CallClauses, SoundGateway, ShardFor, FirstUnhealthy, IsTable, AllHold, EventLeads, ShardTold;
    Starts(f, d, sequence, command, now);
    DeskSound(f, d);
    var start := d.(call := Checking(0, sequence, command, now));
    StepsEnough(f, d, i, start);
    Checks(f, start, i, StepsLeft(f, start));
    var e := d.(call := Checking(i, sequence, command, now));
    var steps := StepsLeft(f, start) - i;
    DriveStep(f, e, steps);
    AllReady(f, d);
    if i < |f.table.byInstrument| {
      UnhealthyAt(f, d, i);
      ChecksOne(f, e);
      FailHalts(d, e);
    } else {
      CheckedNext(f, e);
      HandledDecided(f.session, d.session, CommandReceived(sequence), now);
      VerdictIff(EventClauses(f.session, d.session, CommandReceived(sequence), now));
      Routes(f, d, command.InstrumentOf());
      if Handled(f.session, d.session, CommandReceived(sequence), now).Ok? {
        var staged := Handled(f.session, d.session, CommandReceived(sequence), now).value;
        AdmitRoutes(f, e, command, staged);
        if ShardFor(f.table, command.InstrumentOf()).Some? {
          RoutedHealthy(f, d, command.InstrumentOf(), ShardFor(f.table, command.InstrumentOf()).value);
          ShardDecided(f, d, e, ShardFor(f.table, command.InstrumentOf()).value, sequence, command, now, staged, steps - 1);
        }
      }
    }
  }

  lemma {:induction false} StepsEnough(f: Floor, d: Desk, i: nat, start: Desk)
    requires FirstUnhealthy(f, d, i) && start.call.Checking? && start.call.checked == 0 && start.shards == d.shards
    ensures i <= |f.table.byInstrument| && StepsLeft(f, start) >= i + 5 && FirstUnhealthy(f, start, i)
  {
  }

  lemma {:induction false} UnhealthyAt(f: Floor, d: Desk, i: nat)
    requires FirstUnhealthy(f, d, i) && i < |f.table.byInstrument|
    ensures f.table.byInstrument[i].shard < |d.shards| && !Healthy(d.shards[f.table.byInstrument[i].shard])
  {
  }

  /** The shard's part of the decision. */
  lemma {:induction false} ShardDecided(f: Floor, d: Desk, e: Desk, k: nat, sequence: Sequence, command: Command, now: U64, staged: Session, steps: nat)
    requires DeskInv(f, d) && DeskInv(f, e) && Sound(f, d) && Sound(f, e) && d.call.Idle? && e.call.Checking? && e == d.(call := e.call)
    requires k < |d.shards| && Healthy(d.shards[k]) && steps >= 1 && Handled(f.session, d.session, CommandReceived(sequence), now) == Ok(staged)
    ensures var o := Continued(e, k, staged, Shard(f, e, k, E.Submit(command)));
            o.answer.None? && DeskInv(f, o.next) && ShardTold(f, d, k, sequence, command, now, Drive(f, o.next, steps))
  {
    hide DeskInv, Sound, Drive, FailDesk, Handled, DeskHalted, Verdict, EventClauses, Q.CallClauses, SoundGateway, AllHold, EventLeads, Continued, Shard, Q.AppliedOne, E.SystemInv, SoundSession, Q.EngineCall, Q.RefusedOnly, Q.Fatal, Healthy;
    SessionIs(f, d);
    StagedIs(f, d, sequence, now, staged);
    ShardIs(f, d, k, E.StopAdmission);
    ReadyShard(f, d, k);
    ShardCall(f, e, k, staged, command, steps);
    Q.CallDecided(f.setups[k], f.starts[k], d.shards[k], command);
    VerdictIff(Q.CallClauses(f.setups[k], d.shards[k], command));
    var call := Q.EngineCall(f.setups[k], f.starts[k], d.shards[k], command);
    if call.answer.value.Some? {
      AllReady(f, d);
      RefusalEnds(d, e, k, staged, call);
    }
  }

  /** How a refusal by a healthy shard ends the call. */
  lemma {:induction false} RefusalEnds(d: Desk, e: Desk, k: nat, staged: Session, o: E.Outcome)
    requires d.call.Idle? && e == d.(call := e.call) && k < |d.shards| && Healthy(d.shards[k])
    requires forall j :: 0 <= j < |d.shards| ==> d.shards[j].engine.stage.Ready?
    requires o.answer.Some? && o.answer.value.Some? && Q.RefusedOnly(d.shards[k], o.answer.value.value, o.next)
    ensures var r, error := ShardAnswer(e, k, staged, o), o.answer.value.value;
            && r.answer == Some(Err(ShardError(k, error)))
            && (if Q.Fatal(error) then DeskHalted(d, r.next) else r.next == d)
  {
    var error := o.answer.value.value;
    var after := Desk(e.session, e.shards[k := o.next], Refused(k, error), e.mark);
    if Q.Fatal(error) {
      FailHalts(d, after);
    } else {
      assert o.next == d.shards[k];
      assert e.shards[k := o.next] == d.shards;
    }
    hide FailDesk, DeskHalted;
  }

  lemma {:induction false} RoutedHealthy(f: Floor, d: Desk, instrument: InstrumentId, k: nat)
    requires Sound(f, d) && FirstUnhealthy(f, d, |f.table.byInstrument|) && k < U16_BOUND && Route(instrument, k) in f.routes
    ensures k < |d.shards| && Healthy(d.shards[k])
  {
    RoutesListed(f, d);
    hide Sound, Healthy;
    assert Route(instrument, k) in multiset(f.table.byInstrument);
    var j :| 0 <= j < |f.table.byInstrument| && f.table.byInstrument[j] == Route(instrument, k);
  }

  lemma {:induction false} RoutesListed(f: Floor, d: Desk)
    requires Sound(f, d)
    ensures multiset(f.table.byInstrument) == multiset(f.routes)
  {
    hide SoundShard, ValidShard, Strict, Indexed, Proper;
  }

  lemma {:induction false} StagedIs(f: Floor, d: Desk, sequence: Sequence, now: U64, staged: Session)
    requires SoundSession(d.session) && Handled(f.session, d.session, CommandReceived(sequence), now) == Ok(staged)
    ensures d.session.AllowsCommands() && staged.state.Active? && SoundSession(staged) && staged.next == d.session.next + 1
    ensures EventLeads(f.session, d.session, CommandReceived(sequence), now, staged)
  {
    hide Verdict, AllHold, EventClauses;
    HandledKeeps(f.session, d.session, CommandReceived(sequence), now);
    CommandAdmittedIff(f.session, d.session, sequence, now);
    HandledDecided(f.session, d.session, CommandReceived(sequence), now);
    hide Handled;
  }

  /** What a lifecycle event does between calls: commands need admission, a refused event
      changes nothing, an accepted one moves the session, and one that fails it halts every
      shard. */
  lemma {:induction false} EventDecided(f: Floor, d: Desk, event: SessionEvent, now: U64)
    requires DeskInv(f, d) && d.call.Idle?
    ensures var o := HandleEvent(f, d, event, now);
            if event.CommandReceived? then o == DeskOutcome(d, Some(Err(CommandNeedsAdmission)))
            else match Verdict(EventClauses(f.session, d.session, event, now))
              case Some(e) => o == DeskOutcome(d, Some(Err(SessionRefused(e))))
              case None =>
                && o.answer == Some(Ok(None))
                && (if event.Fail? then DeskHalted(d, o.next)
                    else EventLeads(f.session, d.session, event, now, o.next.session) && o.next.shards == d.shards && o.next.call == Idle)
  {
    hide DeskInv, Sound, Verdict, AllHold, EventClauses, FailDesk, DeskHalted;
    HandledDecided(f.session, d.session, event, now);
    VerdictIff(EventClauses(f.session, d.session, event, now));
    AllReady(f, d);
    FailHalts(d, d);
    hide Handled;
  }
}
