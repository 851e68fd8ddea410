/** Session admission over many shards: one session counter in front of one engine per
    instrument. A call checks every shard's health, stages the session, journals and
    applies the command on its shard, and only then commits the session; persistence
    workers and event consumers of all shards run between any two of those steps. */
module SessionEngines {
  import opened Types
  import opened GatewaySpec
  import opened GatewayLaws
  import opened Routers
  import opened Sessions
  import E = Engines

  /** What a desk is built from: the route table and one engine a shard. */
  datatype Floor = Floor(session: SessionConfig, routes: seq<Route>, table: RouteTable, setups: seq<E.EngineSetup>, starts: seq<GatewayState>)

  /** The caller's thread. `Checking` has found the first `checked` routes healthy. */
  datatype Call =
    | Idle
    | Checking(checked: nat, sequence: Sequence, command: Command, now: U64)
    | Running(shard: nat, staged: Session)
    | Refused(shard: nat, error: E.EngineError)

  /** What the last logon fixed: its first sequence, and the commands applied by then. */
  datatype LogonMark = LogonMark(first: Sequence, applied: nat)

  /** Session, shards and the call in progress; `mark` only remembers the last logon. */
  datatype Desk = Desk(session: Session, shards: seq<E.System>, call: Call, mark: Option<LogonMark>)

  datatype DeskError =
    | SessionRefused(session: SessionError)
    | UnknownRoute(instrument: InstrumentId)
    | ShardError(shard: nat, error: E.EngineError)
    | CommandNeedsAdmission

  datatype DeskMove =
    | Handle(event: SessionEvent, now: U64)
    | Tick(now: U64)
    | Start(sequence: Sequence, command: Command, now: U64)
    | Continue
    | StopDesk
    | Background(shard: nat, move: E.SystemMove)

  /** The next state, and the answer if the call returns; a command answers with its shard. */
  datatype DeskOutcome = DeskOutcome(next: Desk, answer: Option<Result<Option<nat>, DeskError>>)

  // The desk.

  ghost predicate ValidFloor(f: Floor) {
    && IsTable(f.table, f.routes) && |f.setups| == |f.starts| == |f.routes|
    && forall k :: 0 <= k < |f.setups| ==> ValidShard(f, k)
  }

  /** The engine of a shard trades the instrument the table routes to it. */
  ghost predicate ValidShard(f: Floor, k: nat)
    requires k < |f.setups| == |f.starts|
  {
    && E.ValidSetup(f.setups[k]) && SoundGateway(f.setups[k].cfg, f.starts[k])
    && f.setups[k].journal.first == f.starts[k].expected
    && (k < U16_BOUND && InstrumentFor(f.table, k) == Some(f.setups[k].cfg.instrument))
  }

  ghost predicate SoundShard(f: Floor, shards: seq<E.System>, k: nat) {
    && k < |f.setups| && k < |f.starts| && k < |shards|
    && E.SystemInv(f.setups[k], f.starts[k], shards[k])
  }

  ghost predicate Sound(f: Floor, d: Desk) {
    && ValidFloor(f) && |d.shards| == |f.setups|
    && forall k :: 0 <= k < |d.shards| ==> SoundShard(f, d.shards, k)
  }

  function Open(f: Floor): Desk {
    Desk(FRESH, Boots(f), Idle, None)
  }

  function Boots(f: Floor): seq<E.System> {
    if |f.setups| == |f.starts| then seq(|f.setups|, k requires 0 <= k < |f.setups| => E.Boot(f.setups[k], f.starts[k])) else []
  }

  /** Commands applied on all shards together. */
  function AppliedOn(shards: seq<E.System>): nat {
    if shards == [] then 0 else AppliedOn(shards[..|shards| - 1]) + |shards[|shards| - 1].engine.applied|
  }

  function StopAll(shards: seq<E.System>): (t: seq<E.System>)
    ensures |t| == |shards| && forall k :: 0 <= k < |t| ==> t[k] == E.Stop(shards[k])
  {
    seq(|shards|, k requires 0 <= k < |shards| => E.Stop(shards[k]))
  }

  /** The session fails and admission closes everywhere. */
  function FailDesk(d: Desk): Desk {
    Desk(Cleared(Failed), StopAll(d.shards), Idle, None)
  }

  function Answer(d: Desk, e: DeskError): DeskOutcome {
    DeskOutcome(d.(call := Idle), Some(Err(e)))
  }

  /** The session becomes `s`; a failed session stops every shard. */
  function Commit(d: Desk, s: Session, mark: Option<LogonMark>): Desk {
    if s.state.Failed? then FailDesk(d) else d.(session := s, mark := mark)
  }

  /** The mark after a lifecycle event: a logon sets it, whatever clears the counter drops it. */
  function MarkAfter(d: Desk, event: SessionEvent): Option<LogonMark> {
    match event
    case LogonAccepted(first) => Some(LogonMark(first, AppliedOn(d.shards)))
    case Disconnect => None
    case Fail => None
    case _ => d.mark
  }

  function HandleEvent(f: Floor, d: Desk, event: SessionEvent, now: U64): DeskOutcome {
    if event.CommandReceived? then Answer(d, CommandNeedsAdmission)
    else match Handled(f.session, d.session, event, now)
      case Err(e) => Answer(d, SessionRefused(e))
      case Ok(s) => DeskOutcome(Commit(d, s, MarkAfter(d, event)), Some(Ok(None)))
  }

  function TickDesk(f: Floor, d: Desk, now: U64): DeskOutcome {
    match Ticked(f.session, d.session, now)
    case Err(e) => Answer(d, SessionRefused(e))
    case Ok(s) => DeskOutcome(Commit(d, s, d.mark), Some(Ok(None)))
  }

  /** One step of shard `k`'s own system. */
  ghost function Shard(f: Floor, d: Desk, k: nat, m: E.SystemMove): E.Outcome
    requires Sound(f, d) && k < |d.shards|
  {
    hide SoundGateway, ValidFloor, E.SystemInv;
    assert SoundShard(f, d.shards, k);
    E.InvSound(f.setups[k], f.starts[k], d.shards[k]);
    E.Next(f.setups[k], d.shards[k], m)
  }

  /** The next route is checked; once all are healthy the session is staged and the
      command goes to its shard. */
  ghost function Check(f: Floor, d: Desk): DeskOutcome
    requires Sound(f, d) && d.call.Checking?
  {
    hide ValidFloor, E.SystemInv;
    var c := d.call;
    if c.checked < |f.table.byInstrument| then
      var k := f.table.byInstrument[c.checked].shard;
      if k < |d.shards| && E.Unhealthy(d.shards[k]) then
        DeskOutcome(FailDesk(d), Some(Err(ShardError(k, E.PersistenceFailed))))
      else DeskOutcome(d.(call := c.(checked := c.checked + 1)), None)
    else match Handled(f.session, d.session, CommandReceived(c.sequence), c.now)
      case Err(e) => Answer(d, SessionRefused(e))
      case Ok(staged) => Admit(f, d, c.command, staged)
  }

  ghost function Admit(f: Floor, d: Desk, command: Command, staged: Session): DeskOutcome
    requires Sound(f, d)
  {
    hide ValidFloor, E.SystemInv;
    match (if f.table.byInstrument == [] then None else ShardFor(f.table, command.InstrumentOf()))
    case None => Answer(d, UnknownRoute(command.InstrumentOf()))
    case Some(k) =>
      if k >= |d.shards| then Answer(d, UnknownRoute(command.InstrumentOf()))
      else Continued(d, k, staged, Shard(f, d, k, E.Submit(command)))
  }

  /** The call goes on, commits the staged session, or was refused by its shard. */
  function Continued(d: Desk, k: nat, staged: Session, o: E.Outcome): DeskOutcome
    requires k < |d.shards|
  {
    var moved := d.(shards := d.shards[k := o.next]);
    match o.answer
    case None => DeskOutcome(moved.(call := Running(k, staged)), None)
    case Some(None) => DeskOutcome(moved.(session := staged, call := Idle), Some(Ok(Some(k))))
    case Some(Some(e)) => DeskOutcome(moved.(call := Refused(k, e)), None)
  }

  /** A refusal by a shard that is unhealthy fails the session. */
  function AfterRefusal(d: Desk, k: nat, e: E.EngineError): DeskOutcome {
    if k < |d.shards| && E.Unhealthy(d.shards[k]) then DeskOutcome(FailDesk(d), Some(Err(ShardError(k, e))))
    else Answer(d, ShardError(k, e))
  }

  ghost function Proceed(f: Floor, d: Desk): DeskOutcome
    requires Sound(f, d)
  {
    hide ValidFloor, E.SystemInv;
    match d.call
    case Idle => DeskOutcome(d, None)
    case Checking(_, _, _, _) => Check(f, d)
    case Running(k, staged) =>
      if k >= |d.shards| then DeskOutcome(d, None)
      else Continued(d, k, staged, Shard(f, d, k, if d.shards[k].engine.stage.Admitted? then E.Append else E.Apply))
    case Refused(k, e) => AfterRefusal(d, k, e)
  }

  /** One atomic step of any thread; a move that is not enabled changes nothing. */
  ghost function Next(f: Floor, d: Desk, m: DeskMove): DeskOutcome
    requires Sound(f, d)
  {
    hide ValidFloor, E.SystemInv;
    match m
    case Handle(event, now) => if d.call.Idle? then HandleEvent(f, d, event, now) else DeskOutcome(d, None)
    case Tick(now) => if d.call.Idle? then TickDesk(f, d, now) else DeskOutcome(d, None)
    case Start(sequence, command, now) =>
      if d.call.Idle? then DeskOutcome(d.(call := Checking(0, sequence, command, now)), None) else DeskOutcome(d, None)
    case Continue => Proceed(f, d)
    case StopDesk => if d.call.Idle? then DeskOutcome(d.(shards := StopAll(d.shards)), None) else DeskOutcome(d, None)
    case Background(k, move) =>
      if k < |d.shards| && (move.Consume? || move.Storage?) then DeskOutcome(d.(shards := d.shards[k := Shard(f, d, k, move).next]), None)
      else DeskOutcome(d, None)
  }

  // The invariant.

  /** Only the shard of a running call has a command in flight. */
  ghost predicate OneInFlight(d: Desk) {
    && (forall k :: 0 <= k < |d.shards| && !(d.call.Running? && d.call.shard == k) ==> d.shards[k].engine.stage.Ready?)
    && (d.call.Running? ==> d.call.shard < |d.shards| && !d.shards[d.call.shard].engine.stage.Ready?)
  }

  /** Since the last logon the counter advanced by exactly the commands applied. */
  ghost predicate CounterAgrees(d: Desk) {
    && (d.mark.Some? ==> d.session.next - d.mark.value.first == AppliedOn(d.shards) - d.mark.value.applied)
    && (d.session.AllowsCommands() ==> d.mark.Some?)
  }

  /** The session and what a running call will make of it. */
  ghost predicate SessionStaged(d: Desk) {
    && SoundSession(d.session)
    && (d.call.Running? ==> d.session.AllowsCommands() && d.call.staged.state.Active? && SoundSession(d.call.staged)
                            && d.call.staged.next == d.session.next + 1)
  }

  ghost predicate DeskInv(f: Floor, d: Desk) {
    Sound(f, d) && OneInFlight(d) && CounterAgrees(d) && SessionStaged(d)
  }

  // Counting applications.

  lemma {:induction false} AppliedSet(shards: seq<E.System>, k: nat, s: E.System)
    requires k < |shards|
    ensures AppliedOn(shards[k := s]) == AppliedOn(shards) - |shards[k].engine.applied| + |s.engine.applied|
  {
    var n := |shards| - 1;
    var t := shards[k := s];
    if k == n {
      assert t[..n] == shards[..n];
    } else {
      assert t[..n] == shards[..n][k := s];
      AppliedSet(shards[..n], k, s);
    }
  }

  lemma {:induction false} AppliedAlike(a: seq<E.System>, b: seq<E.System>)
    requires SameApplied(a, b)
    ensures AppliedOn(a) == AppliedOn(b)
  {
    if a != [] {
      AppliedAlike(a[..|a| - 1], b[..|b| - 1]);
    }
  }

  /** No shard applied anything between `a` and `b`. */
  ghost predicate SameApplied(a: seq<E.System>, b: seq<E.System>) {
    |a| == |b| && forall k :: 0 <= k < |a| ==> a[k].engine.applied == b[k].engine.applied
  }

  // Every step keeps the invariant.

  lemma {:induction false} StopSound(f: Floor, d: Desk)
    requires Sound(f, d)
    ensures Sound(f, d.(shards := StopAll(d.shards))) && SameApplied(d.shards, StopAll(d.shards))
  {
    hide ValidFloor, E.SystemInv;
    forall k | 0 <= k < |d.shards| ensures SoundShard(f, StopAll(d.shards), k) {
      assert SoundShard(f, d.shards, k);
      E.StopKeeps(f.setups[k], f.starts[k], d.shards[k]);
    }
  }

  /** Failing the desk, whatever it was doing between shard calls. */
  lemma {:induction false} FailKeeps(f: Floor, d: Desk)
    requires Sound(f, d) && OneInFlight(d) && !d.call.Running?
    ensures DeskInv(f, FailDesk(d)) && SameApplied(d.shards, FailDesk(d).shards)
  {
    hide ValidFloor, E.SystemInv;
    StopSound(f, d);
  }

  lemma {:induction false} CommitKeeps(f: Floor, d: Desk, s: Session, mark: Option<LogonMark>)
    requires DeskInv(f, d) && d.call.Idle? && SoundSession(s)
    requires !s.state.Failed? ==> CounterAgrees(d.(session := s, mark := mark))
    ensures DeskInv(f, Commit(d, s, mark)) && SameApplied(d.shards, Commit(d, s, mark).shards)
  {
    hide ValidFloor, E.SystemInv, AppliedOn;
    if s.state.Failed? {
      FailKeeps(f, d);
    }
  }

  lemma {:induction false} HandleKeeps(f: Floor, d: Desk, event: SessionEvent, now: U64)
    requires DeskInv(f, d) && d.call.Idle?
    ensures DeskInv(f, HandleEvent(f, d, event, now).next) && SameApplied(d.shards, HandleEvent(f, d, event, now).next.shards)
  {
    hide Sound, Handled, AppliedOn, Commit;
    if !event.CommandReceived? && Handled(f.session, d.session, event, now).Ok? {
      HandledKeeps(f.session, d.session, event, now);
      CounterMoves(f.session, d.session, event, now);
      CommitKeeps(f, d, Handled(f.session, d.session, event, now).value, MarkAfter(d, event));
    }
  }

  lemma {:induction false} TickKeeps(f: Floor, d: Desk, now: U64)
    requires DeskInv(f, d) && d.call.Idle?
    ensures DeskInv(f, TickDesk(f, d, now).next) && SameApplied(d.shards, TickDesk(f, d, now).next.shards)
  {
    hide Sound, AppliedOn, Commit;
    if Ticked(f.session, d.session, now).Ok? {
      TickedKeeps(f.session, d.session, now);
      CommitKeeps(f, d, Ticked(f.session, d.session, now).value, d.mark);
    }
  }

  /** A step of one shard leaves the others sound. */
  lemma {:induction false} ShardKeeps(f: Floor, d: Desk, k: nat, m: E.SystemMove)
    requires Sound(f, d) && k < |d.shards|
    ensures Sound(f, d.(shards := d.shards[k := Shard(f, d, k, m).next]))
    ensures E.Expected(Shard(f, d, k, m).answer)
  {
    hide ValidFloor, E.SystemInv, E.Next;
    assert SoundShard(f, d.shards, k);
    E.NextKeeps(f.setups[k], f.starts[k], d.shards[k], m);
    var after := d.shards[k := Shard(f, d, k, m).next];
    forall j | 0 <= j < |after| ensures SoundShard(f, after, j) {
      assert SoundShard(f, d.shards, j);
    }
  }

  lemma {:induction false} CallStep(f: Floor, d: Desk, k: nat, m: E.SystemMove)
    requires Sound(f, d) && k < |d.shards|
    requires var stage := d.shards[k].engine.stage;
             (m.Submit? && stage.Ready?) || (m.Append? && stage.Admitted?) || (m.Apply? && stage.Journaled?)
    ensures var o, s := Shard(f, d, k, m), d.shards[k];
            && (o.answer.Some? <==> o.next.engine.stage.Ready?)
            && (o.answer == Some(None) <==> m.Apply?)
            && (m.Apply? ==> o.next.engine.applied == s.engine.applied + [s.engine.stage.command])
            && (!m.Apply? ==> o.next.engine.applied == s.engine.applied)
            && (E.Unhealthy(s) ==> E.Unhealthy(o.next))
  {
    hide ValidFloor, E.SystemInv, E.Next;
    assert SoundShard(f, d.shards, k);
    E.InvSound(f.setups[k], f.starts[k], d.shards[k]);
    E.CallerStep(f.setups[k], f.starts[k], d.shards[k], m);
  }

  /** Exactly the answer `Ok` applies a command: one, on the answered shard, and the
      counter advances by one with it. */
  ghost predicate Counts(d: Desk, o: DeskOutcome) {
    match o.answer
    case Some(Ok(Some(k))) =>
      && k < |d.shards| && |o.next.shards| == |d.shards|
      && |o.next.shards[k].engine.applied| == |d.shards[k].engine.applied| + 1
      && (forall j :: 0 <= j < |d.shards| && j != k ==> o.next.shards[j] == d.shards[j])
      && o.next.session.next == d.session.next + 1
    case _ => SameApplied(d.shards, o.next.shards)
  }

  /** A step of the call on shard `k` keeps everything, whether it goes on, commits or is refused. */
  lemma {:induction false} ContinuedKeeps(f: Floor, d: Desk, k: nat, staged: Session, m: E.SystemMove)
    requires Sound(f, d) && OneInFlight(d) && CounterAgrees(d) && SoundSession(d.session) && k < |d.shards|
    requires (m.Submit? && !d.call.Running?) || (d.call == Running(k, staged) && m == if d.shards[k].engine.stage.Admitted? then E.Append else E.Apply)
    requires d.session.AllowsCommands() && staged.state.Active? && SoundSession(staged) && staged.next == d.session.next + 1
    ensures var o := Continued(d, k, staged, Shard(f, d, k, m));
            DeskInv(f, o.next) && Counts(d, o)
  {
    hide Sound, SoundSession, AppliedOn, Shard;
    ShardKeeps(f, d, k, m);
    CallStep(f, d, k, m);
    var o := Shard(f, d, k, m);
    var after := d.(shards := d.shards[k := o.next]);
    AppliedSet(d.shards, k, o.next);
    match o.answer {
      case None => SameParts(f, after, after.(call := Running(k, staged)));
      case Some(None) => SameParts(f, after, after.(session := staged, call := Idle));
      case Some(Some(e)) => SameParts(f, after, after.(call := Refused(k, e)));
    }
  }

  lemma {:induction false} SameParts(f: Floor, d: Desk, e: Desk)
    requires Sound(f, d) && e.shards == d.shards
    ensures Sound(f, e)
  {
    hide ValidFloor, E.SystemInv;
  }

  lemma {:induction false} AdmitKeeps(f: Floor, d: Desk, command: Command, staged: Session)
    requires DeskInv(f, d) && !d.call.Running?
    requires d.session.AllowsCommands() && staged.state.Active? && SoundSession(staged) && staged.next == d.session.next + 1
    ensures DeskInv(f, Admit(f, d, command, staged).next) && Counts(d, Admit(f, d, command, staged))
  {
    hide Sound, SoundSession, AppliedOn, Shard, ShardFor, CounterAgrees, Continued;
    if f.table.byInstrument != [] && ShardFor(f.table, command.InstrumentOf()).Some? && ShardFor(f.table, command.InstrumentOf()).value < |d.shards| {
      ContinuedKeeps(f, d, ShardFor(f.table, command.InstrumentOf()).value, staged, E.Submit(command));
    } else {
      IdleKeeps(f, d);
    }
  }

  /** Dropping or restarting a call that has nothing in flight keeps the invariant. */
  lemma {:induction false} IdleKeeps(f: Floor, d: Desk)
    requires DeskInv(f, d) && !d.call.Running?
    ensures forall c: Call :: !c.Running? ==> DeskInv(f, d.(call := c))
    ensures SameApplied(d.shards, d.shards)
  {
    hide Sound, AppliedOn, SoundSession;
    forall c: Call | !c.Running? ensures DeskInv(f, d.(call := c)) {
      SameParts(f, d, d.(call := c));
    }
  }

  lemma {:induction false} CheckKeeps(f: Floor, d: Desk)
    requires DeskInv(f, d) && d.call.Checking?
    ensures DeskInv(f, Check(f, d).next) && Counts(d, Check(f, d))
  {
    hide Sound, SoundSession, AppliedOn, Handled, Admit, FailDesk, CounterAgrees, OneInFlight;
    IdleKeeps(f, d);
    var c := d.call;
    if c.checked < |f.table.byInstrument| {
      FailKeeps(f, d);
    } else if Handled(f.session, d.session, CommandReceived(c.sequence), c.now).Ok? {
      HandledKeeps(f.session, d.session, CommandReceived(c.sequence), c.now);
      CommandAdmittedIff(f.session, d.session, c.sequence, c.now);
      AdmitKeeps(f, d, c.command, Handled(f.session, d.session, CommandReceived(c.sequence), c.now).value);
    }
  }

  lemma {:induction false} ProceedKeeps(f: Floor, d: Desk)
    requires DeskInv(f, d)
    ensures DeskInv(f, Proceed(f, d).next) && Counts(d, Proceed(f, d))
  {
    hide Sound, SoundSession, AppliedOn, Check, Continued, Shard, CounterAgrees, FailDesk;
    match d.call
    case Idle =>
    case Checking(_, _, _, _) => CheckKeeps(f, d);
    case Running(k, staged) =>
      ContinuedKeeps(f, d, k, staged, if d.shards[k].engine.stage.Admitted? then E.Append else E.Apply);
    case Refused(k, e) =>
      FailKeeps(f, d);
      IdleKeeps(f, d);
  }

  lemma {:induction false} BackgroundKeeps(f: Floor, d: Desk, k: nat, m: E.SystemMove)
    requires DeskInv(f, d) && k < |d.shards| && (m.Consume? || m.Storage?)
    ensures DeskInv(f, d.(shards := d.shards[k := Shard(f, d, k, m).next]))
    ensures SameApplied(d.shards, d.shards[k := Shard(f, d, k, m).next])
  {
    hide Sound, SoundSession, AppliedOn, Shard;
    ShardKeeps(f, d, k, m);
    QuietShard(f, d, k, m);
    AppliedSet(d.shards, k, Shard(f, d, k, m).next);
  }

  lemma {:induction false} QuietShard(f: Floor, d: Desk, k: nat, m: E.SystemMove)
    requires Sound(f, d) && k < |d.shards| && (m.Consume? || m.Storage?)
    ensures var t := Shard(f, d, k, m).next;
            && t.engine.stage == d.shards[k].engine.stage && t.engine.applied == d.shards[k].engine.applied
            && (E.Unhealthy(d.shards[k]) ==> E.Unhealthy(t))
  {
    hide ValidFloor, E.SystemInv, E.Next;
    assert SoundShard(f, d.shards, k);
    E.InvSound(f.setups[k], f.starts[k], d.shards[k]);
    E.BackgroundStep(f.setups[k], d.shards[k], m);
  }

  lemma {:induction false} StopKeepsDesk(f: Floor, d: Desk)
    requires DeskInv(f, d) && d.call.Idle?
    ensures DeskInv(f, d.(shards := StopAll(d.shards))) && SameApplied(d.shards, StopAll(d.shards))
  {
    hide Sound, SoundSession, AppliedOn;
    StopSound(f, d);
    AppliedAlike(d.shards, StopAll(d.shards));
  }

  /** Every step of every thread keeps the invariant, and commands are applied by
      answered calls only, one each, in step with the counter. */
  lemma {:induction false} NextKeeps(f: Floor, d: Desk, m: DeskMove)
    requires DeskInv(f, d)
    ensures DeskInv(f, Next(f, d, m).next) && Counts(d, Next(f, d, m))
  {
    hide Sound, AppliedOn, Proceed, HandleEvent, TickDesk, Shard, SessionStaged, CounterAgrees, OneInFlight;
    match m
    case Handle(event, now) =>
      if d.call.Idle? {
        HandleKeeps(f, d, event, now);
        LifecycleAnswers(f, d, event, now);
      }
    case Tick(now) =>
      if d.call.Idle? {
        TickKeeps(f, d, now);
        LifecycleAnswers(f, d, Connect, now);
      }
    case Start(sequence, command, now) =>
      if d.call.Idle? {
        IdleKeeps(f, d);
      }
    case Continue => ProceedKeeps(f, d);
    case StopDesk =>
      if d.call.Idle? {
        StopKeepsDesk(f, d);
      }
    case Background(k, move) =>
      if k < |d.shards| && (move.Consume? || move.Storage?) {
        BackgroundKeeps(f, d, k, move);
      }
  }

  lemma {:induction false} LifecycleAnswers(f: Floor, d: Desk, event: SessionEvent, now: U64)
    ensures var a := HandleEvent(f, d, event, now).answer; a.Some? && (a.value.Ok? ==> a.value.value.None?)
    ensures var a := TickDesk(f, d, now).answer; a.Some? && (a.value.Ok? ==> a.value.value.None?)
  {
    hide Handled, Ticked, Commit;
  }

  lemma {:induction false} OpenInv(f: Floor)
    requires ValidFloor(f)
    ensures DeskInv(f, Open(f))
  {
    hide E.SystemInv, E.Boot, IsTable, SoundGateway;
    forall k | 0 <= k < |f.setups| ensures SoundShard(f, Boots(f), k) {
      assert ValidShard(f, k);
      E.BootInv(f.setups[k], f.starts[k]);
    }
    BootsReady(f);
  }

  lemma {:induction false} BootsReady(f: Floor)
    ensures forall k :: 0 <= k < |Boots(f)| ==> Boots(f)[k].engine.stage.Ready?
  {
  }

  // Every run.

  ghost function Run(f: Floor, d: Desk, moves: seq<DeskMove>): (e: Desk)
    requires DeskInv(f, d)
    ensures DeskInv(f, e)
    decreases |moves|
  {
    hide Sound, OneInFlight, CounterAgrees, SessionStaged, Next;
    if moves == [] then d
    else
      NextKeeps(f, d, moves[0]);
      Run(f, Next(f, d, moves[0]).next, moves[1..])
  }

  /** In every interleaving from a fresh build: since the last logon the session counter
      has advanced by exactly the number of commands applied across all shards. */
  lemma {:induction false} CounterIsApplications(f: Floor, moves: seq<DeskMove>)
    requires ValidFloor(f)
    ensures DeskInv(f, Open(f))
    ensures var d := Run(f, Open(f), moves);
            && (d.mark.Some? ==> d.session.next - d.mark.value.first == AppliedOn(d.shards) - d.mark.value.applied)
            && (d.session.AllowsCommands() ==> d.mark.Some?)
  {
    hide Sound, AppliedOn, Open, Run;
    OpenInv(f);
  }

  /** A refused call applies nothing anywhere and leaves the session as it was, unless a
      shard has failed: then the session has failed too and every shard is closed. */
  lemma {:induction false} RefusalsAdvanceNothing(f: Floor, d: Desk, m: DeskMove)
    requires DeskInv(f, d)
    requires Next(f, d, m).answer.Some? && Next(f, d, m).answer.value.Err?
    ensures var e := Next(f, d, m).next;
            && SameApplied(d.shards, e.shards)
            && (e.session == d.session
                || (e.session.state.Failed? && forall k :: 0 <= k < |e.shards| ==> !e.shards[k].engine.open))
  {
    hide Sound, AppliedOn, OneInFlight, CounterAgrees, SessionStaged, Next, FailDesk;
    NextKeeps(f, d, m);
    RefusalState(f, d, m);
    var e := Next(f, d, m).next;
    if e != d.(call := Idle) {
      FailedClosed(d);
      FailedSession(d);
    }
  }

  lemma {:induction false} FailedSession(d: Desk)
    ensures FailDesk(d).session.state.Failed?
  {
  }

  lemma {:induction false} FailedClosed(d: Desk)
    requires forall k :: 0 <= k < |d.shards| ==> d.shards[k].engine.stage.Ready?
    ensures forall k :: 0 <= k < |d.shards| ==> !FailDesk(d).shards[k].engine.open
  {
  }

  lemma {:induction false} RefusalState(f: Floor, d: Desk, m: DeskMove)
    requires DeskInv(f, d)
    requires Next(f, d, m).answer.Some? && Next(f, d, m).answer.value.Err?
    ensures Next(f, d, m).next == d.(call := Idle)
            || (Next(f, d, m).next == FailDesk(d) && forall k :: 0 <= k < |d.shards| ==> d.shards[k].engine.stage.Ready?)
  {
    hide Sound, AppliedOn, Handled, Ticked, Commit, Shard, ShardFor, FailDesk, CounterAgrees, SessionStaged;
  }

  // Once a shard has failed.

  /** Shard `j` is unhealthy and no call has passed its check. */
  ghost predicate Halted(f: Floor, d: Desk, j: nat) {
    && j < |d.shards| && E.Unhealthy(d.shards[j])
    && j < |f.table.byShard|
    && match d.call
       case Idle => true
       case Checking(checked, _, _, _) => checked <= f.table.byShard[j]
       case Running(_, _) => false
       case Refused(_, _) => false
  }

  lemma {:induction false} HaltedKeeps(f: Floor, d: Desk, j: nat, m: DeskMove)
    requires DeskInv(f, d) && Halted(f, d, j)
    ensures Halted(f, Next(f, d, m).next, j) && SameApplied(d.shards, Next(f, d, m).next.shards)
  {
    hide Sound, OneInFlight, CounterAgrees, SessionStaged, AppliedOn, Handled, Ticked, Shard, Admit;
    NextKeeps(f, d, m);
    StopStaysUnhealthy(d.shards, j);
    CheckedShard(f, d, j);
    if m.Background? && m.shard < |d.shards| && (m.move.Consume? || m.move.Storage?) {
      QuietShard(f, d, m.shard, m.move);
    }
  }

  lemma {:induction false} StopStaysUnhealthy(shards: seq<E.System>, j: nat)
    requires j < |shards| && E.Unhealthy(shards[j])
    ensures E.Unhealthy(StopAll(shards)[j])
  {
  }

  /** The check visits every shard, each at its place in the table. */
  lemma {:induction false} CheckedShard(f: Floor, d: Desk, j: nat)
    requires Sound(f, d) && j < |d.shards|
    ensures j < |f.table.byShard| && f.table.byShard[j] < |f.table.byInstrument|
    ensures f.table.byInstrument[f.table.byShard[j]].shard == j
  {
    hide E.SystemInv, Strict, SoundGateway;
    Reordered(f.routes, f.table.byInstrument);
    EveryShard(f.table.byInstrument, j);
    var i :| 0 <= i < |f.table.byInstrument| && f.table.byInstrument[i].shard == j;
  }

  lemma {:induction false} SameTwice(a: seq<E.System>, b: seq<E.System>, c: seq<E.System>)
    requires SameApplied(a, b) && SameApplied(b, c)
    ensures SameApplied(a, c)
  {
  }

  /** Once any shard is failed or poisoned, no command whose call starts later is ever
      applied, on that shard or on any other. */
  lemma {:induction false} FailureStopsAll(f: Floor, d: Desk, j: nat, moves: seq<DeskMove>)
    requires DeskInv(f, d) && Halted(f, d, j)
    ensures SameApplied(d.shards, Run(f, d, moves).shards) && Halted(f, Run(f, d, moves), j)
    decreases |moves|
  {
    hide DeskInv, Halted, SameApplied, Next;
    if moves == [] {
      SameSelf(d.shards);
    } else {
      SoundDesk(f, d);
      NextKeeps(f, d, moves[0]);
      HaltedKeeps(f, d, j, moves[0]);
      var e := Next(f, d, moves[0]).next;
      FailureStopsAll(f, e, j, moves[1..]);
      SameTwice(d.shards, e.shards, Run(f, e, moves[1..]).shards);
    }
  }

  lemma {:induction false} SameSelf(shards: seq<E.System>)
    ensures SameApplied(shards, shards)
  {
  }

  lemma {:induction false} SoundDesk(f: Floor, d: Desk)
    requires DeskInv(f, d)
    ensures Sound(f, d)
  {
    hide Sound;
  }
}
