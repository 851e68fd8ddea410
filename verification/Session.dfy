/** The session state machine: connection lifecycle, inbound sequencing and deadlines in
    virtual time. A refused event changes nothing. */
module Sessions {
  import opened Types
  import opened Decisions

  datatype SessionState = Disconnected | Connecting | Logon | Active | Recovering | Logout | Failed

  datatype SessionEvent =
    | Connect
    | LogonSent
    | LogonAccepted(first: Sequence)
    | CommandReceived(sequence: Sequence)
    | HeartbeatReceived
    | LogoutSent
    | Disconnect
    | Fail

  datatype SessionError =
    | InvalidTransition(state: SessionState, event: SessionEvent)
    | Gap(expected: Sequence, received: Sequence)
    | DuplicateSequence(received: Sequence, expected: Sequence)
    | ArithmeticOverflow

  /** Timeouts in ticks. */
  datatype SessionConfig = SessionConfig(logonTimeout: U64, heartbeatTimeout: U64)

  datatype Transition = Transition(state: SessionState, deadline: Option<U64>)

  /** The fields of a session as a value. */
  datatype Session = Session(state: SessionState, next: Sequence, deadline: Option<U64>, timeouts: nat) {
    predicate AllowsCommands() {
      state.Active? || state.Recovering?
    }

    function Shown(): Transition {
      Transition(state, deadline)
    }
  }

  const FRESH: Session := Session(Disconnected, 1, None, 0)

  // What each event does.

  /** Entering `state` with a deadline `timeout` ticks from `now`. */
  function Armed(s: Session, state: SessionState, timeout: U64, now: U64): Result<Session, SessionError> {
    if now + timeout >= U64_BOUND then Err(SessionError.ArithmeticOverflow)
    else Ok(s.(state := state, deadline := Some(now + timeout)))
  }

  /** Counter, deadline and timeouts back to those of a new session. */
  function Cleared(state: SessionState): Session {
    Session(state, 1, None, 0)
  }

  function CommandAdmitted(cfg: SessionConfig, s: Session, sequence: Sequence, now: U64): Result<Session, SessionError> {
    if sequence < s.next then Err(DuplicateSequence(sequence, s.next))
    else if sequence > s.next then Err(Gap(s.next, sequence))
    else if s.next + 1 >= U64_BOUND then Err(SessionError.ArithmeticOverflow)
    else match Armed(s, Active, cfg.heartbeatTimeout, now)
      case Err(e) => Err(e)
      case Ok(t) => Ok(t.(next := s.next + 1, timeouts := 0))
  }

  function LoggedOn(cfg: SessionConfig, s: Session, first: Sequence, now: U64): Result<Session, SessionError> {
    if first == 0 then Err(SessionError.ArithmeticOverflow)
    else match Armed(s, Active, cfg.heartbeatTimeout, now)
      case Err(e) => Err(e)
      case Ok(t) => Ok(t.(next := first, timeouts := 0))
  }

  function Handled(cfg: SessionConfig, s: Session, event: SessionEvent, now: U64): Result<Session, SessionError> {
    match (s.state, event)
    case (Disconnected, Connect) => Ok(s.(state := Connecting, deadline := None))
    case (Connecting, LogonSent) => Armed(s, Logon, cfg.logonTimeout, now)
    case (Logon, LogonAccepted(first)) => LoggedOn(cfg, s, first, now)
    case (Active, CommandReceived(sequence)) => CommandAdmitted(cfg, s, sequence, now)
    case (Recovering, CommandReceived(sequence)) => CommandAdmitted(cfg, s, sequence, now)
    case (Active, HeartbeatReceived) => Armed(s, Active, cfg.heartbeatTimeout, now)
    case (_, LogoutSent) =>
      if s.state.Connecting? || s.state.Logon? || s.AllowsCommands() then Ok(s.(state := Logout, deadline := None))
      else Err(InvalidTransition(s.state, event))
    case (_, Disconnect) => if s.state.Failed? then Err(InvalidTransition(s.state, event)) else Ok(Cleared(Disconnected))
    case (_, Fail) => Ok(Cleared(Failed))
    case _ => Err(InvalidTransition(s.state, event))
  }

  /** Virtual time reaches `now`. */
  function Ticked(cfg: SessionConfig, s: Session, now: U64): Result<Session, SessionError> {
    if s.deadline.None? || now < s.deadline.value then Ok(s)
    else match s.state
      case Logon => Ok(Cleared(Failed))
      case Active =>
        (match Armed(s, Recovering, cfg.heartbeatTimeout, now)
         case Err(e) => Err(e)
         case Ok(t) => Ok(t.(timeouts := s.timeouts + 1)))
      case Recovering => Ok(Cleared(Failed))
      case _ => Ok(s)
  }

  /** The machine, updated in place. */
  class SessionStateMachine {
    const config: SessionConfig
    var state: SessionState
    var next: Sequence
    var deadline: Option<U64>
    var timeouts: nat

    function View(): Session
      reads this
    {
      Session(state, next, deadline, timeouts)
    }

    constructor (config: SessionConfig)
      ensures this.config == config && View() == FRESH
    {
      this.config := config;
      state, next, deadline, timeouts := Disconnected, 1, None, 0;
    }

    method Enter(state: SessionState, deadline: Option<U64>) returns (r: Transition)
      modifies this
      ensures View() == old(View()).(state := state, deadline := deadline) && r == View().Shown()
    {
      this.state := state;
      this.deadline := deadline;
      r := Transition(state, deadline);
    }

    method Arm(state: SessionState, timeout: U64, now: U64) returns (r: Result<Transition, SessionError>)
      modifies this
      ensures Became(r, old(View()), Armed(old(View()), state, timeout, now))
    {
      if now + timeout >= U64_BOUND {
        return Err(SessionError.ArithmeticOverflow);
      }
      this.state := state;
      deadline := Some(now + timeout);
      r := Ok(Transition(state, deadline));
    }

    method Reset()
      modifies this
      ensures View() == Cleared(old(state)).(state := old(state))
    {
      next, deadline, timeouts := 1, None, 0;
    }

    /** The machine became `outcome`, or refused and is still `before`. */
    predicate Became(r: Result<Transition, SessionError>, before: Session, outcome: Result<Session, SessionError>)
      reads this
    {
      match outcome
      case Err(e) => r == Err(e) && View() == before
      case Ok(s) => r == Ok(s.Shown()) && View() == s
    }

    method Handle(event: SessionEvent, now: U64) returns (r: Result<Transition, SessionError>)
      modifies this
      ensures Became(r, old(View()), Handled(config, old(View()), event, now))
    {
      match event {
        case Connect =>
          if state.Disconnected? {
            var t := Enter(Connecting, None);
            return Ok(t);
          }
        case LogonSent =>
          if state.Connecting? {
            r := Arm(Logon, config.logonTimeout, now);
            return;
          }
        case LogonAccepted(first) =>
          if state.Logon? {
            if first == 0 {
              return Err(SessionError.ArithmeticOverflow);
            }
            r := Arm(Active, config.heartbeatTimeout, now);
            if r.Ok? {
              next, timeouts := first, 0;
            }
            return;
          }
        case CommandReceived(sequence) =>
          if state.Active? || state.Recovering? {
            if sequence < next {
              return Err(DuplicateSequence(sequence, next));
            }
            if sequence > next {
              return Err(Gap(next, sequence));
            }
            if next + 1 >= U64_BOUND {
              return Err(SessionError.ArithmeticOverflow);
            }
            r := Arm(Active, config.heartbeatTimeout, now);
            if r.Ok? {
              next, timeouts := next + 1, 0;
            }
            return;
          }
        case HeartbeatReceived =>
          if state.Active? {
            r := Arm(Active, config.heartbeatTimeout, now);
            return;
          }
        case LogoutSent =>
          if state.Connecting? || state.Logon? || state.Active? || state.Recovering? {
            var t := Enter(Logout, None);
            return Ok(t);
          }
        case Disconnect =>
          if !state.Failed? {
            Reset();
            var t := Enter(Disconnected, None);
            return Ok(t);
          }
        case Fail =>
          Reset();
          var t := Enter(Failed, None);
          return Ok(t);
      }
      r := Err(InvalidTransition(state, event));
    }

    method Tick(now: U64) returns (r: Result<Transition, SessionError>)
      modifies this
      ensures Became(r, old(View()), Ticked(config, old(View()), now))
    {
      if deadline.None? || now < deadline.value {
        return Ok(Transition(state, deadline));
      }
      match state {
        case Logon =>
          Reset();
          var t := Enter(Failed, None);
          r := Ok(t);
        case Active =>
          if now + config.heartbeatTimeout >= U64_BOUND {
            return Err(SessionError.ArithmeticOverflow);
          }
          timeouts := timeouts + 1;
          var t := Enter(Recovering, Some(now + config.heartbeatTimeout));
          r := Ok(t);
        case Recovering =>
          timeouts := timeouts + 1;
          Reset();
          var t := Enter(Failed, None);
          r := Ok(t);
        case _ => r := Ok(Transition(state, deadline));
      }
    }
  }

  // What every run keeps.

  /** A deadline is armed exactly while one is awaited, the timeout count is what the state
      says, and only a logged-on session has a counter of its own. */
  predicate SoundSession(s: Session) {
    && s.next >= 1
    && match s.state
       case Disconnected | Connecting | Failed => s == Cleared(s.state)
       case Logon => s.next == 1 && s.deadline.Some? && s.timeouts == 0
       case Active => s.deadline.Some? && s.timeouts == 0
       case Recovering => s.deadline.Some? && s.timeouts == 1
       case Logout => s.deadline.None? && s.timeouts <= 1
  }

  lemma {:induction false} HandledKeeps(cfg: SessionConfig, s: Session, event: SessionEvent, now: U64)
    requires SoundSession(s) && Handled(cfg, s, event, now).Ok?
    ensures SoundSession(Handled(cfg, s, event, now).value)
  {
    match event
    case LogonAccepted(first) => assert first != 0 || !s.state.Logon?;
    case _ =>
  }

  lemma {:induction false} TickedKeeps(cfg: SessionConfig, s: Session, now: U64)
    requires SoundSession(s) && Ticked(cfg, s, now).Ok?
    ensures SoundSession(Ticked(cfg, s, now).value)
  {
    hide Handled;
    var t := Ticked(cfg, s, now).value;
    assert t.state.Recovering? && !s.state.Recovering? ==> t.timeouts == 1;
  }

  // Every event as clauses and effect.

  /** What an event asks of the session, in the order of checking. */
  function EventClauses(cfg: SessionConfig, s: Session, event: SessionEvent, now: U64): seq<Clause<SessionError>> {
    var wrong := InvalidTransition(s.state, event);
    var beats := Clause(now + cfg.heartbeatTimeout < U64_BOUND, SessionError.ArithmeticOverflow);
    match event
    case Connect => [Clause(s.state == Disconnected, wrong)]
    case LogonSent => [Clause(s.state == Connecting, wrong), Clause(now + cfg.logonTimeout < U64_BOUND, SessionError.ArithmeticOverflow)]
    case LogonAccepted(first) => [Clause(s.state == Logon, wrong), Clause(first > 0, SessionError.ArithmeticOverflow), beats]
    case CommandReceived(sequence) =>
      [Clause(s.state == Active || s.state == Recovering, wrong),
       Clause(sequence >= s.next, DuplicateSequence(sequence, s.next)),
       Clause(sequence <= s.next, Gap(s.next, sequence)),
       Clause(s.next + 1 < U64_BOUND, SessionError.ArithmeticOverflow), beats]
    case HeartbeatReceived => [Clause(s.state == Active, wrong), beats]
    case LogoutSent => [Clause(s.state != Disconnected && s.state != Logout && s.state != Failed, wrong)]
    case Disconnect => [Clause(s.state != Failed, wrong)]
    case Fail => []
  }

  /** Where an accepted event leads: state, counter, deadline and missed heartbeats. */
  predicate EventLeads(cfg: SessionConfig, s: Session, event: SessionEvent, now: U64, t: Session) {
    match event
    case Connect => t.state == Connecting && t.next == s.next && t.deadline == None && t.timeouts == s.timeouts
    case LogonSent => t.state == Logon && t.next == s.next && Deadline(t, now, cfg.logonTimeout) && t.timeouts == s.timeouts
    case LogonAccepted(first) => t.state == Active && t.next == first && Deadline(t, now, cfg.heartbeatTimeout) && t.timeouts == 0
    case CommandReceived(sequence) => t.state == Active && t.next == sequence + 1 && Deadline(t, now, cfg.heartbeatTimeout) && t.timeouts == 0
    case HeartbeatReceived => t.state == Active && t.next == s.next && Deadline(t, now, cfg.heartbeatTimeout) && t.timeouts == s.timeouts
    case LogoutSent => t.state == Logout && t.next == s.next && t.deadline == None && t.timeouts == s.timeouts
    case Disconnect => t.state == Disconnected && t.next == 1 && t.deadline == None && t.timeouts == 0
    case Fail => t.state == Failed && t.next == 1 && t.deadline == None && t.timeouts == 0
  }

  predicate Deadline(t: Session, now: U64, timeout: U64) {
    t.deadline.Some? && t.deadline.value == now + timeout
  }

  /** Every event in every state: accepted if and only if all its clauses hold, refused
      with the first that fails, and with the effect of its kind. */
  lemma {:induction false} HandledDecided(cfg: SessionConfig, s: Session, event: SessionEvent, now: U64)
    ensures match Handled(cfg, s, event, now)
            case Ok(t) => AllHold(EventClauses(cfg, s, event, now)) && EventLeads(cfg, s, event, now, t)
            case Err(e) => Verdict(EventClauses(cfg, s, event, now)) == Some(e)
  {
    hide Verdict, AllHold;
    var c := EventClauses(cfg, s, event, now);
    VerdictIff(c);
    NoClauses<SessionError>();
    match event
    case Connect => OneClause(c[0]);
    case LogonSent => TwoClauses(c[0], c[1]);
    case LogonAccepted(first) => ThreeClauses(c[0], c[1], c[2]);
    case CommandReceived(sequence) => FiveClauses(c[0], c[1], c[2], c[3], c[4]);
    case HeartbeatReceived => TwoClauses(c[0], c[1]);
    case LogoutSent => OneClause(c[0]);
    case Disconnect => OneClause(c[0]);
    case Fail =>
  }

  /** A due deadline in full: waiting for logon or recovering it fails the session, active
      it counts the missed heartbeat and waits once more. */
  lemma {:induction false} TickDecided(cfg: SessionConfig, s: Session, now: U64)
    requires SoundSession(s) && s.deadline.Some? && s.deadline.value <= now
    ensures match Ticked(cfg, s, now)
            case Ok(t) =>
              if s.state == Active then
                t.state == Recovering && t.next == s.next && Deadline(t, now, cfg.heartbeatTimeout) && t.timeouts == s.timeouts + 1
              else t.state == Failed && t.next == 1 && t.deadline == None && t.timeouts == 0
            case Err(e) => e == SessionError.ArithmeticOverflow && s.state == Active && now + cfg.heartbeatTimeout >= U64_BOUND
    ensures Ticked(cfg, s, now).Ok? <==> s.state != Active || now + cfg.heartbeatTimeout < U64_BOUND
  {
    hide Handled;
  }

  /** When exactly a command is admitted, and what that changes. */
  lemma {:induction false} CommandAdmittedIff(cfg: SessionConfig, s: Session, sequence: Sequence, now: U64)
    ensures var r := Handled(cfg, s, CommandReceived(sequence), now);
            && (r.Ok? <==> s.AllowsCommands() && sequence == s.next && s.next + 1 < U64_BOUND && now + cfg.heartbeatTimeout < U64_BOUND)
            && (r.Ok? ==> r.value == Session(Active, s.next + 1, Some(now + cfg.heartbeatTimeout), 0))
  {
    match s.state
    case Active =>
    case Recovering =>
    case _ =>
  }

  /** Only an admitted command advances the counter; any other event leaves it, restarts it
      at a logon's first sequence, or clears it. */
  lemma {:induction false} CounterMoves(cfg: SessionConfig, s: Session, event: SessionEvent, now: U64)
    requires Handled(cfg, s, event, now).Ok?
    ensures Handled(cfg, s, event, now).value.next ==
              match event
              case CommandReceived(_) => s.next + 1
              case LogonAccepted(first) => first
              case Disconnect | Fail => 1
              case _ => s.next
    ensures Handled(cfg, s, event, now).value.AllowsCommands() ==>
              event.CommandReceived? || event.LogonAccepted? || (event.HeartbeatReceived? && s.state.Active?)
  {
    match s.state
    case Active =>
    case Recovering =>
    case _ =>
  }

  /** A failed session stays failed. */
  lemma {:induction false} FailedForever(cfg: SessionConfig, s: Session, event: SessionEvent, now: U64)
    requires SoundSession(s) && s.state.Failed?
    ensures Handled(cfg, s, event, now).Ok? ==> Handled(cfg, s, event, now).value == s
    ensures Ticked(cfg, s, now) == Ok(s)
  {
    match event
    case Disconnect =>
    case _ =>
  }

  /** Two heartbeat deadlines in a row fail the session; a command in between saves it. */
  lemma {:induction false} TwoTimeoutsFail(cfg: SessionConfig, s: Session, first: U64, second: U64)
    requires SoundSession(s) && s.state.Active? && s.deadline.value <= first && first + cfg.heartbeatTimeout < U64_BOUND
    ensures Ticked(cfg, s, first).Ok?
    ensures var t := Ticked(cfg, s, first).value;
            && t.state.Recovering?
            && Ticked(cfg, t, second) == Ok(if second < first + cfg.heartbeatTimeout then t else Cleared(Failed))
            && (s.next + 1 < U64_BOUND && second + cfg.heartbeatTimeout < U64_BOUND ==>
                  Handled(cfg, t, CommandReceived(s.next), second) == Ok(Session(Active, s.next + 1, Some(second + cfg.heartbeatTimeout), 0)))
  {
    var t := Ticked(cfg, s, first).value;
    CommandAdmittedIff(cfg, t, s.next, second);
    hide Handled;
  }

  // Deadlines cannot be disabled.

  /** The timeout with which an accepted event arms a deadline. */
  function TimeoutOf(cfg: SessionConfig, event: SessionEvent): Option<U64> {
    match event
    case LogonSent => Some(cfg.logonTimeout)
    case LogonAccepted(_) | CommandReceived(_) | HeartbeatReceived => Some(cfg.heartbeatTimeout)
    case _ => None
  }

  /** A tick leaves a session alone if and only if no deadline is armed or the armed one is
      still ahead. From the deadline on, the tick moves on to another state, or is refused
      because the deadline it would arm next does not fit 64 bits. */
  lemma {:induction false} DueIff(cfg: SessionConfig, s: Session, now: U64)
    requires SoundSession(s)
    ensures Ticked(cfg, s, now) == Ok(s) <==> s.deadline.None? || now < s.deadline.value
    ensures s.deadline.Some? && s.deadline.value <= now ==>
              match Ticked(cfg, s, now)
              case Ok(t) => t.state == if s.state.Active? then Recovering else Failed
              case Err(e) => s.state.Active? && now + cfg.heartbeatTimeout >= U64_BOUND
  {
    hide Handled;
  }

  /** Whatever arms it, and for every timeout: after an accepted event at `now`, a tick at
      `later` leaves the session alone if and only if the event arms nothing or `later` comes
      before the timeout has passed. */
  lemma {:induction false} DueAfterEvent(cfg: SessionConfig, s: Session, event: SessionEvent, now: U64, later: U64)
    requires SoundSession(s) && Handled(cfg, s, event, now).Ok?
    ensures var t := Handled(cfg, s, event, now).value;
            && (t.deadline == match TimeoutOf(cfg, event)
                              case None => None
                              case Some(timeout) => Some(now + timeout))
            && (Ticked(cfg, t, later) == Ok(t) <==> TimeoutOf(cfg, event).None? || later < now + TimeoutOf(cfg, event).value)
  {
    HandledKeeps(cfg, s, event, now);
    DueIff(cfg, Handled(cfg, s, event, now).value, later);
    hide Ticked, SoundSession;
    match event
    case LogonAccepted(first) => assert s.state.Logon?;
    case CommandReceived(sequence) => assert s.AllowsCommands();
    case _ =>
  }

  /** The same for the deadline that a missed heartbeat arms. */
  lemma {:induction false} DueAfterTick(cfg: SessionConfig, s: Session, now: U64, later: U64)
    requires SoundSession(s) && Ticked(cfg, s, now).Ok? && Ticked(cfg, s, now).value.state.Recovering? && s.state.Active?
    ensures var t := Ticked(cfg, s, now).value;
            t.deadline == Some(now + cfg.heartbeatTimeout) && (Ticked(cfg, t, later) == Ok(t) <==> later < now + cfg.heartbeatTimeout)
  {
    TickedKeeps(cfg, s, now);
    DueIff(cfg, Ticked(cfg, s, now).value, later);
    hide Handled, SoundSession;
  }

  /** No configuration disables a deadline: every session that awaits logon, heartbeat or
      recovery has one, and it fires. A timeout of zero fires at the very tick that armed
      it: a zero logon timeout fails the session at once, a zero heartbeat timeout within
      two ticks of the same instant. */
  lemma {:induction false} ZeroIsDueAtOnce(cfg: SessionConfig, s: Session, event: SessionEvent, now: U64)
    requires SoundSession(s) && Handled(cfg, s, event, now).Ok? && TimeoutOf(cfg, event) == Some(0)
    ensures var t := Handled(cfg, s, event, now).value;
            if event.LogonSent? then Ticked(cfg, t, now) == Ok(Cleared(Failed))
            else
              var u := Session(Recovering, t.next, Some(now), 1);
              Ticked(cfg, t, now) == Ok(u) && Ticked(cfg, u, now) == Ok(Cleared(Failed))
  {
    DueAfterEvent(cfg, s, event, now, now);
    HandledKeeps(cfg, s, event, now);
    match event
    case LogonAccepted(first) => assert s.state.Logon?;
    case CommandReceived(sequence) => assert s.AllowsCommands();
    case _ =>
  }
}
