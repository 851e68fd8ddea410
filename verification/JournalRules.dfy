/** What the journal lets happen: when a frame is taken and what becomes of it, and that
    worker and sink can always finish what was enqueued. */
module JournalRules {
  import opened Types
  import opened Bytes
  import opened Decisions
  import opened JournalRecords
  import opened Journals

  /** All that the writer asks of a frame. */
  function FrameClauses(setup: Setup, s: Journal, frame: Octets): seq<Clause<EnqueueError>> {
    [Clause(setup.first + |s.enqueued| + 1 < U64_BOUND, SequenceOverflow),
     Clause(|frame| <= MAX_PAYLOAD, PayloadTooLarge),
     Clause(|s.enqueued| < s.popped + RING_CAPACITY, Saturated)]
  }

  /** A frame is enqueued if and only if the writer is open and every clause holds: as one
      more record, under the next sequence number, holding exactly the frame. Nothing else
      of the channel changes. */
  lemma {:induction false} EnqueueDecided(setup: Setup, s: Journal, frame: Octets)
    ensures EnqueueDefect(setup, s, frame) == Verdict(FrameClauses(setup, s, frame))
    ensures var t := Do(setup, s, Enqueue(frame));
            if s.closed || !AllHold(FrameClauses(setup, s, frame)) then t == s
            else
              && |t.enqueued| == |s.enqueued| + 1 && t.enqueued[..|s.enqueued|] == s.enqueued
              && var r := t.enqueued[|s.enqueued|];
              && r.sequence == setup.first + |s.enqueued| && r.Valid() && r.Slice() == frame
              && t == s.(enqueued := t.enqueued, checksums := s.checksums + [Checksum(setup.crc, r)])
  {
    hide Verdict, AllHold, Checksum;
    var c := FrameClauses(setup, s, frame);
    ThreeClauses(c[0], c[1], c[2]);
    VerdictIff(c);
  }

  // Worker and sink can always finish.

  /** Under flushing by batch whatever counts as written counts as durable, but for the
      batch being flushed. */
  ghost predicate Prompt(setup: Setup, s: Journal) {
    setup.policy == EveryBatch && (s.phase.Idle? || s.phase.Collecting? || s.phase.Writing? || s.phase.Publishing?) ==>
      s.nextDurable == s.nextWritten
  }

  lemma {:induction false} PromptKept(setup: Setup, s: Journal, a: Action)
    requires Inv(setup, s) && Prompt(setup, s)
    ensures Prompt(setup, Do(setup, s, a))
  {
    hide EncodeRecord, Ordered, SinkIs, Seen, HeadVerifies, EnqueueDefect, NewRecord, Checksum;
  }

  /** Every interleaving is prompt. */
  lemma {:induction false} ExecPrompt(setup: Setup, s: Journal, actions: seq<Action>)
    requires Inv(setup, s) && Prompt(setup, s) && setup.batch > 0
    ensures Prompt(setup, Exec(setup, s, actions))
    decreases |actions|
  {
    hide Inv, Prompt, Do;
    if actions != [] {
      PromptKept(setup, s, actions[0]);
      StepKeeps(setup, s, actions[0]);
      ExecPrompt(setup, Do(setup, s, actions[0]), actions[1..]);
    }
  }

  /** Steps of the worker and of a sink that takes what it is given. */
  predicate Cooperative(a: Action) {
    a.StartDrain? || a.StartShutdown? || a.Pop? || a.EndCollect? || a.WriteSome? || a.PublishWritten? || a.FlushOk?
    || a.PublishDurable? || a.Complete?
  }

  predicate HasWork(s: Journal) {
    s.popped < |s.enqueued|
  }

  predicate WorkerDone(s: Journal) {
    if s.closed then s.phase.Finished? else s.phase.Idle? && !HasWork(s)
  }

  /** What the worker does next when the sink cooperates. */
  function WorkerStep(setup: Setup, s: Journal): Action {
    match s.phase
    case Idle => if HasWork(s) then StartDrain else StartShutdown
    case Collecting(count, _) => if count < setup.batch && HasWork(s) then Pop else EndCollect
    case Writing(_, _, done, _) => if done < RECORD_SIZE then WriteSome(RECORD_SIZE - done) else Complete
    case Publishing(_) => PublishWritten
    case Flushing(_) => FlushOk
    case FinalFlush => FlushOk
    case Flushed(_) => PublishDurable
    case FinalFlushed => PublishDurable
    case Completing => Complete
    case Finished => Complete
    case Dead => Complete
  }

  /** How far the worker is from done, besides the records still to pop. */
  function WorkerDistance(s: Journal): nat {
    match s.phase
    case Collecting(count, last) => if count > 0 then 13 else if last then 5 else 7
    case Writing(_, _, _, _) => 12
    case Publishing(_) => 11
    case Flushing(_) => 10
    case Flushed(_) => 9
    case Idle => if HasWork(s) then 8 else 6
    case FinalFlush => 4
    case FinalFlushed => 3
    case Completing => 2
    case Finished => 1
    case Dead => 0
  }

  function ToWrite(s: Journal): nat {
    match s.phase
    case Writing(count, index, _, _) => if index < count then count - index else 0
    case _ => 0
  }

  predicate Nearer(s: Journal, t: Journal) {
    var a, b := |t.enqueued| - t.popped, |s.enqueued| - s.popped;
    a < b || (a == b && (WorkerDistance(t) < WorkerDistance(s) || (WorkerDistance(t) == WorkerDistance(s) && ToWrite(t) < ToWrite(s))))
  }

  lemma {:induction false} CollectingAdvances(setup: Setup, s: Journal)
    requires Ordered(setup, s) && WorkerAt(setup, s) && setup.batch > 0 && s.phase.Collecting?
    ensures var t := Do(setup, s, WorkerStep(setup, s));
            t.enqueued == s.enqueued && t.closed == s.closed && Nearer(s, t) && Cooperative(WorkerStep(setup, s))
  {
    hide EncodeRecord, HeadVerifies;
    HeadOrdered(setup, s);
    hide Ordered;
  }

  lemma {:induction false} WritingAdvances(setup: Setup, s: Journal)
    requires Ordered(setup, s) && WorkerAt(setup, s) && s.phase.Writing?
    ensures var t := Do(setup, s, WorkerStep(setup, s));
            t.enqueued == s.enqueued && t.closed == s.closed && Nearer(s, t) && Cooperative(WorkerStep(setup, s))
  {
    hide EncodeRecord;
  }

  /** Such a step brings the worker nearer, and loses nothing. */
  lemma {:induction false} StepAdvances(setup: Setup, s: Journal)
    requires Ordered(setup, s) && WorkerAt(setup, s) && setup.batch > 0 && !s.poisoned && !WorkerDone(s)
    ensures var t := Do(setup, s, WorkerStep(setup, s));
            t.enqueued == s.enqueued && t.closed == s.closed && Nearer(s, t) && Cooperative(WorkerStep(setup, s))
  {
    if s.phase.Collecting? {
      CollectingAdvances(setup, s);
    } else if s.phase.Writing? {
      WritingAdvances(setup, s);
    } else {
      ControlAdvances(setup, s);
    }
    hide WorkerStep, Do, Nearer, Cooperative, Ordered, WorkerAt;
  }

  lemma {:induction false} ControlAdvances(setup: Setup, s: Journal)
    requires WorkerAt(setup, s) && s.popped <= |s.enqueued| && !s.poisoned && !WorkerDone(s) && !s.phase.Collecting? && !s.phase.Writing?
    ensures var t := Do(setup, s, WorkerStep(setup, s));
            t.enqueued == s.enqueued && t.closed == s.closed && Nearer(s, t) && Cooperative(WorkerStep(setup, s))
  {
    hide EncodeRecord;
  }

  lemma {:induction false} HeadOrdered(setup: Setup, s: Journal)
    requires Ordered(setup, s)
    ensures HasWork(s) ==> HeadVerifies(setup, s) && s.enqueued[s.popped].sequence == setup.first + s.popped && setup.first + s.popped + 1 < U64_BOUND
  {
  }

  lemma {:induction false} StaysAlive(setup: Setup, s: Journal)
    requires Ordered(setup, s) && WorkerAt(setup, s) && !s.poisoned && setup.batch > 0
    ensures !Do(setup, s, WorkerStep(setup, s)).poisoned
  {
    hide EncodeRecord, HeadVerifies;
    HeadOrdered(setup, s);
  }

  /** From every reachable state in which nothing has failed yet, worker and sink can finish:
      everything enqueued is written, and durable too once the writer has closed or when
      every batch is flushed. */
  lemma {:induction false} CanFinish(setup: Setup, s: Journal) returns (actions: seq<Action>)
    requires Inv(setup, s) && setup.batch > 0 && !s.poisoned
    ensures forall i :: 0 <= i < |actions| ==> Cooperative(actions[i])
    ensures var t := Exec(setup, s, actions);
            && t.enqueued == s.enqueued && t.closed == s.closed && !t.poisoned && WorkerDone(t) && Inv(setup, t)
            && t.nextWritten == NextSequence(setup, t)
            && (s.closed ==> t.complete)
            && (s.closed || (setup.policy == EveryBatch && Prompt(setup, s)) ==> t.nextDurable == NextSequence(setup, t))
    decreases |s.enqueued| - s.popped, WorkerDistance(s), ToWrite(s)
  {
    hide Inv, Do, Prompt, WorkerDone, Nearer, WorkerDistance, ToWrite, Cooperative, WorkerStep;
    if WorkerDone(s) {
      actions := [];
      DoneIs(setup, s);
    } else {
      var a := WorkerStep(setup, s);
      var t := Do(setup, s, a);
      InvIs(setup, s);
      StepAdvances(setup, s);
      StaysAlive(setup, s);
      StepKeeps(setup, s, a);
      if Prompt(setup, s) {
        PromptKept(setup, s, a);
      }
      InvIs(setup, t);
      NearerIs(s, t);
      var rest := CanFinish(setup, t);
      actions := [a] + rest;
      assert actions[1..] == rest;
    }
  }

  lemma {:induction false} NearerIs(s: Journal, t: Journal)
    requires Nearer(s, t)
    ensures var a, b := |t.enqueued| - t.popped, |s.enqueued| - s.popped;
            a < b || (a == b && (WorkerDistance(t) < WorkerDistance(s) || (WorkerDistance(t) == WorkerDistance(s) && ToWrite(t) < ToWrite(s))))
  {
  }

  lemma {:induction false} InvIs(setup: Setup, s: Journal)
    requires Inv(setup, s)
    ensures Ordered(setup, s) && WorkerAt(setup, s) && s.popped <= |s.enqueued|
  {
  }

  lemma {:induction false} DoneIs(setup: Setup, s: Journal)
    requires Inv(setup, s) && WorkerDone(s)
    ensures s.nextWritten == NextSequence(setup, s) && (s.closed ==> s.complete)
    ensures s.closed || (setup.policy == EveryBatch && Prompt(setup, s)) ==> s.nextDurable == NextSequence(setup, s)
  {
    hide EncodeRecord, SinkIs, Seen;
  }
}
