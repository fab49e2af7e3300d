/** What a delivered completion says, over every run: its outcome is what libfabric answered, and every failure has
    its cause among the run's steps. */
module WorkerOutcomes {
  import opened Basics
  import opened AddressTable
  import opened WorkerModel
  import opened WorkerQueues
  import opened WorkerInvariant
  import opened WorkerSteps
  import opened WorkerTraces
  import opened WorkerTheorems
  import opened WorkerStalls

  // ----- Outcomes from events -----

  /** A completion batched or delivered. */
  predicate Answered(q: Queues, c: Completion) {
    c in q.completions || c in q.delivered
  }

  lemma AnsweredIsHonest(s: State, c: Completion)
    requires Invariant(s) && Answered(s.queues, c)
    ensures Honest(s.cfg, s.inbox.requests, c)
  {
    hide Tallied, WellFormed, Productive, ClientsAgree, Honest;
  }

  /** Over every run a transfer is done exactly when libfabric completed it, and its read back if it is a write that
      has to be read back; it is a completion error exactly when the last completion libfabric gave it was a bad one;
      and it is refused at intake exactly for want of an operand, for a short one, or for a range past the address
      space. So nothing that moved is reported failed, nor the other way round. */
  lemma {:induction false} OutcomeIsWhatHappened(
    cfg: Config, states: seq<State>, steps: seq<Step>, i: nat, c: Completion)
    requires FromStart(cfg, states, steps) && i < |states| && Answered(states[i].queues, c)
    ensures var n, r := |c.trail|, c.request;
            && (c.outcome.Done? <==>
                  && 0 < n && c.trail[n - 1] == Reaped(true)
                  && (cfg.quiesceWrites && r.direction.ToPeer? && r.operand.Some? && 0 < r.operand.value ==> n == 4))
            && (c.outcome == Failed(CompletionError) <==> 0 < n && c.trail[n - 1] == Reaped(false))
            && (c.outcome == Failed(NoOperand) <==> r.operand.None?)
            && (c.outcome == Failed(ShortBuffer) <==>
                  r.operand.Some? && r.direction.FromPeer? && r.operand.value < r.direction.length)
            && (c.outcome == Failed(RangeOverflows) <==>
                  && cfg.quiesceWrites && r.direction.ToPeer? && r.operand.Some? && 0 < r.operand.value
                  && 0x1_0000_0000_0000_0000 < r.remote + r.operand.value)
  {
    hide Path, Invariant, Prepare, Proven;
    RunKeepsInvariant(cfg, states, steps, i);
    AnsweredIsHonest(states[i], c);
    assert Reports(cfg, c);
    assert OfIntake(NoOperand) && OfIntake(ShortBuffer) && OfIntake(RangeOverflows);
  }

  // ----- Causes -----

  /** The step took this transfer off the channel. */
  predicate Receives(s: State, step: Step, c: Completion) {
    Arrival(s, step) == Some(c.request) && |s.inbox.requests| == c.id
  }

  /** The step at `j` is why the transfer failed: intake refused it then, or an attempt to post it met this fate, or
      libfabric ended its operation badly. */
  ghost predicate Causes(cfg: Config, states: seq<State>, steps: seq<Step>, j: nat, c: Completion)
    requires c.outcome.Failed?
  {
    && j < |steps| && j < |states|
    && match c.outcome.reason
       case WorkerGone => false
       case CompletionError => c.trail != [] && c.trail[|c.trail| - 1] == Reaped(false)
       case _ =>
         if OfIntake(c.outcome.reason)
         then Receives(states[j], steps[j], c) && RefusedFor(cfg, c.request, c.outcome.reason)
         else
           var a := AttemptOf(states[j], steps[j]);
           && a.Some? && a.value.id == c.id
           && FateOf(cfg.deadline, a.value, FirstStall(states, steps, j, a.value.back, c.id)) == Lost(c.outcome.reason)
  }

  /** What one step answers. */
  lemma NewlyAnswered(s: State, step: Step, c: Completion)
    requires CanTake(s, step) && Answered(Next(s, step).queues, c) && !Answered(s.queues, c) && c.outcome.Failed?
    requires !step.PostNext? && !step.QuiesceNext?
    ensures c.outcome.reason == CompletionError
            || (Receives(s, step, c) && RefusedFor(s.cfg, c.request, c.outcome.reason))
  {
    hide RefusedFor, Prepare, NeedsRead, Introduced, RemoveOrDefer, FinishOp, ShouldFlush, Holds, Idle;
    if Arrival(s, step).Some? {
      var request := Arrival(s, step).value;
      var p := Prepare(s.cfg, |s.inbox.requests|, request);
      if p.Unprepared? {
        RefusedExactlyFor(s.cfg, |s.inbox.requests|, request, p.reason);
      }
    }
  }

  lemma AttemptAnswers(q: Queues, t: Queues, back: bool, fate: Fate, c: Completion)
    requires Meets(q, t, back, fate) && Answered(t, c) && !Answered(q, c) && c.outcome.Failed?
    ensures fate == Lost(c.outcome.reason) && c.id == (if back then q.quiescing[0] else q.pending[0]).id
  {}

  lemma FatesAreOfAPost(deadline: nat, a: Attempt, first: Option<nat>)
    ensures FateOf(deadline, a, first).Lost? ==> OfAPost(FateOf(deadline, a, first).reason)
  {}

  lemma NewFailureHasItsCause(cfg: Config, states: seq<State>, steps: seq<Step>, j: nat, c: Completion)
    requires FromStart(cfg, states, steps) && j < |steps| && c.outcome.Failed?
    requires Answered(states[j + 1].queues, c) && !Answered(states[j].queues, c)
    ensures Causes(cfg, states, steps, j, c)
  {
    hide Next, CanTake, Answerable, Invariant, AttemptOf, FateOf, Meets, Receives, RefusedFor, Answered, Prepare,
      Proven;
    RunKeepsInvariant(cfg, states, steps, j);
    assert Enabled(states[j], steps[j]);
    if steps[j].PostNext? || steps[j].QuiesceNext? {
      AttemptsAreMade(states[j], steps[j]);
      AttemptsMeetTheirFate(cfg, states, steps, j);
      var a := AttemptOf(states[j], steps[j]).value;
      var first := FirstStall(states, steps, j, a.back, a.id);
      AttemptAnswers(states[j].queues, states[j + 1].queues, a.back, FateOf(cfg.deadline, a, first), c);
      FatesAreOfAPost(cfg.deadline, a, first);
    } else {
      NewlyAnswered(states[j], steps[j], c);
      if c.outcome.reason == CompletionError {
        OutcomeIsWhatHappened(cfg, states, steps, j + 1, c);
      } else {
        IntakesReasons(cfg, c.request, c.outcome.reason);
      }
    }
  }

  lemma AttemptsAreMade(s: State, step: Step)
    requires CanTake(s, step) && (step.PostNext? || step.QuiesceNext?)
    ensures AttemptOf(s, step).Some?
  {
    hide Peered;
  }

  /** Over every run nothing fails without its cause: a transfer failed by intake was received with no usable operand;
      one failed for its peer, its registration, a refused post or a stall made an attempt whose answers were just
      that, a stall only with the clock at its first EAGAIN plus the deadline or later; and one failed in flight was
      ended so by libfabric. */
  lemma {:induction false} FailuresHaveTheirCause(
    cfg: Config, states: seq<State>, steps: seq<Step>, i: nat, c: Completion)
    requires FromStart(cfg, states, steps) && i < |states| && Answered(states[i].queues, c) && c.outcome.Failed?
    ensures exists j: nat :: j < i && Causes(cfg, states, steps, j, c)
  {
    hide Next, CanTake, Answerable, Causes, Answered;
    if i == 0 {
      NothingAnswered(cfg, c);
    } else if Answered(states[i - 1].queues, c) {
      FailuresHaveTheirCause(cfg, states, steps, i - 1, c);
    } else {
      NewFailureHasItsCause(cfg, states, steps, i - 1, c);
    }
  }

  lemma NothingAnswered(cfg: Config, c: Completion)
    ensures !Answered(Initial(cfg).queues, c)
  {}

  // ----- Where outcomes are made -----

  /** Checksummed payloads are never hashed on the loop: what it completes inline wanted no checksum, and what the pool
      has wanted one. */
  ghost predicate HashedByThePool(q: Queues) {
    && (forall c | c in q.completions && (c.outcome.Done? || c.outcome == Failed(CompletionError)) ::
          !c.request.wantChecksum)
    && (forall x | x in q.crc || x in q.pool :: x.request.wantChecksum)
  }

  lemma HandlingHashesByThePool(s: State, message: Message, answer: Option<Handle>)
    requires HashedByThePool(s.queues)
    ensures HashedByThePool(Handled(s, message, answer).queues)
  {
    hide Prepare, Introduced, RemoveOrDefer;
    if message.Transfer? {
      var p := Prepare(s.cfg, |s.inbox.requests|, message.request);
      if p.Unprepared? {
        RefusedExactlyFor(s.cfg, |s.inbox.requests|, message.request, p.reason);
      }
    }
  }

  lemma StepHashesByThePool(s: State, step: Step)
    requires CanTake(s, step) && HashedByThePool(s.queues)
    ensures HashedByThePool(Next(s, step).queues)
  {
    hide Handled, NeedsRead, FinishOp, ShouldFlush, Holds, Idle, Advertise, Resolved, Expired, WriteOut, ReadBack,
      Retried, Landed;
    if step.Receive? {
      HandlingHashesByThePool(Popped(s), s.inbox.channel[0], step.answer);
    } else if step.ParkedReceive? {
      HandlingHashesByThePool(Popped(s).(phase := Intake), s.inbox.channel[0], step.answer);
    }
  }

  lemma {:induction false} HashingStaysOffTheLoop(cfg: Config, states: seq<State>, steps: seq<Step>, i: nat)
    requires FromStart(cfg, states, steps) && i < |states|
    ensures HashedByThePool(states[i].queues)
  {
    hide Next, CanTake, Answerable;
    if 0 < i {
      HashingStaysOffTheLoop(cfg, states, steps, i - 1);
      assert Enabled(states[i - 1], steps[i - 1]);
      StepHashesByThePool(states[i - 1], steps[i - 1]);
    }
  }

  // ----- Intake -----

  /** A transfer taken off the channel goes to the back of the queue, unprepared for nothing: with its own number, its
      client's request and address, nothing posted and nothing stalled; or, if and only if intake refuses it, it fails
      at once. */
  lemma {:induction false} ArrivalsAreQueuedOrRefused(
    cfg: Config, states: seq<State>, steps: seq<Step>, i: nat, request: Request)
    requires FromStart(cfg, states, steps) && i < |steps| && Arrival(states[i], steps[i]) == Some(request)
    ensures var q, t, id := states[i].queues, states[i + 1].queues, |states[i].inbox.requests|;
            if forall r: Reason :: !RefusedFor(cfg, request, r)
            then
              && |t.pending| == |q.pending| + 1 && t == q.(pending := q.pending + [t.pending[|q.pending|]])
              && var x := t.pending[|q.pending|];
                 && x.id == id && x.request == request && x.address == request.address
                 && x.trail == [] && x.stalled.None? && request.operand.Some?
                 && x.length == if request.direction.ToPeer? then request.operand.value else request.direction.length
            else exists r: Reason :: RefusedFor(cfg, request, r)
                   && t == q.(completions := q.completions + [Completion(id, request, Failed(r), [])])
  {
    hide Next, CanTake, Answerable, Invariant, RefusedFor, Prepare;
    RunKeepsInvariant(cfg, states, steps, i);
    ArrivalStep(cfg, states, steps, i);
    ArrivesAs(states[i], steps[i], request);
  }

  lemma ArrivalStep(cfg: Config, states: seq<State>, steps: seq<Step>, i: nat)
    requires FromStart(cfg, states, steps) && i < |steps|
    ensures |states| == |steps| + 1 && CanTake(states[i], steps[i]) && states[i + 1] == Next(states[i], steps[i])
  {
    hide Next, CanTake, Answerable;
    assert Enabled(states[i], steps[i]);
  }

  lemma ArrivesAs(s: State, step: Step, request: Request)
    requires CanTake(s, step) && Arrival(s, step) == Some(request)
    ensures var q, t, id := s.queues, Next(s, step).queues, |s.inbox.requests|;
            if forall r: Reason :: !RefusedFor(s.cfg, request, r)
            then
              && |t.pending| == |q.pending| + 1 && t == q.(pending := q.pending + [t.pending[|q.pending|]])
              && var x := t.pending[|q.pending|];
                 && x.id == id && x.request == request && x.address == request.address
                 && x.trail == [] && x.stalled.None? && request.operand.Some?
                 && x.length == if request.direction.ToPeer? then request.operand.value else request.direction.length
            else exists r: Reason :: RefusedFor(s.cfg, request, r)
                   && t == q.(completions := q.completions + [Completion(id, request, Failed(r), [])])
  {
    hide RefusedFor, PlannedRead, Quiesces;
    var p := Prepare(s.cfg, |s.inbox.requests|, request);
    forall r: Reason
      ensures p == Unprepared(r) <==> RefusedFor(s.cfg, request, r)
    {
      RefusedExactlyFor(s.cfg, |s.inbox.requests|, request, r);
    }
    if p.Unprepared? {
      assert RefusedFor(s.cfg, request, p.reason);
    }
  }
}
