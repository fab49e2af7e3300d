/** What a run of the worker promises its callers: what a success means, that counters never run out, and
    how long anything can be held back. */
module WorkerBounds {
  import opened Basics
  import opened AddressTable
  import opened WorkerModel
  import opened WorkerQueues
  import opened WorkerInvariant
  import opened WorkerAccounts
  import opened WorkerTheorems

  // ----- Success -----

  /** The history of a quiesced write that may report success: the write posted and completed, then the
      read of its last byte posted to the same address and key, and completed. */
  ghost predicate WrittenAndReadBack(request: Request, length: nat, trail: seq<Event>) {
    && 0 < length && |trail| == 4 && trail[0].Posted? && trail[2].Posted?
    && trail[0].peer.address == trail[2].peer.address == request.address
    && trail == [Posted(Write, trail[0].peer, request.key, request.remote, length), Reaped(true),
                 Posted(Read, trail[2].peer, request.key, request.remote + length - 1, 1), Reaped(true)]
    && request.remote + length - 1 < U64
  }

  ghost predicate MovedOnce(request: Request, length: nat, trail: seq<Event>) {
    && |trail| == 2 && trail[0].Posted? && trail[0].peer.address == request.address
    && trail == [Posted(if request.direction.ToPeer? then Write else Read,
                        trail[0].peer, request.key, request.remote, length),
                 Reaped(true)]
  }

  /** The length a transfer may report: its operand's, which covers what was asked for. */
  predicate WholeLength(request: Request, length: nat) {
    request.operand.Some?
    && match request.direction
       case ToPeer => length == request.operand.value
       case FromPeer(asked) => length == asked <= request.operand.value
  }

  lemma ProvenIs(cfg: Config, id: nat, request: Request, length: nat, trail: seq<Event>)
    requires Proven(cfg, id, request, length, trail)
    ensures if Quiesces(cfg, request, length) then WrittenAndReadBack(request, length, trail)
            else MovedOnce(request, length, trail)
  {}

  lemma PreparedWhole(cfg: Config, id: nat, request: Request)
    requires Prepare(cfg, id, request).Ready?
    ensures WholeLength(request, Prepare(cfg, id, request).item.length)
  {}

  /** A transfer is reported done only if libfabric completed it, whole; a write that must be quiesced only if
      its last byte was read back afterwards; and with a checksum exactly when one was asked for. */
  lemma {:induction false} SuccessIsProven(cfg: Config, states: seq<State>, steps: seq<Step>, i: nat, c: Completion)
    requires FromStart(cfg, states, steps) && i < |states|
    requires c in states[i].queues.delivered && c.outcome.Done?
    ensures WholeLength(c.request, c.outcome.bytes)
    ensures cfg.quiesceWrites && c.request.direction.ToPeer? && 0 < c.outcome.bytes ==>
              WrittenAndReadBack(c.request, c.outcome.bytes, c.trail)
    ensures !(cfg.quiesceWrites && c.request.direction.ToPeer? && 0 < c.outcome.bytes) ==>
              MovedOnce(c.request, c.outcome.bytes, c.trail)
    ensures c.outcome.checksum == if c.request.wantChecksum then Some(cfg.digest(c.id)) else None
  {
    hide Path, Prepare, Proven, WrittenAndReadBack, MovedOnce, WholeLength, Next, Unposted, OnFirst, AwaitingRead,
      OnRead, Back, Hashing,
      Tallied, ClientsAgree, WellFormed, Productive, Scheduled, Settled;
    RunKeepsInvariant(cfg, states, steps, i);
    assert Honest(cfg, states[i].inbox.requests, c);
    ProvenIs(cfg, c.id, c.request, c.outcome.bytes, c.trail);
    PreparedWhole(cfg, c.id, c.request);
  }

  // ----- Delivery -----

  lemma StepOnlyDelivers(s: State, step: Step)
    requires CanTake(s, step)
    ensures s.queues.delivered <= Next(s, step).queues.delivered
    ensures s.inbox.requests <= Next(s, step).inbox.requests
  {
    hide Judge, Prepare, Advertise, FinishOp, RemoveOrDefer, Introduced, IntoCompletion, WriteOut, ReadBack, Retried,
      Landed;
  }

  /** What is delivered stays delivered, and what was received keeps its number. */
  lemma {:induction false} DeliveryIsFinal(cfg: Config, states: seq<State>, steps: seq<Step>, i: nat, j: nat)
    requires FromStart(cfg, states, steps) && i <= j < |states|
    ensures states[i].queues.delivered <= states[j].queues.delivered
    ensures states[i].inbox.requests <= states[j].inbox.requests
    decreases j - i
  {
    hide Next, CanTake, Answerable;
    if i < j {
      DeliveryIsFinal(cfg, states, steps, i, j - 1);
      assert Enabled(states[j - 1], steps[j - 1]);
      StepOnlyDelivers(states[j - 1], steps[j - 1]);
    }
  }

  // ----- Counters -----

  /** The client an operation of which finishes in this step, and how many operations the reap took. */
  predicate Finishes(s: State, step: Step, c: Client) {
    || (step.Dispatch? && s.queues.reaped != [] && s.queues.reaped[0].request.client == c)
    || (step.PostNext? && s.queues.pending != [] && s.queues.pending[0].request.client == c)
    || (step.QuiesceNext? && s.queues.quiescing != [] && s.queues.quiescing[0].request.client == c)
  }

  /** No subtraction in the loop ever has to stop at zero: the shared tally covers every operation finished
      and every transfer refused at intake, each client's count its own, and the pipeline depth every reap. */
  lemma {:induction false} NothingSaturates(cfg: Config, states: seq<State>, steps: seq<Step>, i: nat, c: Client)
    requires FromStart(cfg, states, steps) && i < |steps|
    ensures var s, step := states[i], steps[i];
            && (Finishes(s, step, c) ==>
                  0 < s.accounts.outstanding && c in s.accounts.byClient && 0 < s.accounts.byClient[c])
            && ((step.Receive? || step.ParkedReceive?) && s.inbox.channel[0].Transfer? ==> 0 < s.accounts.outstanding)
            && (step.ReapDone? ==> |s.queues.reaped| <= s.loop.inFlight)
  {
    hide Next, OpsOf, Traced, Tallied, WellFormed, Productive, Answerable;
    var s, step := states[i], steps[i];
    RunKeepsInvariant(cfg, states, steps, i);
    assert Enabled(s, step);
    CountsArePositive(s);
    if Finishes(s, step, c) {
      var x := if step.Dispatch? then s.queues.reaped[0] else if step.PostNext? then s.queues.pending[0]
        else s.queues.quiescing[0];
      MemberIsOutstanding(s.queues, x);
    }
  }

  /** How deep a pipeline the worker runs: the configured cap, at least one and 64 when nothing is configured,
      or the provider's transmit queue if that has a fixed depth and is shallower. */
  function InFlightCap(configured: Option<nat>, maxTx: nat): (cap: nat)
    ensures 0 < cap && (0 < maxTx ==> cap <= maxTx)
    ensures configured.None? ==> cap <= 64 && (cap == 64 || cap == maxTx)
    ensures configured.Some? && 0 < configured.value ==>
              cap <= configured.value && (cap == configured.value || cap == maxTx)
    ensures configured == Some(0) ==> cap == 1
  {
    var requested := Max(if configured.Some? then configured.value else 64, 1);
    if maxTx == 0 then requested else if requested <= maxTx then requested else maxTx
  }

  /** First-phase operations never exceed the cap, and without quiesce reads nothing does. */
  lemma {:induction false} PipelineStaysBounded(cfg: Config, states: seq<State>, steps: seq<Step>, i: nat)
    requires FromStart(cfg, states, steps) && i < |states|
    ensures |states[i].queues.first| <= cfg.cap
    ensures !cfg.quiesceWrites ==> states[i].loop.inFlight <= cfg.cap
    ensures states[i].loop.inFlight == |states[i].queues.first| + |states[i].queues.readBacks|
                                       + (if states[i].phase.Reaping? then |states[i].queues.reaped| else 0)
  {
    hide Next, Path, Traced, Tallied, WellFormed, Productive;
    RunKeepsInvariant(cfg, states, steps, i);
  }

  /** A step takes the pipeline past the cap exactly when it posts a quiesce read at the cap: that post is
      the one with no check. */
  lemma CapExceededExactlyWhen(s: State, step: Step)
    requires CanTake(s, step) && s.loop.inFlight <= s.cfg.cap
    ensures s.cfg.cap < Next(s, step).loop.inFlight <==>
            && step.QuiesceNext? && s.loop.inFlight == s.cfg.cap
            && Judge(s.cfg, s.accounts.peers, s.queues.quiescing[0], s.queues.quiescing[0].read.value.address.value,
                     step.read).Goes?
  {
    hide Judge, Prepare, Advertise, FinishOp, RemoveOrDefer, Sorted, Reap, PoolDone, Complete, WriteOut, ReadBack,
      Retried;
  }

  // ----- Holding back -----

  predicate HoldsAt(s: State, step: Step) {
    step.Batch? && Holds(|s.queues.completions|, s.loop.spins)
  }

  predicate DeliversAt(s: State, step: Step) {
    step.Batch? && !Holds(|s.queues.completions|, s.loop.spins) && s.queues.completions != []
  }

  /** How many passes from `i` up to `j` held their completions back. */
  function Held(states: seq<State>, steps: seq<Step>, i: nat, j: nat): nat
    requires i <= j <= |steps| <= |states|
    decreases j - i
  {
    if i == j then 0 else Held(states, steps, i, j - 1) + if HoldsAt(states[j - 1], steps[j - 1]) then 1 else 0
  }

  lemma SpinsCount(s: State, step: Step)
    requires CanTake(s, step) && !DeliversAt(s, step)
    ensures Next(s, step).loop.spins == s.loop.spins + if HoldsAt(s, step) then 1 else 0
  {
    hide Judge, Prepare, Advertise, FinishOp, RemoveOrDefer, Sorted, Reap, PoolDone, Complete, WriteOut, ReadBack,
      Retried;
  }

  lemma {:induction false} SpinsCountHolding(cfg: Config, states: seq<State>, steps: seq<Step>, i: nat, j: nat)
    requires FromStart(cfg, states, steps) && i <= j < |states|
    requires forall k | i <= k < j :: !DeliversAt(states[k], steps[k])
    ensures states[j].loop.spins == states[i].loop.spins + Held(states, steps, i, j)
    decreases j - i
  {
    hide Next, CanTake, Answerable, HoldsAt, DeliversAt;
    if i < j {
      SpinsCountHolding(cfg, states, steps, i, j - 1);
      assert Enabled(states[j - 1], steps[j - 1]);
      SpinsCount(states[j - 1], steps[j - 1]);
    }
  }

  /** Between two deliveries at most ten passes hold completions back. */
  lemma {:induction false} HoldingIsShort(cfg: Config, states: seq<State>, steps: seq<Step>, i: nat, j: nat)
    requires FromStart(cfg, states, steps) && i <= j < |states|
    requires forall k | i <= k < j :: !DeliversAt(states[k], steps[k])
    ensures Held(states, steps, i, j) <= MAX_SPINS
  {
    hide Path, Next, DeliversAt, Held, Traced, Tallied, WellFormed, Productive, OutstandingAgrees;
    SpinsCountHolding(cfg, states, steps, i, j);
    RunKeepsInvariant(cfg, states, steps, j);
  }

  /** From a flush check to the next dispatch fewer than ten transfers await their checksum, never twenty;
      a reap takes at most ten; and passes are counted only while a completion waits. */
  lemma {:induction false} BatchesStaySmall(cfg: Config, states: seq<State>, steps: seq<Step>, i: nat)
    requires FromStart(cfg, states, steps) && i < |states|
    ensures var s := states[i];
            && (!s.phase.Dispatching? && !s.phase.Quiescing? && !s.phase.Flushing? ==>
                  |s.queues.crc| < TARGET_COMPLETIONS)
            && |s.queues.crc| < 2 * TARGET_COMPLETIONS && |s.queues.reaped| <= TARGET_COMPLETIONS
            && (s.queues.completions == [] ==> s.loop.spins == 0)
  {
    hide Path, Next, Traced, Tallied, WellFormed, Productive, OutstandingAgrees;
    RunKeepsInvariant(cfg, states, steps, i);
  }

  /** Posting, reaping and failing are bounded by intake: eight moves for each transfer received. */
  lemma {:induction false} MovesAreBounded(cfg: Config, states: seq<State>, steps: seq<Step>, i: nat)
    requires FromStart(cfg, states, steps) && i < |states|
    ensures states[i].loop.moves + Work(states[i].queues) <= 8 * |states[i].inbox.requests|
  {
    hide Path, Next, Traced, Tallied, WellFormed, Productive, OutstandingAgrees, Work;
    RunKeepsInvariant(cfg, states, steps, i);
  }

  // ----- Never stuck -----

  /** The loop can always take a step, whatever the environment answers, unless it has returned or is parked
      on an empty channel that may still be written to. */
  lemma {:induction false} NeverStuck(cfg: Config, states: seq<State>, steps: seq<Step>, i: nat) returns (step: Step)
    requires FromStart(cfg, states, steps) && i < |states|
    requires !states[i].phase.Stopped?
    requires states[i].phase.Parked? ==> states[i].inbox.channel != [] || states[i].inbox.closed
    ensures Enabled(states[i], step) && !Outside(step)
  {
    hide Path, Next, Invariant, Traced, Onward, CanTake, Answerable;
    RunKeepsInvariant(cfg, states, steps, i);
    if MayReap(states[i]) {
      step := HeadCanBeReaped(states[i]);
    } else {
      step := Onward(states[i]);
      OnwardCanBeTaken(states[i]);
      NoAnswerIsPossible(states[i], step);
    }
  }

  predicate MayReap(s: State) {
    s.phase.Reaping? && |s.queues.reaped| < TARGET_COMPLETIONS && !s.cq.fault && s.cq.entries != []
  }

  /** What is ready names an operation libfabric holds, so it can be taken. */
  lemma HeadCanBeReaped(s: State) returns (step: Step)
    requires Invariant(s) && MayReap(s)
    ensures step.ReapOne? && Enabled(s, step)
  {
    hide Tallied, WellFormed, Productive, OutstandingAgrees, ClientsAgree, Traced;
    var id := s.cq.entries[0].id;
    ReadyIsOnTheWire(s);
    var fromReads := exists x :: x in s.queues.readBacks && x.id == id;
    var q := if fromReads then s.queues.readBacks else s.queues.first;
    var x :| x in q && x.id == id;
    var index: nat :| index < |q| && q[index] == x;
    step := ReapOne(fromReads, index, s.cq.entries[0].ok);
  }

  lemma ReadyIsOnTheWire(s: State)
    requires Invariant(s) && s.cq.entries != []
    ensures (exists x :: x in s.queues.first && x.id == s.cq.entries[0].id)
            || (exists x :: x in s.queues.readBacks && x.id == s.cq.entries[0].id)
  {
    hide Tallied, WellFormed, Productive, OutstandingAgrees, ClientsAgree, Traced;
    var id := s.cq.entries[0].id;
    assert ReadyIds(s.cq.entries)[0] == id;
    assert id in IdBag(s.queues.first) + IdBag(s.queues.readBacks);
    if id in IdBag(s.queues.first) {
      InBagIsIn(s.queues.first, id);
    } else {
      InBagIsIn(s.queues.readBacks, id);
    }
  }

  lemma InBagIsIn(q: seq<Item>, id: nat)
    requires id in IdBag(q)
    ensures exists x :: x in q && x.id == id
  {
    var k :| 0 <= k < |q| && Ids(q)[k] == id;
    assert q[k] in q;
  }

  lemma OnwardCanBeTaken(s: State)
    requires Invariant(s) && !s.phase.Stopped? && (s.phase.Parked? ==> s.inbox.channel != [] || s.inbox.closed)
    requires !MayReap(s)
    ensures CanTake(s, Onward(s)) && !Outside(Onward(s))
  {
    hide Invariant;
    PassesFit(s);
  }

  /** A pass over a queue covers no more than it holds, and what waits for its read knows where that goes. */
  lemma PassesFit(s: State)
    requires Invariant(s)
    ensures s.phase.Posting? ==> s.phase.attempts <= |s.queues.pending|
    ensures s.phase.Quiescing? ==> s.phase.attempts <= |s.queues.quiescing|
    ensures s.queues.quiescing != [] ==> HasRead(s.queues.quiescing[0])
    ensures s.phase.Posting? ==> s.queues.reaped == []
  {
    hide Tallied, WellFormed, Productive, OutstandingAgrees, ClientsAgree, Begun;
    if s.queues.quiescing != [] {
      assert AwaitingRead(s.cfg, s.inbox.requests, s.queues.quiescing[0]);
    }
  }

  function Onward(s: State): Step {
    var refused := PostReply(None, false, Rejected, s.now);
    match s.phase
    case Intake => if s.inbox.channel != [] then Receive(None) else NoMessage
    case Posting(attempts) => if attempts == 0 || s.cfg.cap <= s.loop.inFlight then PostingDone else PostNext(refused)
    case Reaping => ReapDone
    case Dispatching => if s.queues.reaped == [] then DispatchDone else Dispatch
    case Quiescing(attempts) => if attempts == 0 then QuiesceDone else QuiesceNext(refused)
    case Flushing => Flush
    case Batching(_) => Batch
    case Deciding(_) => Decide
    case Parked => if s.inbox.channel != [] then ParkedReceive(None) else ParkedClosed
    case Stopped => Close
  }

  lemma NoAnswerIsPossible(s: State, step: Step)
    requires step == Onward(s)
    ensures Answerable(s, step)
  {}
}
