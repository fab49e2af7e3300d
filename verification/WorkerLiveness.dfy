/** The worker returns: once its channel is closed it drains what it holds and stops, as long as libfabric
    answers and the clock moves. */
module WorkerLiveness {
  import opened Basics
  import opened AddressTable
  import opened WorkerModel
  import opened WorkerQueues
  import opened WorkerInvariant
  import opened WorkerFlow
  import opened WorkerControl
  import opened WorkerTheorems
  import opened WorkerPeers

  // ----- The measure -----

  /** Passes for which completions may still be held back. */
  function SpinBudget(s: State): nat {
    if s.queues.completions == [] then 0 else Saturating(MAX_SPINS + 1, s.loop.spins)
  }

  function Waiting(s: State): nat {
    TotalPatience(s.cfg, s.queues.pending, s.now) + TotalPatience(s.cfg, s.queues.quiescing, s.now)
  }

  function Rank(phase: Phase): nat {
    match phase
    case Intake => 9
    case Posting(_) => 8
    case Reaping => 7
    case Dispatching => 6
    case Quiescing(_) => 5
    case Flushing => 4
    case Batching(_) => 3
    case Deciding(_) => 2
    case Parked => 1
    case Stopped => 0
  }

  /** Four quantities in order of weight. Nothing moved between two states that agree on them. */
  ghost predicate Quiet(s: State, t: State) {
    && |t.inbox.channel| == |s.inbox.channel| && Work(t.queues) == Work(s.queues)
    && SpinBudget(t) == SpinBudget(s) && Waiting(t) == Waiting(s)
  }

  ghost predicate Nearer(s: State, t: State) {
    || |t.inbox.channel| < |s.inbox.channel|
    || (|t.inbox.channel| == |s.inbox.channel| &&
        (|| Work(t.queues) < Work(s.queues)
         || (Work(t.queues) == Work(s.queues) &&
             (|| SpinBudget(t) < SpinBudget(s)
              || (SpinBudget(t) == SpinBudget(s) && Waiting(t) < Waiting(s))))))
  }

  /** The environment had nothing to give: a poll with operations in flight that found none ready, an EAGAIN
      answered before the clock moved, or a completion queue about to fail. */
  predicate Fruitless(s: State, step: Step) {
    || (step.ReapDone? && 0 < s.loop.inFlight && s.queues.reaped == [] && s.cq == CompletionQueue([], false))
    || step.FabricFault?
    || (step.PostNext? && step.post.code.Again? && step.post.at == s.now)
    || (step.QuiesceNext? && step.read.code.Again? && step.read.at == s.now)
  }

  function Bit(b: bool): nat {
    if b then 1 else 0
  }

  /** What a step that changes none of the four comes down to. */
  ghost predicate Settling(s: State, step: Step, t: State) {
    || Fruitless(s, step)
    || Bit(t.cq.fault) < Bit(s.cq.fault)
    || (t.cq.fault == s.cq.fault &&
        (|| Bit(t.loop.progress) < Bit(s.loop.progress)
         || (t.loop.progress == s.loop.progress &&
             (|| Rank(t.phase) < Rank(s.phase)
              || (t.phase == s.phase && Unanswered(t) < Unanswered(s))))))
  }

  /** Operations libfabric holds whose completions are not ready yet. */
  function Unanswered(s: State): nat {
    Saturating(|s.queues.first| + |s.queues.readBacks|, |s.cq.entries|)
  }

  // ----- One retry -----

  lemma RetryWearsPatience(cfg: Config, item: Item, now: nat, at: nat)
    requires now <= at && !Expired(cfg, item, at)
    ensures Patience(cfg, Retried(item, at), at) + Bit(now < at) <= Patience(cfg, item, now)
  {}

  lemma QueueRetryWears(cfg: Config, q: seq<Item>, now: nat, at: nat)
    requires q != [] && now <= at && !Expired(cfg, q[0], at)
    ensures TotalPatience(cfg, q[1..] + [Retried(q[0], at)], at) + Bit(now < at) <= TotalPatience(cfg, q, now)
  {
    hide Patience, Expired;
    PatienceAfterAppend(cfg, q[1..], Retried(q[0], at), at);
    PatienceWearsOut(cfg, q[1..], now, at);
    RetryWearsPatience(cfg, q[0], now, at);
  }

  /** A retry leaves the load alone and, once the clock has moved, wears the patience. */
  lemma PostRetryIsNearer(s: State, r: PostReply)
    requires s.queues.pending != []
             && Judge(s.cfg, s.accounts.peers, s.queues.pending[0], s.queues.pending[0].address, r).Retries?
    requires s.now <= r.at
    ensures r.code.Again?
    ensures Nearer(s, PostAttempt(s, r)) || (Quiet(s, PostAttempt(s, r)) && r.at == s.now)
  {
    hide Advertise, Patience, TotalPatience, Retried;
    QueueRetryWears(s.cfg, s.queues.pending, s.now, r.at);
    PatienceWearsOut(s.cfg, s.queues.quiescing, s.now, r.at);
  }

  lemma QuiesceRetryIsNearer(s: State, r: PostReply)
    requires s.queues.quiescing != [] && HasRead(s.queues.quiescing[0])
    requires Judge(s.cfg, s.accounts.peers, s.queues.quiescing[0], s.queues.quiescing[0].read.value.address.value,
                   r).Retries?
    requires s.now <= r.at
    ensures r.code.Again?
    ensures Nearer(s, QuiesceAttempt(s, r)) || (Quiet(s, QuiesceAttempt(s, r)) && r.at == s.now)
  {
    hide Advertise, Patience, TotalPatience, Retried;
    QueueRetryWears(s.cfg, s.queues.quiescing, s.now, r.at);
    PatienceWearsOut(s.cfg, s.queues.pending, s.now, r.at);
  }

  // ----- One step -----

  lemma PostDescends(s: State, r: PostReply)
    requires CanTake(s, PostNext(r))
    ensures var t := Next(s, PostNext(r)); Nearer(s, t) || (Quiet(s, t) && Fruitless(s, PostNext(r)))
  {
    hide Advertise, Waiting, FinishOp, Judge, Work, WriteOut;
    var p := s.(phase := Posting(s.phase.attempts - 1));
    PostTracksWork(p, r);
    if Judge(p.cfg, p.accounts.peers, p.queues.pending[0], p.queues.pending[0].address, r).Retries? {
      PostRetryIsNearer(p, r);
      NearerIgnoresPhase(s, p, PostAttempt(p, r));
    }
  }

  lemma NearerIgnoresPhase(s: State, p: State, t: State)
    requires p == s.(phase := p.phase)
    ensures Nearer(p, t) ==> Nearer(s, t)
    ensures Quiet(p, t) ==> Quiet(s, t)
  {}

  lemma PostTracksWork(s: State, r: PostReply)
    requires s.queues.pending != []
    ensures Work(PostAttempt(s, r).queues) < Work(s.queues)
            || Judge(s.cfg, s.accounts.peers, s.queues.pending[0], s.queues.pending[0].address, r).Retries?
    ensures PostAttempt(s, r).inbox == s.inbox
  {
    hide Advertise, Judge, FinishOp, WriteOut, Retried;
  }

  lemma QuiesceTracksWork(s: State, r: PostReply)
    requires s.queues.quiescing != [] && HasRead(s.queues.quiescing[0])
    ensures Work(QuiesceAttempt(s, r).queues) < Work(s.queues)
            || Judge(s.cfg, s.accounts.peers, s.queues.quiescing[0], s.queues.quiescing[0].read.value.address.value,
                     r).Retries?
    ensures QuiesceAttempt(s, r).inbox == s.inbox
  {
    hide Advertise, Judge, FinishOp, ReadBack, Retried;
  }

  lemma QuiesceDescends(s: State, r: PostReply)
    requires CanTake(s, QuiesceNext(r))
    ensures var t := Next(s, QuiesceNext(r)); Nearer(s, t) || (Quiet(s, t) && Fruitless(s, QuiesceNext(r)))
  {
    hide Advertise, Waiting, FinishOp, Judge, Work, ReadBack;
    var p := s.(phase := Quiescing(s.phase.attempts - 1));
    QuiesceTracksWork(p, r);
    if Judge(p.cfg, p.accounts.peers, p.queues.quiescing[0], p.queues.quiescing[0].read.value.address.value,
             r).Retries? {
      QuiesceRetryIsNearer(p, r);
      NearerIgnoresPhase(s, p, QuiesceAttempt(p, r));
    }
  }

  lemma WorkFalls(s: State, step: Step)
    requires CanTake(s, step) && (step.PoolFinish? || step.ReapOne? || step.Dispatch?)
    requires step.ReapOne? && step.fromReads ==> s.queues.readBacks[step.index].read.None?
    ensures Nearer(s, Next(s, step))
  {
    hide PlacesOf, OpsOf, Work, Waiting, SpinBudget, FinishOp, Reap, Sorted, PoolDone;
    match step
    case PoolFinish(job) => PoolFlow(s.cfg, s.queues, job, 0, 0);
    case ReapOne(fromReads, index, ok) => ReapFlow(s.queues, fromReads, index, ok, 0, 0);
    case Dispatch => SortFlow(s.cfg, s.queues, 0, 0);
  }

  lemma ReceivingShortens(s: State, answer: Option<Handle>)
    requires s.inbox.channel != []
    ensures |Handled(Popped(s), s.inbox.channel[0], answer).inbox.channel| < |s.inbox.channel|
  {
    hide Prepare, Introduced, RemoveOrDefer, Complete;
  }

  lemma FlushDescends(s: State)
    requires s.phase.Flushing?
    ensures Nearer(s, FlushCrc(s)) || (Quiet(s, FlushCrc(s)) && Settling(s, Flush, FlushCrc(s)))
  {
    hide Load, TotalPatience;
  }

  lemma BatchDescends(s: State)
    requires s.phase.Batching? && s.loop.spins <= MAX_SPINS
    ensures var t := DeliverBatch(s, s.phase.idle); Nearer(s, t) || (Quiet(s, t) && Settling(s, Batch, t))
  {
    hide Load, TotalPatience;
  }

  /** A pass that comes round again without having moved, retried or polled anything had nothing left. */
  lemma DecideDescends(s: State)
    requires s.phase.Deciding? && Scheduled(s) && Productive(s) && 0 < s.cfg.cap
    ensures var t := DecideNext(s, s.phase.idle); Quiet(s, t) && Settling(s, Decide, t)
  {
    hide Load, TotalPatience, Work;
  }

  lemma ReapDoneDescends(s: State)
    requires CanTake(s, ReapDone) && Productive(s) && 0 < s.cfg.cap
    ensures var t := Next(s, ReapDone); Quiet(s, t) && Settling(s, ReapDone, t)
  {
    hide Load, TotalPatience, Work;
  }

  lemma ControlDescends(s: State, step: Step)
    requires CanTake(s, step)
    requires step.NoMessage? || step.PostingDone? || step.DispatchDone? || step.QuiesceDone? || step.ParkedClosed?
             || step.FabricFault?
    ensures var t := Next(s, step); Quiet(s, t) && Settling(s, step, t)
  {
    hide Load, TotalPatience, Work;
  }

  /** A completion more is ready. */
  lemma EndingDescends(s: State, step: Step)
    requires CanTake(s, step) && step.FabricDone? && ReadyAgrees(s.cq.entries, s.queues)
    ensures var t := Next(s, step); Quiet(s, t) && Settling(s, step, t)
  {
    hide Load, TotalPatience, Work, ReadyBag, IdBag, Unqueued;
    var t := Next(s, step);
    EndingKeepsReady(s, step.ofReads, step.place, step.result);
    ReadyIsWithin(t);
  }

  lemma WithinIsNoLarger(a: multiset<nat>, b: multiset<nat>)
    requires a <= b
    ensures |a| <= |b|
  {
    assert b == a + (b - a);
  }

  lemma ReadyIsWithin(s: State)
    requires ReadyAgrees(s.cq.entries, s.queues)
    ensures |s.cq.entries| <= |s.queues.first| + |s.queues.readBacks|
  {
    var ready, wire := ReadyBag(s.cq.entries), IdBag(s.queues.first) + IdBag(s.queues.readBacks);
    WithinIsNoLarger(ready, wire);
    assert |wire| == |IdBag(s.queues.first)| + |IdBag(s.queues.readBacks)|;
    assert |ready| == |ReadyIds(s.cq.entries)|;
    assert |IdBag(s.queues.first)| == |Ids(s.queues.first)| && |IdBag(s.queues.readBacks)| == |Ids(s.queues.readBacks)|;
  }

  /** Once the channel is closed, every step brings the loop nearer to its end, unless the environment gave
      nothing. */
  lemma {:induction false} StepDescends(s: State, step: Step)
    requires Enabled(s, step) && Invariant(s) && 0 < s.cfg.cap && s.inbox.closed
    ensures var t := Next(s, step); Nearer(s, t) || (Quiet(s, t) && Settling(s, step, t))
  {
    hide Work, Waiting, SpinBudget, Next, Invariant, FlushCrc, DeliverBatch, DecideNext, Handled, Quiet, Rank,
      Answerable;
    var t := Next(s, step);
    if step.Receive? || step.ParkedReceive? {
      ReceiveDescends(s, step);
    } else if step.PostNext? {
      PostDescends(s, step.post);
    } else if step.QuiesceNext? {
      QuiesceDescends(s, step.read);
    } else if step.PoolFinish? || step.ReapOne? || step.Dispatch? {
      InvariantReads(s, step);
      WorkFalls(s, step);
    } else if step.FabricDone? {
      InvariantAgrees(s);
      EndingDescends(s, step);
    } else {
      RestDescends(s, step);
    }
  }

  lemma InvariantAgrees(s: State)
    requires Invariant(s)
    ensures ReadyAgrees(s.cq.entries, s.queues)
  {
    hide Traced, Tallied, WellFormed, ClientsAgree, Productive, ReadyAgrees;
  }

  lemma InvariantReads(s: State, step: Step)
    requires CanTake(s, step) && Invariant(s)
    ensures step.ReapOne? && step.fromReads ==> s.queues.readBacks[step.index].read.None?
  {
    hide Traced, Tallied, WellFormed, ClientsAgree, Productive, CanTake;
    ReadBacksHaveNoRead(s, step);
  }

  lemma ReceiveDescends(s: State, step: Step)
    requires CanTake(s, step) && (step.Receive? || step.ParkedReceive?)
    ensures Nearer(s, Next(s, step))
  {
    hide Work, Waiting, SpinBudget, Handled;
    if step.Receive? {
      ReceivingShortens(s, step.answer);
    } else {
      ReceivingShortens(s.(phase := Intake), step.answer);
    }
  }

  lemma RestDescends(s: State, step: Step)
    requires CanTake(s, step) && Invariant(s) && 0 < s.cfg.cap && s.inbox.closed
    requires step.NoMessage? || step.PostingDone? || step.ReapDone? || step.DispatchDone? || step.QuiesceDone?
             || step.Flush?
             || step.Batch? || step.Decide? || step.ParkedClosed? || step.BeginSubmit? || step.Send? || step.Close?
             || step.FabricFault?
    ensures var t := Next(s, step); Nearer(s, t) || (Quiet(s, t) && Settling(s, step, t))
  {
    hide Nearer, Quiet, Settling, FlushCrc, DeliverBatch, DecideNext, Traced, Tallied, WellFormed, ClientsAgree,
      Productive, Scheduled;
    match step
    case ReapDone => ReapDoneDescends(s);
    case Flush => FlushDescends(s);
    case Batch => BatchDescends(s);
    case Decide => DecideDescends(s);
    case _ => ControlDescends(s, step);
  }

  // ----- The environment -----

  /** A run from here on: the loop steps until it returns, with pool jobs finishing in between. */
  ghost predicate Runs(states: nat -> State, steps: nat -> Step) {
    forall i: nat :: !states(i).phase.Stopped? ==>
      Enabled(states(i), steps(i)) && states(i + 1) == Next(states(i), steps(i))
  }

  ghost predicate ReadyBy(states: nat -> State, x: Item, i: nat, j: nat) {
    && i <= j
    && (|| states(j).phase.Stopped? || !InFlight(states(j).queues, x)
        || !Unqueued(states(j).cq.entries, x.id))
  }

  /** Libfabric ends every operation it was posted: its completion is ready to be read some time, or was read before. */
  ghost predicate EveryPostCompletes(states: nat -> State) {
    forall i: nat, x | InFlight(states(i).queues, x) :: exists j: nat :: ReadyBy(states, x, i, j)
  }

  ghost predicate NoFaultsFrom(steps: nat -> Step, m: nat) {
    forall j: nat | m <= j :: !steps(j).FabricFault?
  }

  /** The completion queue fails to be read only so often. */
  ghost predicate FaultsCease(steps: nat -> Step) {
    exists m: nat :: NoFaultsFrom(steps, m)
  }

  /** The attempt was answered EAGAIN, so the clock was read. */
  predicate ReadsClock(step: Step) {
    (step.PostNext? && step.post.code.Again?) || (step.QuiesceNext? && step.read.code.Again?)
  }

  function Reading(step: Step): nat
    requires ReadsClock(step)
  {
    if step.PostNext? then step.post.at else step.read.at
  }

  ghost predicate PastFrom(states: nat -> State, steps: nat -> Step, bound: nat, m: nat) {
    forall j: nat | m <= j && !states(j).phase.Stopped? && ReadsClock(steps(j)) :: bound <= Reading(steps(j))
  }

  ghost predicate Passes(states: nat -> State, steps: nat -> Step, bound: nat) {
    exists m: nat :: PastFrom(states, steps, bound, m)
  }

  /** The clock passes every bound: from some point on all its readings are past it. */
  ghost predicate ClockPassesEverything(states: nat -> State, steps: nat -> Step) {
    forall bound: nat :: Passes(states, steps, bound)
  }

  // ----- Stretches in which nothing moves -----

  /** The channel is closed, there is room for one operation, and the run has kept its invariant. */
  ghost predicate Draining(s: State) {
    Invariant(s) && s.inbox.closed && 0 < s.cfg.cap
  }

  /** As quiet as can be: the same operations on the wire, what was ready still ready, and the clock read no later. */
  ghost predicate Still(s: State, t: State) {
    && Quiet(s, t) && t.queues.first == s.queues.first && t.queues.readBacks == s.queues.readBacks && t.now == s.now
    && s.cq.entries <= t.cq.entries
  }

  lemma ClosedStays(s: State, step: Step)
    requires CanTake(s, step) && s.inbox.closed
    ensures Next(s, step).inbox.closed
  {
    hide Judge, Prepare, Advertise, FinishOp, RemoveOrDefer, Sorted, Reap, PoolDone, Complete, WriteOut, ReadBack,
      Retried;
  }

  lemma DrainingStays(s: State, step: Step)
    requires Draining(s) && Enabled(s, step)
    ensures Draining(Next(s, step))
  {
    hide Invariant, Next, CanTake, Answerable;
    StepKeepsInvariant(s, step);
    ConfigStays(s, step);
    ClosedStays(s, step);
  }

  lemma NearerIsNotQuiet(s: State, t: State)
    ensures !(Nearer(s, t) && Quiet(s, t))
  {
    hide Work, SpinBudget, Waiting;
  }

  lemma QuietPostIsStill(s: State, r: PostReply)
    requires CanTake(s, PostNext(r)) && Quiet(s, Next(s, PostNext(r)))
    ensures Still(s, Next(s, PostNext(r)))
  {
    hide Advertise, Waiting, SpinBudget, FinishOp, Judge, Work, WriteOut, Retried;
    var p := s.(phase := Posting(s.phase.attempts - 1));
    PostTracksWork(p, r);
    PostRetryIsNearer(p, r);
    NearerIgnoresPhase(s, p, PostAttempt(p, r));
    NearerIsNotQuiet(s, PostAttempt(p, r));
  }

  lemma QuietReadIsStill(s: State, r: PostReply)
    requires CanTake(s, QuiesceNext(r)) && Quiet(s, Next(s, QuiesceNext(r)))
    ensures Still(s, Next(s, QuiesceNext(r)))
  {
    hide Advertise, Waiting, SpinBudget, FinishOp, Judge, Work, ReadBack, Retried;
    var p := s.(phase := Quiescing(s.phase.attempts - 1));
    QuiesceTracksWork(p, r);
    QuiesceRetryIsNearer(p, r);
    NearerIgnoresPhase(s, p, QuiesceAttempt(p, r));
    NearerIsNotQuiet(s, QuiesceAttempt(p, r));
  }

  lemma OtherStepsAreStill(s: State, step: Step)
    requires CanTake(s, step) && !step.PostNext? && !step.QuiesceNext? && !step.ReapOne? && Quiet(s, Next(s, step))
    ensures Still(s, Next(s, step))
  {
    hide Quiet, Prepare, FinishOp, Introduced, RemoveOrDefer, IntoCompletion, NeedsRead, ShouldFlush, Holds;
  }

  /** A step that brings nothing nearer leaves the wire and the clock alone. */
  lemma QuietIsStill(s: State, step: Step)
    requires Draining(s) && Enabled(s, step) && Quiet(s, Next(s, step))
    ensures Still(s, Next(s, step))
  {
    hide Invariant, Next, Quiet, Still, CanTake, Answerable;
    if step.PostNext? {
      QuietPostIsStill(s, step.post);
    } else if step.QuiesceNext? {
      QuietReadIsStill(s, step.read);
    } else if step.ReapOne? {
      InvariantReads(s, step);
      WorkFalls(s, step);
      NearerIsNotQuiet(s, Next(s, step));
    } else {
      OtherStepsAreStill(s, step);
    }
  }

  lemma StillThenNearer(s: State, t: State, u: State)
    requires Still(s, t)
    ensures Nearer(t, u) ==> Nearer(s, u)
    ensures Still(t, u) ==> Still(s, u)
  {
    hide Work, SpinBudget, Waiting;
  }

  lemma StillItself(s: State)
    ensures Still(s, s)
  {
    hide Work, SpinBudget, Waiting;
  }

  /** From `i` either something moves by `n`, or the loop returns, or nothing moves until then. */
  lemma {:induction false} NextMove(states: nat -> State, steps: nat -> Step, i: nat, n: nat) returns (j: nat)
    requires Runs(states, steps) && Draining(states(i)) && i <= n
    ensures i <= j && Draining(states(j))
    ensures states(j).phase.Stopped? || Nearer(states(i), states(j)) || (j == n && Still(states(i), states(n)))
    decreases n - i
  {
    hide Draining, Next, CanTake, Answerable, Nearer, Still, Quiet, Settling;
    StillItself(states(i));
    if i == n || states(i).phase.Stopped? {
      j := i;
    } else {
      var s, step := states(i), steps(i);
      assert Enabled(s, step) && states(i + 1) == Next(s, step);
      DrainingDescends(s, step);
      DrainingStays(s, step);
      if Nearer(s, states(i + 1)) {
        j := i + 1;
      } else {
        QuietIsStill(s, step);
        j := NextMove(states, steps, i + 1, n);
        StillThenNearer(s, states(i + 1), states(j));
      }
    }
  }

  lemma DrainingDescends(s: State, step: Step)
    requires Draining(s) && Enabled(s, step)
    ensures var t := Next(s, step); Nearer(s, t) || (Quiet(s, t) && Settling(s, step, t))
  {
    hide Invariant, Next, CanTake, Answerable, Nearer, Quiet, Settling;
    StepDescends(s, step);
  }

  // ----- The end -----

  ghost predicate NothingOnTheWire(s: State) {
    s.queues.first == [] && s.queues.readBacks == []
  }

  /** The next poll finds all there is to find: something ready, or nothing that could be. */
  ghost predicate Answering(s: State) {
    NothingOnTheWire(s) || s.cq.entries != []
  }

  lemma PollsFindWhatFlew(s: State)
    requires Draining(s) && NothingOnTheWire(s) && s.phase.Reaping? && s.queues.reaped == []
    ensures s.loop.inFlight == 0
  {
    hide Tallied, WellFormed, Traced, ClientsAgree, Productive;
  }

  lemma NothingIsFruitless(s: State, step: Step)
    requires Draining(s) && Answering(s) && CanTake(s, step) && !step.FabricFault?
    requires ReadsClock(step) ==> s.now < Reading(step)
    ensures !Fruitless(s, step)
  {
    hide Draining;
    if s.phase.Reaping? && s.queues.reaped == [] && NothingOnTheWire(s) {
      PollsFindWhatFlew(s);
    }
  }

  lemma StillAnswers(s: State, t: State)
    requires Still(s, t) && Answering(s)
    ensures Answering(t)
  {
    hide Quiet;
  }

  /** With something ready or nothing on the wire, the clock past its last reading and no more faults, every step
      brings the loop nearer. */
  lemma {:induction false} AnswersMove(states: nat -> State, steps: nat -> Step, bound: nat, i: nat) returns (j: nat)
    requires Runs(states, steps) && Draining(states(i)) && Answering(states(i))
    requires states(i).now < bound && PastFrom(states, steps, bound, i) && NoFaultsFrom(steps, i)
    ensures i <= j && Draining(states(j)) && (states(j).phase.Stopped? || Nearer(states(i), states(j)))
    decreases Bit(states(i).cq.fault), Bit(states(i).loop.progress), Rank(states(i).phase), Unanswered(states(i))
  {
    hide Draining, Next, CanTake, Answerable, Nearer, Quiet, Rank, Fruitless, Reading, ReadsClock, Answering,
      Unanswered, Still;
    if states(i).phase.Stopped? {
      j := i;
    } else {
      var s, step := states(i), steps(i);
      assert Enabled(s, step) && states(i + 1) == Next(s, step);
      DrainingDescends(s, step);
      DrainingStays(s, step);
      if Nearer(s, states(i + 1)) {
        j := i + 1;
      } else {
        QuietIsStill(s, step);
        NothingIsFruitless(s, step);
        StillAnswers(s, states(i + 1));
        StillKeepsClock(s, states(i + 1));
        LaterIsPastToo(states, steps, bound, i, i + 1);
        j := AnswersMove(states, steps, bound, i + 1);
        StillThenNearer(s, states(i + 1), states(j));
      }
    }
  }

  lemma StillKeepsClock(s: State, t: State)
    requires Still(s, t)
    ensures t.now == s.now
  {
    hide Quiet;
  }

  /** From `i` something moves, once nothing more is to be waited for. */
  lemma {:induction false} MovesOnceAnswered(states: nat -> State, steps: nat -> Step, i: nat) returns (j: nat)
    requires Runs(states, steps) && ClockPassesEverything(states, steps) && FaultsCease(steps)
    requires Draining(states(i)) && Answering(states(i))
    ensures i <= j && Draining(states(j)) && (states(j).phase.Stopped? || Nearer(states(i), states(j)))
  {
    hide Runs, Draining, Next, CanTake, Answerable, Nearer, Quiet, PastFrom, Answering, Still;
    var s, bound: nat := states(i), states(i).now + 1;
    assert Passes(states, steps, bound);
    var m: nat :| PastFrom(states, steps, bound, m);
    var f: nat :| NoFaultsFrom(steps, f);
    var n := Max(i, Max(m, f));
    j := NextMove(states, steps, i, n);
    if !states(j).phase.Stopped? && !Nearer(s, states(j)) {
      LaterIsPastToo(states, steps, bound, m, n);
      StillAnswers(s, states(n));
      StillKeepsClock(s, states(n));
      j := AnswersMove(states, steps, bound, n);
      StillThenNearer(s, states(n), states(j));
    }
  }

  /** Something moves, sooner or later. */
  lemma {:induction false} SomethingMoves(states: nat -> State, steps: nat -> Step, i: nat) returns (j: nat)
    requires Runs(states, steps) && Draining(states(i))
    requires EveryPostCompletes(states) && ClockPassesEverything(states, steps) && FaultsCease(steps)
    ensures i <= j && Draining(states(j)) && (states(j).phase.Stopped? || Nearer(states(i), states(j)))
  {
    hide Runs, Draining, Next, CanTake, Answerable, Nearer, Quiet, ClockPassesEverything, FaultsCease;
    var s := states(i);
    if NothingOnTheWire(s) {
      j := MovesOnceAnswered(states, steps, i);
    } else {
      var x := if s.queues.first != [] then s.queues.first[0] else s.queues.readBacks[0];
      assert InFlight(s.queues, x);
      var n: nat :| ReadyBy(states, x, i, n);
      j := NextMove(states, steps, i, n);
      if !states(j).phase.Stopped? && !Nearer(s, states(j)) {
        assert InFlight(states(n).queues, x);
        j := MovesOnceAnswered(states, steps, n);
        StillThenNearer(s, states(n), states(j));
      }
    }
  }

  lemma LaterIsPastToo(states: nat -> State, steps: nat -> Step, bound: nat, m: nat, n: nat)
    requires PastFrom(states, steps, bound, m) && m <= n
    ensures PastFrom(states, steps, bound, n)
  {}

  /** With its channel closed and room for one operation, the worker returns, whatever it held, if libfabric ends
      every operation posted, its completion queue fails to be read only so often, and the clock passes every bound:
      in whatever order operations end, well or badly, and however many posts are refused for want of room. */
  lemma {:induction false} WorkerReturns(states: nat -> State, steps: nat -> Step, i: nat) returns (n: nat)
    requires Runs(states, steps)
    requires EveryPostCompletes(states) && ClockPassesEverything(states, steps) && FaultsCease(steps)
    requires Invariant(states(i)) && states(i).inbox.closed && 0 < states(i).cfg.cap
    ensures i <= n && states(n).phase.Stopped? && Invariant(states(n))
    decreases |states(i).inbox.channel|, Work(states(i).queues), SpinBudget(states(i)), Waiting(states(i))
  {
    hide Runs, EveryPostCompletes, ClockPassesEverything, FaultsCease, Invariant, Work, Waiting, SpinBudget;
    n := SomethingMoves(states, steps, i);
    if !states(n).phase.Stopped? {
      n := WorkerReturns(states, steps, n);
    }
  }
}
