/** What every run of the worker keeps, and what that means at the moments that matter. */
module WorkerTheorems {
  import opened Basics
  import opened AddressTable
  import opened WorkerModel
  import opened WorkerQueues
  import opened WorkerInvariant
  import opened WorkerFlow
  import opened WorkerSteps
  import opened WorkerAccounts
  import opened WorkerControl
  import opened WorkerTraces

  lemma {:induction false} StepKeepsTallies(s: State, step: Step)
    requires Enabled(s, step) && Invariant(s)
    ensures var t := Next(s, step);
            && Tallied(t.queues, |t.inbox.requests|)
            && ClientsAgree(t.accounts.byClient, t.queues)
            && WorkBounded(t)
  {
    hide PlacesOf, OpsOf, Work, Next, Joined, Finished, Arrival, Raised, Lowered;
    var t := Next(s, step);
    ReadBacksHaveNoRead(s, step);
    forall id: nat
      ensures PlacesOf(t.queues, id) == PlacesOf(s.queues, id) + One(Arrival(s, step).Some? && id == |s.inbox.requests|)
    {
      StepTracks(s, step, id, 0);
    }
    forall c: Client
      ensures OpsOf(t.queues, c) + One(Finished(s, step) == Some(c))
              == OpsOf(s.queues, c) + One(Joined(s, step) == Some(c))
    {
      StepTracks(s, step, 0, c);
    }
    StepTracks(s, step, 0, 0);
    StepCounts(s, step);
    JoinedOrFinished(s, step);
    CountsStayExact(s.accounts.byClient, s.queues, t.queues, Joined(s, step), Finished(s, step));
  }

  lemma JoinedOrFinished(s: State, step: Step)
    requires CanTake(s, step)
    ensures Joined(s, step).Some? ==> Finished(s, step).None?
  {}

  lemma ReadBacksHaveNoRead(s: State, step: Step)
    requires CanTake(s, step) && Traced(s.cfg, s.inbox.requests, s.queues)
    ensures step.ReapOne? && step.fromReads ==> s.queues.readBacks[step.index].read.None?
  {
    hide Begun, IsReadBack, Quiesces;
    if step.ReapOne? && step.fromReads {
      assert s.queues.readBacks[step.index] in s.queues.readBacks;
    }
  }

  lemma {:induction false} StepKeepsInvariant(s: State, step: Step)
    requires Enabled(s, step) && Invariant(s)
    ensures Invariant(Next(s, step))
  {
    hide Tallied, InFlightAgrees, ReadyAgrees, OutstandingAgrees, ClientsAgree, RemovalsWait, Scheduled, Settled,
      BatchBounded,
      PipelineBounded, Productive, WorkBounded, Traced, WellFormed, Next, AnswerPossible, CanTake;
    StepKeepsTallies(s, step);
    StepKeepsInFlight(s, step);
    StepKeepsReady(s, step);
    StepKeepsOutstanding(s, step);
    StepKeepsRemovals(s, step);
    StepKeepsSchedule(s, step);
    StepKeepsSettled(s, step);
    StepKeepsBatch(s, step);
    StepKeepsPipeline(s, step);
    StepKeepsProductive(s, step);
    StepKeepsTraces(s, step);
    StepKeepsPeers(s, step);
    ConfigStays(s, step);
  }

  lemma ConfigStays(s: State, step: Step)
    requires CanTake(s, step)
    ensures Next(s, step).cfg == s.cfg
  {
    hide Judge, Prepare, Advertise, FinishOp, Sorted, Reap, PoolDone, RemoveOrDefer;
  }

  /** The invariant holds in every state of every run. */
  lemma {:induction false} RunKeepsInvariant(cfg: Config, states: seq<State>, steps: seq<Step>, i: nat)
    requires FromStart(cfg, states, steps) && i < |states|
    ensures Invariant(states[i]) && states[i].cfg == cfg
  {
    hide Invariant, Next;
    if i == 0 {
      InitiallyHolds(cfg);
    } else {
      RunKeepsInvariant(cfg, states, steps, i - 1);
      StepKeepsInvariant(states[i - 1], steps[i - 1]);
      ConfigStays(states[i - 1], steps[i - 1]);
    }
  }

  // ----- Exactly once -----

  ghost predicate IsDelivered(delivered: seq<Completion>, id: nat) {
    exists k :: 0 <= k < |delivered| && delivered[k].id == id
  }

  lemma TwiceIsTwo(q: seq<nat>, j: nat, k: nat)
    requires j < k < |q|
    ensures q[j] == q[k] ==> 2 <= multiset(q)[q[j]]
  {
    assert q == q[..j] + [q[j]] + q[j + 1..k] + [q[k]] + q[k + 1..];
  }

  /** Wherever a run stands, each transfer it received is in exactly one place, and at most one completion
      was ever delivered for it. */
  lemma {:induction false} ExactlyOnce(cfg: Config, states: seq<State>, steps: seq<Step>, i: nat)
    requires FromStart(cfg, states, steps) && i < |states|
    ensures forall id: nat | id < |states[i].inbox.requests| :: PlacesOf(states[i].queues, id) == 1
    ensures var d := states[i].queues.delivered;
            forall j, k | 0 <= j < |d| && 0 <= k < |d| && d[j].id == d[k].id :: j == k
    ensures forall c | c in states[i].queues.delivered ::
              c.id < |states[i].inbox.requests| && c.request == states[i].inbox.requests[c.id]
  {
    RunKeepsInvariant(cfg, states, steps, i);
    var s := states[i];
    var ids := CompletedIds(s.queues.delivered);
    hide Path, Prepare, Proven;
    forall j, k | 0 <= j < k < |ids|
      ensures ids[j] != ids[k]
    {
      assert PlacesOf(s.queues, ids[j]) <= 1;
      TwiceIsTwo(ids, j, k);
    }
  }

  /** When the loop returns it holds nothing, so the shutdown has nothing left over to fail: every transfer
      ever received was delivered, or is a job of the pool. */
  lemma {:induction false} StopLeavesNothing(cfg: Config, states: seq<State>, steps: seq<Step>, i: nat)
    requires FromStart(cfg, states, steps) && i < |states| && states[i].phase.Stopped?
    ensures var s := states[i];
            && s.queues.pending == s.queues.first == s.queues.quiescing == s.queues.readBacks == s.queues.reaped
               == s.queues.crc == []
            && s.queues.completions == [] && s.inbox.channel == []
            && s.accounts.outstanding == 0 && s.accounts.byClient == map[] && s.accounts.removal == {}
    ensures forall id: nat | id < |states[i].inbox.requests| ::
              IdBag(states[i].queues.pool)[id] + CompletedBag(states[i].queues.delivered)[id] == 1
    ensures states[i].queues.pool == [] ==>
              forall id: nat | id < |states[i].inbox.requests| :: IsDelivered(states[i].queues.delivered, id)
  {
    RunKeepsInvariant(cfg, states, steps, i);
    hide Path, Traced, Productive;
    var s := states[i];
    BagsOfEmpty();
    EmptyQueuesOweNobody(s);
    forall id: nat | id < |s.inbox.requests|
      ensures IdBag(s.queues.pool)[id] + CompletedBag(s.queues.delivered)[id] == 1
      ensures s.queues.pool == [] ==> IsDelivered(s.queues.delivered, id)
    {
      assert PlacesOf(s.queues, id) == 1;
      if s.queues.pool == [] {
        assert id in CompletedIds(s.queues.delivered);
        var k :| 0 <= k < |s.queues.delivered| && CompletedIds(s.queues.delivered)[k] == id;
        assert s.queues.delivered[k].id == id;
      }
    }
  }

  /** With no operation outstanding, no client has a count and no removal waits. */
  lemma EmptyQueuesOweNobody(s: State)
    requires ClientsAgree(s.accounts.byClient, s.queues) && RemovalsWait(s.accounts) && OutstandingOps(s.queues) == 0
    ensures s.accounts.byClient == map[] && s.accounts.removal == {} && s.accounts.departed !! s.accounts.peers.Keys
  {
    BagsOfEmpty();
    forall c: Client
      ensures c !in s.accounts.byClient
    {
      assert OpsOf(s.queues, c) == 0;
    }
  }

  /** Whenever the loop blocks on its channel, nothing of anybody's waits inside it. */
  lemma {:induction false} ParkStrandsNothing(cfg: Config, states: seq<State>, steps: seq<Step>, i: nat)
    requires FromStart(cfg, states, steps) && i < |states| && states[i].phase.Parked?
    ensures var s := states[i];
            && OutstandingOps(s.queues) == 0 && s.queues.crc == [] && s.queues.completions == []
            && s.accounts.byClient == map[] && s.accounts.removal == {}
            && s.accounts.departed !! s.accounts.peers.Keys
            && s.accounts.outstanding == s.inbox.submitting + TransfersIn(s.inbox.channel)
  {
    RunKeepsInvariant(cfg, states, steps, i);
    hide Path, Traced, Productive, Tallied, OpsOf;
    EmptyQueuesOweNobody(states[i]);
  }

  // ----- Removal -----

  /** A departed client's entry outlives its removal only while it still has an operation outstanding, and
      then a removal is waiting for the last of them. */
  lemma DepartedEntriesAwaitTheirLast(s: State, c: Client)
    requires Invariant(s) && c in s.accounts.departed && c in s.accounts.peers
    ensures 0 < OpsOf(s.queues, c) && c in s.accounts.removal
  {
    hide OpsOf, Traced, Tallied, WellFormed, Productive;
  }

  /** A client loses its entry only by an advertisement, its own or its slot's, or with nothing outstanding. */
  lemma {:induction false} ReleaseComesAfterTheLast(s: State, step: Step, c: Client)
    requires Enabled(s, step) && Invariant(s) && c in s.accounts.peers
    ensures var asked := Asked(s, step);
            || c in Next(s, step).accounts.peers
            || OpsOf(Next(s, step).queues, c) == 0
            || (asked.About? && c !in Advertise(s.cfg.format, s.accounts.peers, asked.client, asked.address,
                                                asked.answer))
  {
    hide Invariant, Next, OpsOf, Advertise, AnswerPossible;
    StepKeepsInvariant(s, step);
    CountsArePositive(s);
    CountedAfterStep(s, step, c);
    PeersAfterStep(s, step, c);
  }

  lemma CountedAfterStep(s: State, step: Step, c: Client)
    requires Enabled(s, step) && Invariant(Next(s, step))
    ensures c !in Next(s, step).accounts.byClient ==> OpsOf(Next(s, step).queues, c) == 0
  {
    hide Next, OpsOf, AnswerPossible, Traced, Tallied, WellFormed, Productive;
  }

  /** A release, immediate or deferred, is only ever of a client without a count. */
  lemma PeersAfterStep(s: State, step: Step, c: Client)
    requires Enabled(s, step) && c in s.accounts.peers
    requires forall d | d in s.accounts.byClient :: 0 < s.accounts.byClient[d]
    ensures var asked := Asked(s, step); var t := Next(s, step);
            || c in t.accounts.peers
            || c !in t.accounts.byClient
            || (asked.About? && c !in Advertise(s.cfg.format, s.accounts.peers, asked.client, asked.address,
                                                asked.answer))
  {
    hide Advertise, AnswerPossible, Judge, Prepare, Sorted, Reap, PoolDone, Complete, WriteOut, ReadBack, Retried;
  }

  lemma CountsArePositive(s: State)
    requires Invariant(s)
    ensures forall d | d in s.accounts.byClient :: 0 < s.accounts.byClient[d]
  {
    hide OpsOf, Traced, Tallied, WellFormed, Productive;
  }
}
