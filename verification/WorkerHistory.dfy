/** Removal and batching told by a run's own steps: who has left, what a pass moved. */
module WorkerHistory {
  import opened Basics
  import opened AddressTable
  import opened WorkerModel
  import opened WorkerQueues
  import opened WorkerInvariant
  import opened WorkerAccounts
  import opened WorkerTheorems

  /** The message a step takes off the channel, if it takes one. */
  function Heard(s: State, step: Step): Option<Message> {
    if (step.Receive? || step.ParkedReceive?) && s.inbox.channel != [] then Some(s.inbox.channel[0]) else None
  }

  /** A message from the client, rather than about its leaving. */
  predicate SentBy(heard: Option<Message>, c: Client) {
    heard.Some? && match heard.value
                   case Transfer(request) => request.client == c
                   case AddPeer(client, _) => client == c
                   case RemovePeer(_) => false
  }

  predicate Leaves(heard: Option<Message>, c: Client) {
    heard == Some(RemovePeer(c))
  }

  lemma DepartsBy(s: State, step: Step, c: Client)
    requires CanTake(s, step)
    ensures c in Next(s, step).accounts.departed <==>
            Leaves(Heard(s, step), c) || (c in s.accounts.departed && !SentBy(Heard(s, step), c))
  {
    hide Advertise, Judge, Prepare, Sorted, Reap, PoolDone, Complete, WriteOut, ReadBack, Retried;
  }

  /** Its removal was taken off the channel at `k`, and nothing it sent has been since. */
  ghost predicate LeftAt(states: seq<State>, steps: seq<Step>, i: nat, k: nat, c: Client)
    requires i <= |steps| <= |states|
  {
    k < i && Leaves(Heard(states[k], steps[k]), c) && forall j | k < j < i :: !SentBy(Heard(states[j], steps[j]), c)
  }

  /** Who has departed: the clients whose removal was received with nothing from them received since. */
  lemma {:induction false} DepartedExactlyWhen(cfg: Config, states: seq<State>, steps: seq<Step>, i: nat, c: Client)
    requires FromStart(cfg, states, steps) && i < |states|
    ensures c in states[i].accounts.departed <==> exists k: nat :: LeftAt(states, steps, i, k, c)
  {
    hide Next, CanTake, Answerable, Heard, Leaves, SentBy;
    if 0 < i {
      var n: nat := i - 1;
      DepartedExactlyWhen(cfg, states, steps, n, c);
      assert Enabled(states[n], steps[n]);
      DepartsBy(states[n], steps[n], c);
      if Leaves(Heard(states[n], steps[n]), c) {
        assert LeftAt(states, steps, i, n, c);
      } else if c in states[n].accounts.departed {
        var k: nat :| LeftAt(states, steps, n, k, c);
        if !SentBy(Heard(states[n], steps[n]), c) {
          assert LeftAt(states, steps, i, k, c);
        }
      }
      forall k: nat | LeftAt(states, steps, i, k, c) && k != n
        ensures LeftAt(states, steps, n, k, c) && !SentBy(Heard(states[n], steps[n]), c)
      {}
    }
  }

  /** No leak: once a client's removal has been received, with nothing from it since, the client holds an entry
      only while one of its operations is outstanding and its removal waits; its last operation leaves none. */
  lemma {:induction false} RemovalNeverLeaks(
    cfg: Config, states: seq<State>, steps: seq<Step>, i: nat, k: nat, c: Client)
    requires FromStart(cfg, states, steps) && i < |states| && LeftAt(states, steps, i, k, c)
    ensures c in states[i].accounts.peers ==> 0 < OpsOf(states[i].queues, c) && c in states[i].accounts.removal
    ensures OpsOf(states[i].queues, c) == 0 ==> c !in states[i].accounts.peers && c !in states[i].accounts.byClient
  {
    hide Path, Next, OpsOf, LeftAt, Traced, Tallied, WellFormed, Productive;
    DepartedExactlyWhen(cfg, states, steps, i, c);
    RunKeepsInvariant(cfg, states, steps, i);
    if c in states[i].accounts.peers {
      DepartedEntriesAwaitTheirLast(states[i], c);
    }
  }

  /** Never early: while a client has an operation pending, in flight or quiescing after a step, that step took
      its entry only if some advertisement took it. */
  lemma {:induction false} RemovalNeverFiresEarly(cfg: Config, states: seq<State>, steps: seq<Step>, i: nat, c: Client)
    requires FromStart(cfg, states, steps) && i < |steps|
    requires c in states[i].accounts.peers && c !in states[i + 1].accounts.peers && 0 < OpsOf(states[i + 1].queues, c)
    ensures var asked := Asked(states[i], steps[i]);
            asked.About? && c !in Advertise(cfg.format, states[i].accounts.peers, asked.client, asked.address,
                                            asked.answer)
  {
    hide Next, OpsOf, Invariant, Advertise, CanTake, Answerable;
    RunKeepsInvariant(cfg, states, steps, i);
    assert Enabled(states[i], steps[i]);
    ReleaseComesAfterTheLast(states[i], steps[i], c);
  }

  // ----- What a pass moved -----

  /** The step put an operation on the wire or took a completion off it. */
  predicate Moves(s: State, t: State, step: Step) {
    || ((step.PostNext? || step.QuiesceNext?) && s.loop.inFlight < t.loop.inFlight)
    || step.ReapOne?
  }

  /** Such a step, since the pass began. */
  ghost predicate MovedAt(states: seq<State>, steps: seq<Step>, i: nat, k: nat)
    requires i <= |steps| && |states| == |steps| + 1
  {
    k < i && Moves(states[k], states[k + 1], steps[k]) && forall j | k < j < i :: !steps[j].NoMessage?
  }

  /** What the loop remembers of this pass: posts, and from the reap on whether it took anything. */
  ghost predicate Remembers(s: State) {
    || 0 < s.loop.posted
    || ((s.phase.Dispatching? || s.phase.Quiescing? || s.phase.Flushing?) && s.loop.reapedAny)
    || (s.phase.Reaping? && s.queues.reaped != [])
  }

  lemma RemembersBy(s: State, step: Step)
    requires CanTake(s, step) && Scheduled(s) && Remembers(Next(s, step))
    ensures Moves(s, Next(s, step), step) || (Remembers(s) && !step.NoMessage?)
  {
    hide Judge, Prepare, Advertise, FinishOp, RemoveOrDefer, Introduced, IntoCompletion, WriteOut, ReadBack, Retried,
      Landed, NeedsRead;
  }

  lemma {:induction false} MemoryIsTrue(cfg: Config, states: seq<State>, steps: seq<Step>, i: nat)
    requires FromStart(cfg, states, steps) && i < |states| && Remembers(states[i])
    ensures exists k: nat :: MovedAt(states, steps, i, k)
  {
    hide Next, CanTake, Answerable, Moves, Remembers, Invariant;
    if i == 0 {
      NothingRemembered(cfg);
    } else {
      RunKeepsInvariant(cfg, states, steps, i - 1);
      InvariantSchedules(states[i - 1]);
      assert Enabled(states[i - 1], steps[i - 1]);
      RemembersBy(states[i - 1], steps[i - 1]);
      if Moves(states[i - 1], states[i], steps[i - 1]) {
        assert MovedAt(states, steps, i, i - 1);
      } else {
        MemoryIsTrue(cfg, states, steps, i - 1);
        var k: nat :| MovedAt(states, steps, i - 1, k);
        assert MovedAt(states, steps, i, k);
      }
    }
  }

  lemma NothingRemembered(cfg: Config)
    ensures !Remembers(Initial(cfg))
  {}

  lemma InvariantSchedules(s: State)
    requires Invariant(s)
    ensures Scheduled(s)
  {
    hide Tallied, WellFormed, Traced, ClientsAgree, Productive;
  }

  /** The pass has moved something, if it has come to where that matters. */
  ghost predicate MindsIts(s: State) {
    || s.phase.Intake? || s.phase.Batching? || s.phase.Deciding? || s.phase.Parked? || s.phase.Stopped?
    || Remembers(s)
  }

  lemma MovingIsMinded(s: State, step: Step)
    requires CanTake(s, step)
    ensures Moves(s, Next(s, step), step) ==> MindsIts(Next(s, step))
    ensures MindsIts(s) && !step.NoMessage? ==> MindsIts(Next(s, step))
  {
    hide Judge, Prepare, Advertise, FinishOp, RemoveOrDefer, Introduced, IntoCompletion, WriteOut, ReadBack, Retried,
      Landed, NeedsRead;
  }

  /** Nothing moved is forgotten before the flush check. */
  lemma {:induction false} MemoryLasts(cfg: Config, states: seq<State>, steps: seq<Step>, i: nat, k: nat)
    requires FromStart(cfg, states, steps) && i <= |steps| && MovedAt(states, steps, i, k)
    ensures MindsIts(states[i])
  {
    hide Next, CanTake, Answerable, Moves, MindsIts;
    var n: nat := i - 1;
    assert Enabled(states[n], steps[n]);
    MovingIsMinded(states[n], steps[n]);
    if k < n {
      MemoryLasts(cfg, states, steps, n, k);
    }
  }

  lemma MindedAtTheFlush(s: State)
    requires s.phase.Flushing?
    ensures MindsIts(s) <==> 0 < s.loop.posted || s.loop.reapedAny
    ensures Remembers(s) <==> 0 < s.loop.posted || s.loop.reapedAny
  {}

  /** The flush check hands the checksummed batch to the pool exactly when there is one and it has ten, or this pass
      posted and reaped nothing, or nothing is left to post or reap. */
  lemma {:induction false} FlushesExactlyWhen(cfg: Config, states: seq<State>, steps: seq<Step>, i: nat)
    requires FromStart(cfg, states, steps) && i < |steps| && steps[i].Flush?
    ensures var q, t := states[i].queues, states[i + 1].queues;
            var idle := q.pending == [] && q.quiescing == [] && states[i].loop.inFlight == 0;
            if q.crc != [] && (10 <= |q.crc| || (forall k: nat :: !MovedAt(states, steps, i, k)) || idle)
            then t == q.(pool := q.pool + q.crc, crc := []) else t == q
  {
    hide CanTake, Answerable, Invariant, MovedAt, Handled, PostAttempt, QuiesceAttempt, DispatchOne, DeliverBatch,
      DecideNext, Reap, PoolDone, Remembers, MindsIts;
    StepsOf(cfg, states, steps, i);
    FlushIsDue(states[i]);
    MindedAtTheFlush(states[i]);
    if exists k: nat :: MovedAt(states, steps, i, k) {
      var k: nat :| MovedAt(states, steps, i, k);
      MemoryLasts(cfg, states, steps, i, k);
    } else if Remembers(states[i]) {
      MemoryIsTrue(cfg, states, steps, i);
    }
  }

  lemma FlushIsDue(s: State)
    requires CanTake(s, Flush)
    ensures s.phase.Flushing?
  {}

  lemma StepsOf(cfg: Config, states: seq<State>, steps: seq<Step>, i: nat)
    requires FromStart(cfg, states, steps) && i < |steps|
    ensures CanTake(states[i], steps[i]) && states[i + 1] == Next(states[i], steps[i])
  {
    hide Next, CanTake, Answerable;
    assert Enabled(states[i], steps[i]);
  }

  // ----- Holding completions back -----

  /** The pass kept its completions for another, or handed them over. */
  ghost predicate Keeps(s: State, t: State, step: Step) {
    step.Batch? && s.queues.completions != [] && t.queues == s.queues
  }

  ghost predicate HandsOver(s: State, t: State, step: Step) {
    && step.Batch? && s.queues.completions != []
    && t.queues == s.queues.(delivered := s.queues.delivered + s.queues.completions, completions := [])
  }

  /** How many passes kept their completions, from `i` up to `j`. */
  ghost function Kept(states: seq<State>, steps: seq<Step>, i: nat, j: nat): nat
    requires i <= j <= |steps| && |states| == |steps| + 1
    decreases j - i
  {
    if i == j then 0
    else Kept(states, steps, i, j - 1) + if Keeps(states[j - 1], states[j], steps[j - 1]) then 1 else 0
  }

  lemma SpinsBy(s: State, step: Step)
    requires CanTake(s, step)
    ensures var t := Next(s, step);
            t.loop.spins == if HandsOver(s, t, step) then 0 else s.loop.spins + if Keeps(s, t, step) then 1 else 0
    ensures step.Batch? && s.queues.completions != [] ==>
              if |s.queues.completions| < 10 && s.loop.spins < 10 then Keeps(s, Next(s, step), step)
              else HandsOver(s, Next(s, step), step)
  {
    hide Judge, Prepare, Advertise, FinishOp, RemoveOrDefer, Sorted, Reap, PoolDone, Complete, WriteOut, ReadBack,
      Retried;
    if step.Batch? && s.queues.completions != [] {
      KeepsOrHandsOver(s);
    }
  }

  lemma KeepsOrHandsOver(s: State)
    requires s.phase.Batching? && s.queues.completions != []
    ensures s.queues.(delivered := s.queues.delivered + s.queues.completions, completions := []) != s.queues
  {}

  /** `i` is where a run begins or has just handed completions over, and none were handed over from there to `j`. */
  ghost predicate SinceDelivery(states: seq<State>, steps: seq<Step>, i: nat, j: nat)
    requires i <= j <= |steps| && |states| == |steps| + 1
  {
    && (i == 0 || HandsOver(states[i - 1], states[i], steps[i - 1]))
    && forall k | i <= k < j :: !HandsOver(states[k], states[k + 1], steps[k])
  }

  lemma {:induction false} SpinsAreKept(cfg: Config, states: seq<State>, steps: seq<Step>, i: nat, j: nat)
    requires FromStart(cfg, states, steps) && i <= j <= |steps| && SinceDelivery(states, steps, i, j)
    ensures states[j].loop.spins == Kept(states, steps, i, j)
    decreases j - i
  {
    hide Next, CanTake, Answerable, HandsOver, Keeps;
    if i < j {
      SpinsAreKept(cfg, states, steps, i, j - 1);
      StepsOf(cfg, states, steps, j - 1);
      SpinsBy(states[j - 1], steps[j - 1]);
    } else if 0 < i {
      StepsOf(cfg, states, steps, i - 1);
      SpinsBy(states[i - 1], steps[i - 1]);
    }
  }

  /** Completions are kept for another pass exactly while there are fewer than ten and fewer than ten passes have kept
      any since the last were handed over; otherwise all of them are handed over, in order. */
  lemma {:induction false} KeepsExactlyWhen(cfg: Config, states: seq<State>, steps: seq<Step>, i: nat, j: nat)
    requires FromStart(cfg, states, steps) && i <= j < |steps| && SinceDelivery(states, steps, i, j)
    requires steps[j].Batch? && states[j].queues.completions != []
    ensures if |states[j].queues.completions| < 10 && Kept(states, steps, i, j) < 10
            then Keeps(states[j], states[j + 1], steps[j])
            else HandsOver(states[j], states[j + 1], steps[j])
  {
    hide Next, CanTake, Answerable, HandsOver, Keeps, SinceDelivery;
    StepsOf(cfg, states, steps, j);
    SpinsBy(states[j], steps[j]);
    SpinsAreKept(cfg, states, steps, i, j);
  }
}
