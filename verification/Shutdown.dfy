/** Shutting down: once every device's channel is closed, libfabric answers and the clock moves, every worker
    returns, its pool runs dry, and everybody the module ever blocked is answered. */
module Shutdown {
  import opened Basics
  import opened AddressTable
  import opened WorkerModel
  import opened WorkerInvariant
  import opened WorkerTheorems
  import opened WorkerBounds
  import opened WorkerRuns
  import L = WorkerLiveness
  import opened Transfers

  /** What a worker does from here on. */
  datatype Future = Future(states: nat -> State, steps: nat -> Step)

  /** The loop has returned and the pool has finished its jobs. */
  predicate Ended(s: State) {
    s.phase.Stopped? && s.queues.pool == []
  }

  /** The loop steps until it returns, and pool threads finish jobs in between and after. */
  ghost predicate Unfolds(f: Future) {
    forall i: nat | !Ended(f.states(i)) ::
      Enabled(f.states(i), f.steps(i)) && f.states(i + 1) == Next(f.states(i), f.steps(i))
  }

  /** A future of this worker, from where it stands with its channel closed and room for one operation, in which
      libfabric ends every operation posted, its completion queue fails only so often and the clock passes every
      bound. */
  ghost predicate LeadsOn(w: Worker, f: Future) {
    && Runs(w) && f.states(0) == Now(w) && Now(w).inbox.closed && 0 < w.cfg.cap
    && Unfolds(f)
    && L.EveryPostCompletes(f.states) && L.ClockPassesEverything(f.states, f.steps) && L.FaultsCease(f.steps)
  }

  /** The worker `n` steps later. */
  ghost function After(w: Worker, f: Future, n: nat): Worker {
    Worker(w.tokens, w.cfg,
           w.states + seq(n, i requires 0 <= i => f.states(i + 1)),
           w.steps + seq(n, i requires 0 <= i => f.steps(i)))
  }

  ghost predicate NotYet(f: Future, n: nat) {
    forall i: nat | i < n :: !Ended(f.states(i))
  }

  // ----- One worker -----

  /** Intake takes what is first in the channel. */
  lemma HandlingReceives(s: State, message: Message, answer: Option<Handle>)
    ensures var t := Handled(s, message, answer);
            && t.inbox.channel == s.inbox.channel
            && t.inbox.requests == s.inbox.requests + if message.Transfer? then [message.request] else []
  {
    hide Prepare, Introduced, RemoveOrDefer;
  }

  lemma ReceivingDrains(s: State, answer: Option<Handle>)
    requires s.inbox.channel != []
    ensures var t := Handled(Popped(s), s.inbox.channel[0], answer);
            t.inbox.requests + Sent(t.inbox.channel) == s.inbox.requests + Sent(s.inbox.channel)
  {
    hide Handled;
    HandlingReceives(Popped(s), s.inbox.channel[0], answer);
  }

  lemma OthersLeaveTheChannel(s: State, step: Step)
    requires CanTake(s, step) && s.inbox.closed && !step.Receive? && !step.ParkedReceive?
    ensures Next(s, step).inbox.requests == s.inbox.requests && Next(s, step).inbox.channel == s.inbox.channel
  {
    hide Judge, Advertise, FinishOp, Sorted, Reap, PoolDone, Complete, WriteOut, ReadBack, Retried, ShouldFlush, Holds,
      Idle;
  }

  /** Nothing is sent through a closed channel. */
  lemma ClosedChannelOnlyDrains(s: State, step: Step)
    requires CanTake(s, step) && s.inbox.closed
    ensures var t := Next(s, step);
            t.inbox.requests + Sent(t.inbox.channel) == s.inbox.requests + Sent(s.inbox.channel)
  {
    hide Handled, Sent;
    match step
    case Receive(answer) => ReceivingDrains(s, answer);
    case ParkedReceive(answer) => ReceivingDrains(s.(phase := Intake), answer);
    case _ => OthersLeaveTheChannel(s, step);
  }

  lemma {:induction false} FollowsOn(w: Worker, f: Future, n: nat)
    requires LeadsOn(w, f) && Fed(w) && NotYet(f, n)
    ensures Runs(After(w, f, n)) && Now(After(w, f, n)) == f.states(n) && Now(After(w, f, n)).inbox.closed
    ensures Fed(After(w, f, n)) && w.states <= After(w, f, n).states
  {
    hide CanTake, Answerable, Next, RequestFor, L.EveryPostCompletes, L.ClockPassesEverything, L.FaultsCease;
    if n == 0 {
      assert After(w, f, 0) == w;
    } else {
      var m: nat := n - 1;
      FollowsOn(w, f, m);
      var before := After(w, f, m);
      var s, step := f.states(m), f.steps(m);
      assert Enabled(s, step) && f.states(n) == Next(s, step);
      var states, steps, t := Take(w.cfg, before.states, before.steps, s, step);
      assert After(w, f, n) == Worker(w.tokens, w.cfg, states, steps);
      L.ClosedStays(s, step);
      ClosedChannelOnlyDrains(s, step);
    }
  }

  /** A stopped loop with a closed channel only has its pool's jobs left, and a completion queue nobody reads. */
  lemma StoppedOnlyFinishes(s: State, step: Step)
    requires CanTake(s, step) && L.Draining(s) && s.phase.Stopped?
    ensures var t := Next(s, step);
            && t.phase.Stopped? && |t.queues.pool| <= |s.queues.pool|
            && (|t.queues.pool| < |s.queues.pool| || (t.cq.fault && !s.cq.fault))
  {
    hide Tallied, WellFormed, Traced, ClientsAgree, Productive;
  }

  /** The first moment, from `i` on, at which the worker has ended, given one at which its loop has returned. */
  lemma {:induction false} FirstEnd(f: Future, i: nat, n: nat) returns (m: nat)
    requires Unfolds(f) && NotYet(f, i) && L.Draining(f.states(i)) && f.states(n).phase.Stopped?
    requires n <= i ==> f.states(i).phase.Stopped?
    ensures Ended(f.states(m)) && NotYet(f, m)
    decreases if i < n then n - i else 0, |f.states(i).queues.pool|, L.Bit(!f.states(i).cq.fault)
  {
    hide CanTake, Answerable, Next, L.Draining;
    if Ended(f.states(i)) {
      m := i;
    } else {
      var s, step := f.states(i), f.steps(i);
      assert Enabled(s, step) && f.states(i + 1) == Next(s, step);
      L.DrainingStays(s, step);
      if n <= i {
        StoppedOnlyFinishes(s, step);
      }
      m := FirstEnd(f, i + 1, n);
    }
  }

  lemma {:induction false} WorkerEnds(w: Worker, f: Future) returns (n: nat)
    requires LeadsOn(w, f) && Fed(w)
    ensures NotYet(f, n) && Ended(f.states(n)) && Runs(After(w, f, n)) && Fed(After(w, f, n))
    ensures Now(After(w, f, n)) == f.states(n) && w.states <= After(w, f, n).states
  {
    hide Path, Next, Enabled, Fed, Invariant, L.EveryPostCompletes, L.ClockPassesEverything, L.FaultsCease;
    RunKeepsInvariant(w.cfg, w.states, w.steps, |w.steps|);
    assert L.Runs(f.states, f.steps);
    var returned := L.WorkerReturns(f.states, f.steps, 0);
    n := FirstEnd(f, 0, returned);
    FollowsOn(w, f, n);
  }

  /** What this worker is once it has ended, the way this future has it. */
  ghost predicate EndOf(w: Worker, f: Future, r: Worker) {
    && Runs(r) && Fed(r) && Ended(Now(r)) && r.tokens == w.tokens && r.cfg == w.cfg && w.states <= r.states
    && exists n: nat :: NotYet(f, n) && r == After(w, f, n)
  }

  lemma EndsGrow(w: Worker, f: Future, r: Worker)
    requires Runs(w) && EndOf(w, f, r)
    ensures Now(w).queues.delivered <= Now(r).queues.delivered && Now(w).inbox.requests <= Now(r).inbox.requests
  {
    hide Path, After, NotYet, Fed;
    assert r.states[|w.steps|] == Now(w);
    DeliveryIsFinal(r.cfg, r.states, r.steps, |w.steps|, |r.steps|);
  }

  // ----- Every worker -----

  ghost predicate AllLeadOn(workers: seq<Worker>, futures: seq<Future>) {
    |futures| == |workers| && forall d | 0 <= d < |workers| :: LeadsOn(workers[d], futures[d])
  }

  ghost predicate EndsOf(workers: seq<Worker>, futures: seq<Future>, returned: seq<Worker>) {
    && |workers| == |futures| == |returned|
    && forall d | 0 <= d < |workers| :: EndOf(workers[d], futures[d], returned[d])
  }

  lemma {:induction false} WorkersEnd(workers: seq<Worker>, futures: seq<Future>) returns (returned: seq<Worker>)
    requires AllLeadOn(workers, futures) && forall w | w in workers :: Runs(w) && Fed(w)
    ensures EndsOf(workers, futures, returned)
  {
    hide LeadsOn, EndOf, Fed, Runs;
    if workers == [] {
      returned := [];
    } else {
      var k := |workers| - 1;
      returned := WorkersEnd(workers[..k], futures[..k]);
      assert workers[k] in workers;
      var r := OneEnds(workers[k], futures[k]);
      returned := returned + [r];
    }
  }

  lemma OneEnds(w: Worker, f: Future) returns (r: Worker)
    requires LeadsOn(w, f) && Fed(w)
    ensures EndOf(w, f, r)
  {
    hide Path, Unfolds, Fed, Ended, L.EveryPostCompletes, L.ClockPassesEverything, L.FaultsCease;
    var n := WorkerEnds(w, f);
    r := After(w, f, n);
  }

  /** What was finished before the workers ended still agrees with what they delivered. */
  lemma HistoryContinues(workers: seq<Worker>, futures: seq<Future>, returned: seq<Worker>, log: seq<Happening>)
    requires Interleaves(workers, log) && EndsOf(workers, futures, returned)
    ensures Interleaves(returned, log) && TokensOf(returned) == TokensOf(workers)
  {
    hide Path, Fed, FinishedOf, Honest, LandedIn, Issued, CarriesItsContext;
    forall k | 0 <= k < |log|
      ensures CarriesItsContext(returned, log[k])
    {
      ContextContinues(workers, futures, returned, log, k);
    }
    forall d | 0 <= d < |returned|
      ensures FinishedOf(log, d) <= multiset(Now(returned[d]).queues.delivered)
    {
      assert workers[d] in workers;
      EndsGrow(workers[d], futures[d], returned[d]);
      PrefixCountsLess(Now(workers[d]).queues.delivered, Now(returned[d]).queues.delivered);
    }
  }

  lemma PrefixCountsLess(before: seq<Completion>, after: seq<Completion>)
    requires before <= after
    ensures multiset(before) <= multiset(after)
  {
    assert after == before + after[|before|..];
  }

  lemma ContextContinues(
    workers: seq<Worker>, futures: seq<Future>, returned: seq<Worker>, log: seq<Happening>, k: nat)
    requires Interleaves(workers, log) && EndsOf(workers, futures, returned) && k < |log|
    requires forall r | r in returned :: Runs(r)
    ensures CarriesItsContext(returned, log[k])
  {
    hide Path, Fed, FinishedOf, Honest, Issued, Interleaves;
    if log[k].Finished? {
      FinishedIsHonest(workers, log, k);
      var d := log[k].device;
      HonestIsKnown(workers[d].cfg, Now(workers[d]).inbox.requests, log[k].completion);
      EndsGrow(workers[d], futures[d], returned[d]);
    }
  }

  // ----- The rest of the history -----

  /** More completions, after which everything delivered has been finished. */
  ghost predicate CatchesUp(returned: seq<Worker>, log: seq<Happening>, more: seq<Happening>) {
    (forall h | h in more :: h.Finished?) && Interleaves(returned, log + more) && AllDone(returned, log + more)
  }

  lemma {:induction false} CatchingUpKeepsPlaces(
    tokens: seq<seq<Token>>, log: seq<Happening>, more: seq<Happening>, blocked: nat, places: map<BlockedId, Place>)
    requires Placed(tokens, log, blocked, places) && forall h | h in more :: h.Finished?
    ensures Placed(tokens, log + more, blocked, places)
  {
    hide Placed;
    if more == [] {
      assert log + more == log;
    } else {
      var n := |more| - 1;
      CatchingUpKeepsPlaces(tokens, log, more[..n], blocked, places);
      FinishedKeepsPlaces(tokens, log + more[..n], blocked, places, more[n]);
      assert log + more[..n] + [more[n]] == log + more;
    }
  }

  /** One completion more, with its own context. */
  ghost function FinishedWith(returned: seq<Worker>, d: Device, c: Completion): Happening
    requires d < |returned| && Runs(returned[d]) && c.id < |returned[d].tokens|
  {
    Finished(d, returned[d].tokens[c.id], c, LandedIn(d, Now(returned[d]).inbox.requests, c.id), true)
  }

  lemma FinishedGrows(log: seq<Happening>, h: Happening, d: Device)
    ensures FinishedOf(log + [h], d) ==
            FinishedOf(log, d) + if h.Finished? && h.device == d then multiset{h.completion} else multiset{}
  {
    assert (log + [h])[..|log|] == log;
  }

  lemma DeliveredHasContext(w: Worker, c: Completion)
    requires Runs(w) && Fed(w) && c in Now(w).queues.delivered
    ensures c.id < |w.tokens|
  {
    hide Path, Fed, Honest, Issued;
    FedIsIssued(w);
    IssuedIsLonger(w.tokens, Now(w).inbox.requests);
    DeliveredIsHonest(w.cfg, w.states, w.steps, |w.steps|);
    HonestIsKnown(w.cfg, Now(w).inbox.requests, c);
  }

  lemma FinishOneMore(returned: seq<Worker>, log: seq<Happening>, d: Device, c: Completion) returns (h: Happening)
    requires Interleaves(returned, log) && d < |returned|
    requires FinishedOf(log, d)[c] < multiset(Now(returned[d]).queues.delivered)[c]
    ensures h.Finished? && Interleaves(returned, log + [h])
    ensures FinishedOf(log + [h], d) == FinishedOf(log, d) + multiset{c}
    ensures forall e: Device | e != d :: FinishedOf(log + [h], e) == FinishedOf(log, e)
  {
    hide Path, Fed, FinishedOf, LandedIn;
    assert returned[d] in returned && c in Now(returned[d]).queues.delivered;
    DeliveredHasContext(returned[d], c);
    h := FinishedWith(returned, d, c);
    forall e: Device
      ensures FinishedOf(log + [h], e) == FinishedOf(log, e) + if e == d then multiset{c} else multiset{}
    {
      FinishedGrows(log, h, e);
    }
    assert CarriesItsContext(returned, h);
  }

  lemma {:induction false} DeviceCanCatchUp(returned: seq<Worker>, log: seq<Happening>, d: Device)
    returns (more: seq<Happening>)
    requires Interleaves(returned, log) && d < |returned|
    ensures (forall h | h in more :: h.Finished?) && Interleaves(returned, log + more)
    ensures FinishedOf(log + more, d) == multiset(Now(returned[d]).queues.delivered)
    ensures forall e: Device | e != d :: FinishedOf(log + more, e) == FinishedOf(log, e)
    decreases |multiset(Now(returned[d]).queues.delivered) - FinishedOf(log, d)|
  {
    hide Interleaves, FinishedOf;
    FinishedSoFar(returned, log, d);
    var all, some := multiset(Now(returned[d]).queues.delivered), FinishedOf(log, d);
    if all == some {
      more := [];
      assert log + more == log;
    } else {
      var c := OneIsLeft(some, all);
      var h := FinishOneMore(returned, log, d, c);
      var rest := DeviceCanCatchUp(returned, log + [h], d);
      more := [h] + rest;
      assert log + more == log + [h] + rest;
    }
  }

  lemma FinishedSoFar(returned: seq<Worker>, log: seq<Happening>, d: Device)
    requires Interleaves(returned, log) && d < |returned|
    ensures Runs(returned[d]) && FinishedOf(log, d) <= multiset(Now(returned[d]).queues.delivered)
  {
    hide Path, Fed, FinishedOf, CarriesItsContext;
    assert returned[d] in returned;
  }

  lemma OneIsLeft<T>(some: multiset<T>, all: multiset<T>) returns (c: T)
    requires some <= all && some != all
    ensures some[c] < all[c] && |all - (some + multiset{c})| < |all - some|
  {
    var left := all - some;
    assert all == some + left;
    c :| c in left;
    assert all - (some + multiset{c}) == left - multiset{c};
  }

  /** Whatever the workers delivered, the module can finish it. */
  lemma {:induction false} CanCatchUp(returned: seq<Worker>, log: seq<Happening>, k: nat) returns (more: seq<Happening>)
    requires Interleaves(returned, log) && k <= |returned|
    ensures (forall h | h in more :: h.Finished?) && Interleaves(returned, log + more)
    ensures forall d: Device | d < k :: FinishedOf(log + more, d) == multiset(Now(returned[d]).queues.delivered)
  {
    hide Runs, Fed, FinishedOf, CarriesItsContext;
    if k == 0 {
      more := [];
      assert log + more == log;
    } else {
      var before := CanCatchUp(returned, log, k - 1);
      var rest := DeviceCanCatchUp(returned, log + before, k - 1);
      more := before + rest;
      assert log + more == log + before + rest;
    }
  }

  /** Once every device's channel is closed, and whatever libfabric does with the operations already posted as long as
      it ends them and the clock moves: every worker ends, what the module finished so far stays so, it can finish the
      rest, and whenever it has, in whatever order, everybody it ever blocked has been answered. */
  lemma {:induction false} ClosedChannelsAnswerEveryone(
    workers: seq<Worker>, futures: seq<Future>, log: seq<Happening>, blocked: nat, places: map<BlockedId, Place>)
    returns (returned: seq<Worker>, rest: seq<Happening>)
    requires Interleaves(workers, log) && Placed(TokensOf(workers), log, blocked, places) && AllLeadOn(workers, futures)
    ensures EndsOf(workers, futures, returned) && Interleaves(returned, log) && CatchesUp(returned, log, rest)
    ensures forall more: seq<Happening>, keys: Keys, b: BlockedId | CatchesUp(returned, log, more) && b < blocked ::
              HasReply(RepliesAfter(keys, log + more), b)
  {
    hide Interleaves, AllLeadOn, EndsOf, Placed, AllDone, HasReply, RepliesAfter;
    AllFed(workers, log);
    returned := WorkersEnd(workers, futures);
    HistoryContinues(workers, futures, returned, log);
    rest := CanCatchUp(returned, log, |returned|);
    EndedIsDone(workers, futures, returned, log + rest);
    forall more: seq<Happening>, keys: Keys, b: BlockedId | CatchesUp(returned, log, more) && b < blocked
      ensures HasReply(RepliesAfter(keys, log + more), b)
    {
      CatchingUpKeepsPlaces(TokensOf(returned), log, more, blocked, places);
      EveryClientIsAnswered(returned, log + more, keys, blocked, places, b);
    }
  }

  lemma EndedIsDone(workers: seq<Worker>, futures: seq<Future>, returned: seq<Worker>, log: seq<Happening>)
    requires EndsOf(workers, futures, returned)
    requires forall d: Device | d < |returned| :: FinishedOf(log, d) == multiset(Now(returned[d]).queues.delivered)
    ensures AllDone(returned, log)
  {
    hide Path, Fed, FinishedOf, After, NotYet;
  }

  lemma AllFed(workers: seq<Worker>, log: seq<Happening>)
    requires Interleaves(workers, log)
    ensures forall w | w in workers :: Runs(w) && Fed(w)
  {}
}
