/** Which workers keep their pipeline within its cap: those that never leave a quiesce read waiting. */
module WorkerCap {
  import opened Basics
  import opened AddressTable
  import opened WorkerModel
  import opened WorkerInvariant
  import opened WorkerTheorems
  import opened WorkerCapRun

  /** Every completed write that waits for its read, or will, still has the room its own post took. */
  ghost predicate Roomy(s: State) {
    match s.phase
    case Dispatching => |s.queues.quiescing| + |s.queues.reaped| + s.loop.inFlight <= s.cfg.cap
    case Quiescing(attempts) => attempts == |s.queues.quiescing| && s.loop.inFlight + |s.queues.quiescing| <= s.cfg.cap
    case _ => s.queues.quiescing == [] && s.loop.inFlight <= s.cfg.cap
  }

  /** With a deadline of nothing an EAGAIN fails at once, so no read waits for a later pass. */
  lemma StepKeepsRoomy(s: State, step: Step)
    requires CanTake(s, step) && Roomy(s) && InFlightAgrees(s) && Scheduled(s)
    requires s.cfg.deadline == 0 || s.cfg.cap == 0
    ensures Roomy(Next(s, step))
  {
    hide Prepare, Advertise, Resolved, FinishOp, RemoveOrDefer, Introduced, IntoCompletion, WriteOut, ReadBack, Landed,
      NeedsRead;
  }

  lemma {:induction false} RunStaysRoomy(cfg: Config, states: seq<State>, steps: seq<Step>, i: nat)
    requires FromStart(cfg, states, steps) && i < |states| && (cfg.deadline == 0 || cfg.cap == 0)
    ensures Roomy(states[i])
  {
    hide Next, CanTake, Answerable, Roomy, Invariant;
    if i == 0 {
      NothingWaits(cfg);
    } else {
      RunStaysRoomy(cfg, states, steps, i - 1);
      RunKeepsInvariant(cfg, states, steps, i - 1);
      Agreements(states[i - 1]);
      assert Enabled(states[i - 1], steps[i - 1]);
      StepKeepsRoomy(states[i - 1], steps[i - 1]);
    }
  }

  lemma NothingWaits(cfg: Config)
    ensures Roomy(Initial(cfg))
  {}

  lemma Agreements(s: State)
    requires Invariant(s)
    ensures InFlightAgrees(s) && Scheduled(s) && PipelineBounded(s)
  {
    hide Tallied, WellFormed, Traced, ClientsAgree, Productive;
  }

  lemma RoomyIsWithin(s: State)
    requires Roomy(s)
    ensures s.loop.inFlight <= s.cfg.cap
  {}

  lemma {:induction false} CapIsKept(cfg: Config, states: seq<State>, steps: seq<Step>, i: nat)
    requires FromStart(cfg, states, steps) && i < |states|
    requires cfg.cap == 0 || !cfg.quiesceWrites || cfg.deadline == 0
    ensures states[i].loop.inFlight <= cfg.cap
  {
    hide Path, Invariant, Roomy;
    RunKeepsInvariant(cfg, states, steps, i);
    if cfg.quiesceWrites || cfg.cap == 0 {
      RunStaysRoomy(cfg, states, steps, i);
      RoomyIsWithin(states[i]);
    } else {
      Agreements(states[i]);
    }
  }

  /** What is in flight at the end of a run. */
  ghost predicate EndsWithin(states: seq<State>, bound: nat) {
    states != [] && states[|states| - 1].loop.inFlight <= bound
  }

  /** Every run keeps the pipeline within its cap exactly when nothing is ever posted, no write is read back, or
      no read ever waits out an EAGAIN. Otherwise there is no bound at all. */
  lemma CapIsKeptExactlyWhen(cfg: Config)
    ensures (forall states: seq<State>, steps: seq<Step> ::
            FromStart(cfg, states, steps) ==> EndsWithin(states, cfg.cap))
            <==> (cfg.cap == 0 || !cfg.quiesceWrites || cfg.deadline == 0)
  {
    hide Next, CanTake, Answerable;
    if cfg.cap == 0 || !cfg.quiesceWrites || cfg.deadline == 0 {
      forall states: seq<State>, steps: seq<Step> | FromStart(cfg, states, steps)
        ensures EndsWithin(states, cfg.cap)
      {
        CapIsKept(cfg, states, steps, |steps|);
      }
    } else {
      var states, steps := ExcessIsUnbounded(cfg, cfg.cap);
      assert FromStart(cfg, states, steps) && !EndsWithin(states, cfg.cap);
    }
  }
}
