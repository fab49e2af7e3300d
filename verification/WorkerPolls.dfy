/** Reaping, told by a run's own steps: what libfabric ends is read in order, each with its own result, and a poll
    leaves nothing behind short of ten. */
module WorkerPolls {
  import opened Basics
  import opened AddressTable
  import opened WorkerModel
  import opened WorkerInvariant
  import opened WorkerTheorems

  /** The operations libfabric ended in the first `i` steps, in order, with how. */
  ghost function EndedBy(states: seq<State>, steps: seq<Step>, i: nat): seq<CqEntry> {
    if 0 < i <= |steps| && i <= |states| then
      EndedBy(states, steps, i - 1)
      + match steps[i - 1]
        case FabricDone(ofReads, place, result) =>
          var q := if ofReads then states[i - 1].queues.readBacks else states[i - 1].queues.first;
          if place < |q| then [CqEntry(q[place].id, result)] else []
        case _ => []
    else []
  }

  /** What reaping an operation recorded: whose it was, and the result its trail now ends with. */
  function Recorded(reaped: seq<Item>): seq<CqEntry> {
    if reaped == [] then []
    else
      var x := reaped[|reaped| - 1];
      if x.trail != [] && x.trail[|x.trail| - 1].Reaped? then [CqEntry(x.id, x.trail[|x.trail| - 1].ok)] else []
  }

  /** The operations reaped in the first `i` steps, in order, with the results recorded. */
  ghost function ReapedBy(states: seq<State>, steps: seq<Step>, i: nat): seq<CqEntry> {
    if 0 < i <= |steps| && i < |states| then
      ReapedBy(states, steps, i - 1) + if steps[i - 1].ReapOne? then Recorded(states[i].queues.reaped) else []
    else []
  }

  lemma QueueBy(s: State, step: Step)
    requires CanTake(s, step)
    ensures var t := Next(s, step);
            match step
            case FabricDone(ofReads, place, result) =>
              && place < |if ofReads then s.queues.readBacks else s.queues.first|
              && t.cq.entries
                 == s.cq.entries + [CqEntry((if ofReads then s.queues.readBacks else s.queues.first)[place].id, result)]
            case ReapOne(_, _, _) => s.cq.entries == Recorded(t.queues.reaped) + t.cq.entries
            case _ => t.cq.entries == s.cq.entries
    ensures Next(s, step).cq.fault ==> s.cq.fault || step == FabricFault
  {
    hide Judge, Prepare, Advertise, FinishOp, RemoveOrDefer, Introduced, IntoCompletion, WriteOut, ReadBack, Retried,
      NeedsRead, Unqueued;
  }

  /** Every operation libfabric ended was reaped with its own result, in the order they ended, or is still ready; and
      nothing else was reaped. */
  lemma {:induction false} ReapedAsEnded(cfg: Config, states: seq<State>, steps: seq<Step>, i: nat)
    requires FromStart(cfg, states, steps) && i < |states|
    ensures EndedBy(states, steps, i) == ReapedBy(states, steps, i) + states[i].cq.entries
  {
    hide Next, CanTake, Answerable, Recorded;
    if 0 < i {
      ReapedAsEnded(cfg, states, steps, i - 1);
      assert Enabled(states[i - 1], steps[i - 1]);
      QueueBy(states[i - 1], steps[i - 1]);
    }
  }

  /** A read of the queue fails only because libfabric made it. */
  lemma {:induction false} FaultsAreGiven(cfg: Config, states: seq<State>, steps: seq<Step>, i: nat)
    requires FromStart(cfg, states, steps) && i < |states| && states[i].cq.fault
    ensures FabricFault in steps[..i]
  {
    hide Next, CanTake, Answerable;
    var step := steps[i - 1];
    assert Enabled(states[i - 1], step) && step in steps[..i];
    QueueBy(states[i - 1], step);
    if !step.FabricFault? {
      FaultsAreGiven(cfg, states, steps, i - 1);
      assert steps[..i - 1] <= steps[..i];
    }
  }

  /** A poll ends with nothing ready, with ten taken, or with a read that failed; never with more than ten. */
  lemma {:induction false} PollsTakeWhatIsReady(cfg: Config, states: seq<State>, steps: seq<Step>, i: nat)
    requires FromStart(cfg, states, steps) && i < |steps| && steps[i].ReapDone?
    ensures |states[i].queues.reaped| <= 10
    ensures states[i].cq.entries == [] || |states[i].queues.reaped| == 10 || FabricFault in steps[..i]
  {
    hide Next, Answerable, Invariant;
    RunKeepsInvariant(cfg, states, steps, i);
    PollIsEnabled(cfg, states, steps, i);
    InvariantBounds(states[i]);
    if states[i].cq.fault {
      FaultsAreGiven(cfg, states, steps, i);
    }
  }

  lemma PollIsEnabled(cfg: Config, states: seq<State>, steps: seq<Step>, i: nat)
    requires FromStart(cfg, states, steps) && i < |steps|
    ensures CanTake(states[i], steps[i])
  {
    hide Next, CanTake, Answerable;
    assert Enabled(states[i], steps[i]);
  }

  lemma InvariantBounds(s: State)
    requires Invariant(s)
    ensures |s.queues.reaped| <= 10
  {
    hide Tallied, WellFormed, Traced, ClientsAgree, Productive;
  }
}
