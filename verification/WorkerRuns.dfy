/** Building runs step by step. */
module WorkerRuns {
  import opened WorkerModel

  lemma PathsJoin(states: seq<State>, steps: seq<Step>, more: seq<State>, further: seq<Step>)
    requires Path(states, steps) && Path(more, further) && states[|steps|] == more[0]
    ensures Path(states + more[1..], steps + further)
  {
    hide Next, CanTake, Answerable;
    var all, taken := states + more[1..], steps + further;
    forall i | 0 <= i < |taken|
      ensures Enabled(all[i], taken[i]) && all[i + 1] == Next(all[i], taken[i])
    {
      if |steps| <= i {
        assert all[i] == more[i - |steps|] && all[i + 1] == more[i - |steps| + 1];
      }
    }
  }

  /** A run that ends in `s`. */
  ghost predicate Reaches(cfg: Config, states: seq<State>, steps: seq<Step>, s: State) {
    FromStart(cfg, states, steps) && states[|steps|] == s
  }

  /** One step further. */
  lemma Take(cfg: Config, states: seq<State>, steps: seq<Step>, s: State, step: Step)
    returns (more: seq<State>, further: seq<Step>, t: State)
    requires Reaches(cfg, states, steps, s) && Enabled(s, step)
    ensures t == Next(s, step) && Reaches(cfg, more, further, t)
    ensures further == steps + [step] && more == states + [t]
  {
    hide CanTake, Answerable, Next;
    t := Next(s, step);
    PathsJoin(states, steps, [s, t], [step]);
    more, further := states + [t], steps + [step];
    assert [s, t][1..] == [t];
  }
}
