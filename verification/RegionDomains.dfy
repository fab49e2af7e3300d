/** Registrations are domain objects: which of them can outlive the domain their endpoint closes. */
module RegionDomains {
  import opened Basics
  import opened RegionMaps
  import opened RegionCache
  import opened RegionProtocol
  import opened RegionSafety

  /** No registration of the domain is open. */
  ghost predicate NoneOpen(s: State, domain: DomainId) {
    forall r | r in s.arcs.strong && r in s.regs :: s.regs[r].domain != domain
  }

  /** No transfer of the domain is still with the pool, and no thread has yet to drop a clone it took out of the
      registry. */
  ghost predicate NothingLingers(s: State, domain: DomainId) {
    && (forall o | o in s.ops && s.ops[o].domain == domain :: !s.ops[o].stage.Landed?)
    && (forall c | c in s.retired && c in s.arcs.holds && s.arcs.holds[c] in s.regs ::
          s.regs[s.arcs.holds[c]].domain != domain)
  }

  /** A clone on a domain about to close is lingering. */
  lemma HeldMeansLingering(s: State, domain: DomainId, c: CloneId)
    requires OwnersAgree(s) && ClonesServe(s) && Enabled(s, CloseDomain(domain))
    requires c in s.arcs.holds && s.regs[s.arcs.holds[c]].domain == domain
    ensures !NothingLingers(s, domain)
  {
    hide Within, CacheView, LookedUp, Overlaps;
    match s.owner[c]
    case Registry(_) => assert false;
    case Operation(o) => assert Clone(s.ops[o]) == Some(c);
    case Retiring => assert c in s.retired;
  }

  lemma OpenMeansLingering(s: State, domain: DomainId, r: RegId)
    requires Kept(s) && Enabled(s, CloseDomain(domain))
    requires r in s.arcs.strong && r in s.regs && s.regs[r].domain == domain
    ensures !NothingLingers(s, domain)
  {
    hide ArcsAgree, OwnersAgree, RegsKnown, ClonesServe, UncachedIsExclusive, NothingLingers, Enabled;
    OpenHasClone(s.arcs, r);
    var c :| c in s.arcs.holds && s.arcs.holds[c] == r;
    HeldMeansLingering(s, domain, c);
  }

  lemma HeldIsOpen(s: State, c: CloneId)
    requires ArcsAgree(s.arcs) && c in s.arcs.holds
    ensures s.arcs.holds[c] in s.arcs.strong
  {
    hide ClosedOnce;
  }

  lemma LandedHolds(s: State, o: OpId)
    requires OwnersAgree(s) && ClonesServe(s) && o in s.ops && s.ops[o].stage.Landed?
    ensures var c := s.ops[o].stage.clone;
            c in s.arcs.holds && s.arcs.holds[c] in s.regs && s.regs[s.arcs.holds[c]].domain == s.ops[o].domain
  {
    hide Within;
    assert s.owner[s.ops[o].stage.clone] == Operation(o);
  }

  lemma LingeringIsOpen(s: State, domain: DomainId)
    requires Kept(s) && !NothingLingers(s, domain)
    ensures !NoneOpen(s, domain)
  {
    hide ArcsAgree, OwnersAgree, ClonesServe, UncachedIsExclusive, RegsKnown;
    if o :| o in s.ops && s.ops[o].domain == domain && s.ops[o].stage.Landed? {
      LandedHolds(s, o);
      HeldIsOpen(s, s.ops[o].stage.clone);
    } else {
      var c :| c in s.retired && c in s.arcs.holds && s.arcs.holds[c] in s.regs
        && s.regs[s.arcs.holds[c]].domain == domain;
      HeldIsOpen(s, c);
    }
  }

  /** When an endpoint closes its domain, having cleared the registry, no registration outlives the domain exactly
      if the pool has finished its transfers and every clone taken out of the registry has been dropped. */
  lemma {:induction false} NoneOutlivesItsDomainExactlyWhen(
    allowed: (Extent, Extent) -> bool, states: seq<State>, steps: seq<Step>, i: nat, domain: DomainId)
    requires Path(allowed, states, steps) && i < |steps| && steps[i] == CloseDomain(domain)
    ensures NoneOpen(states[i + 1], domain) <==> NothingLingers(states[i], domain)
  {
    hide Kept, NothingLingers, OwnersAgree, ClonesServe;
    RunKeeps(allowed, states, steps, i);
    assert Takes(allowed, states[i], steps[i], states[i + 1]);
    var s := states[i];
    ClosingOpensNothing(s, domain);
    if NothingLingers(s, domain) {
      forall r | r in s.arcs.strong && r in s.regs
        ensures s.regs[r].domain != domain
      {
        if s.regs[r].domain == domain {
          OpenMeansLingering(s, domain, r);
        }
      }
    } else {
      LingeringIsOpen(s, domain);
    }
  }

  lemma ClosingOpensNothing(s: State, domain: DomainId)
    requires Enabled(s, CloseDomain(domain))
    ensures NoneOpen(Next(s, CloseDomain(domain)), domain) <==> NoneOpen(s, domain)
  {}

  // ----- Afterwards -----

  /** Nothing takes a registration on a domain that is shut. */
  ghost predicate Quit(s: State) {
    && (forall p | p in s.registry :: p.domain !in s.shut)
    && (forall o | o in s.ops && s.ops[o].domain in s.shut :: WorkerIsDoneWith(s.ops[o]))
  }

  lemma StepStaysQuit(s: State, step: Step)
    requires Enabled(s, step) && Quit(s)
    ensures Quit(Next(s, step))
  {
    hide CacheView, LookedUp, Overlaps, Unaffected, Elsewhere, RegionsIn, UsableSpan, Fresh, Cloned, Dropped;
  }

  /** A step opens a registration on no domain that is shut. */
  lemma StepOpensNone(s: State, step: Step, domain: DomainId)
    requires Enabled(s, step) && Quit(s) && domain in s.shut && NoneOpen(s, domain) && Kept(s)
    ensures NoneOpen(Next(s, step), domain) && domain in Next(s, step).shut
  {
    hide Kept, CacheView, LookedUp, Overlaps, Unaffected, Elsewhere, RegionsIn, UsableSpan;
  }

  lemma {:induction false} RunStaysQuit(allowed: (Extent, Extent) -> bool, states: seq<State>, steps: seq<Step>, i: nat)
    requires Path(allowed, states, steps) && i < |states|
    ensures Quit(states[i])
  {
    hide Next, Enabled, Kept, Quit;
    if i == 0 {
      NothingShut();
    } else {
      RunStaysQuit(allowed, states, steps, i - 1);
      RunKeeps(allowed, states, steps, i - 1);
      assert Takes(allowed, states[i - 1], steps[i - 1], states[i]);
      StepStaysQuit(states[i - 1], steps[i - 1]);
    }
  }

  lemma NothingShut()
    ensures Quit(Initial())
  {}

  /** A domain closed with nothing lingering never has an open registration again. */
  lemma {:induction false} ClosedDomainsStayClear(
    allowed: (Extent, Extent) -> bool, states: seq<State>, steps: seq<Step>, i: nat, j: nat, domain: DomainId)
    requires Path(allowed, states, steps) && i < j < |states| && steps[i] == CloseDomain(domain)
    requires NothingLingers(states[i], domain)
    ensures NoneOpen(states[j], domain) && domain in states[j].shut
    decreases j
  {
    hide Next, Enabled, Kept, Quit, NoneOpen, NothingLingers;
    assert Takes(allowed, states[j - 1], steps[j - 1], states[j]);
    if j == i + 1 {
      NoneOutlivesItsDomainExactlyWhen(allowed, states, steps, i, domain);
      ClosingShuts(states[i], domain);
    } else {
      ClosedDomainsStayClear(allowed, states, steps, i, j - 1, domain);
      RunStaysQuit(allowed, states, steps, j - 1);
      RunKeeps(allowed, states, steps, j - 1);
      StepOpensNone(states[j - 1], steps[j - 1], domain);
    }
  }

  lemma ClosingShuts(s: State, domain: DomainId)
    requires Enabled(s, CloseDomain(domain))
    ensures domain in Next(s, CloseDomain(domain)).shut
  {}

  // ----- A lease that does outlive its domain -----

  function Only(stage: Stage, operand: Extent): Op {
    Op(0, operand, None, false, stage)
  }

  /** One transfer, its operand registered and not cached. */
  function With(stage: Stage, operand: Extent, shut: set<DomainId>): State {
    State(Arcs(map[0 := 0], map[0 := 1], [], 1, 1), map[0 := Registration(0, operand, {}, false)], map[], {},
          map[0 := Only(stage, operand)], {}, map[0 := Operation(0)], shut)
  }

  function Unheld(stage: Stage, operand: Extent): State {
    Initial().(ops := map[0 := Only(stage, operand)])
  }

  lemma Begins(allowed: (Extent, Extent) -> bool, operand: Extent)
    requires operand.base <= operand.end
    ensures Takes(allowed, Initial(), Begin(0, Only(Waiting, operand)), Unheld(Waiting, operand))
  {
    hide CacheView;
  }

  lemma NothingIsCached(s: State, op: Op)
    requires s.registry == map[]
    ensures LookedUp(s, op).None?
  {
    hide Lookup;
    var view: View := map[];
    assert CacheView(s) == view;
    assert RegionsIn(view, op.domain) == map[];
    LookupInNothing(op.operand);
  }

  lemma Misses(allowed: (Extent, Extent) -> bool, operand: Extent)
    ensures Takes(allowed, Unheld(Waiting, operand), Miss(0), Unheld(Missed, operand))
  {
    hide CacheView, LookedUp;
    NothingIsCached(Unheld(Waiting, operand), Only(Waiting, operand));
  }

  lemma Registers(allowed: (Extent, Extent) -> bool, operand: Extent)
    ensures Takes(allowed, Unheld(Missed, operand), Register(0, false), With(Holding(0, false), operand, {}))
  {
    hide CacheView, LookedUp;
  }

  lemma PostsAndLands(allowed: (Extent, Extent) -> bool, operand: Extent)
    ensures Takes(allowed, With(Holding(0, false), operand, {}), Post(0), With(Posted(0), operand, {}))
    ensures Takes(allowed, With(Posted(0), operand, {}), Land(0), With(Landed(0), operand, {}))
  {
    hide CacheView;
  }

  lemma ClearsUnderIt(allowed: (Extent, Extent) -> bool, operand: Extent)
    ensures Takes(allowed, With(Landed(0), operand, {}), ClearDomain(0), With(Landed(0), operand, {}))
  {
    hide CacheView, Elsewhere;
    var s := With(Landed(0), operand, {});
    var left := Elsewhere(CacheView(s), 0);
    assert Retire(s, left).registry == s.registry && Retire(s, left).retired == s.retired
      && Retire(s, left).owner == s.owner;
  }

  lemma ClosesUnderIt(allowed: (Extent, Extent) -> bool, operand: Extent)
    ensures Takes(allowed, With(Landed(0), operand, {}), CloseDomain(0), With(Landed(0), operand, {0}))
    ensures !NoneOpen(With(Landed(0), operand, {0}), 0)
  {
    hide CacheView, Elsewhere;
    assert 0 in With(Landed(0), operand, {0}).arcs.strong;
  }

  lemma ReleasesTooLate(allowed: (Extent, Extent) -> bool, operand: Extent)
    ensures var s := With(Landed(0), operand, {0});
            && Enabled(s, Release(0)) && Takes(allowed, s, Release(0), Next(s, Release(0)))
            && 0 !in s.arcs.closes && 0 in Next(s, Release(0)).arcs.closes
  {}

  /** A transfer still with the pool when its endpoint goes: for any operand, a run that deregisters it only after
      its domain is closed. */
  lemma {:induction false} LeaseCanOutliveItsDomain(allowed: (Extent, Extent) -> bool, operand: Extent)
    returns (states: seq<State>, steps: seq<Step>, i: nat)
    requires operand.base <= operand.end
    ensures Path(allowed, states, steps) && i < |steps| && steps[i] == CloseDomain(0)
    ensures !NoneOpen(states[i + 1], 0) && 0 !in states[i + 1].arcs.closes && 0 in states[|steps|].arcs.closes
  {
    hide Takes, Next, Enabled, NoneOpen, With, Unheld, Initial;
    Begins(allowed, operand);
    Misses(allowed, operand);
    Registers(allowed, operand);
    PostsAndLands(allowed, operand);
    ClearsUnderIt(allowed, operand);
    ClosesUnderIt(allowed, operand);
    ReleasesTooLate(allowed, operand);
    var last := With(Landed(0), operand, {0});
    steps := [Begin(0, Only(Waiting, operand)), Miss(0), Register(0, false), Post(0), Land(0), ClearDomain(0),
              CloseDomain(0), Release(0)];
    states := [Initial(), Unheld(Waiting, operand), Unheld(Missed, operand), With(Holding(0, false), operand, {}),
               With(Posted(0), operand, {}), With(Landed(0), operand, {}), With(Landed(0), operand, {}), last,
               Next(last, Release(0))];
    i := 6;
  }
}
