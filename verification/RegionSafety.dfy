/** What every interleaving of the registration cache keeps: leases cover their operands and keep their
    registrations open, registrations close once, and, where spans are operands, nothing cached goes stale. */
module RegionSafety {
  import opened Basics
  import opened RegionMaps
  import opened RegionCache
  import opened RegionProtocol

  // ----- Clones serve their owners -----

  lemma TakingServes(s: State, op: OpId, arcs: Arcs, c: CloneId, r: RegId, due: bool, regs: map<RegId, Registration>)
    requires ClonesServe(s) && op in s.ops && c !in s.owner && arcs.holds == s.arcs.holds[c := r]
    requires forall x | x in s.regs && (exists d :: d in s.arcs.holds && s.arcs.holds[d] == x) ::
               x in regs && regs[x] == s.regs[x]
    requires r in regs && regs[r].domain == s.ops[op].domain && Within(s.ops[op].operand, regs[r].extent)
    ensures ClonesServe(s.(arcs := arcs, regs := regs, ops := Staged(s, op, Holding(c, due)),
                           owner := s.owner[c := Operation(op)]))
  {
    hide Within;
  }

  lemma StagingServes(s: State, op: OpId, stage: Stage)
    requires ClonesServe(s) && op in s.ops
    ensures ClonesServe(s.(ops := Staged(s, op, stage)))
  {
    hide Within;
  }

  lemma DroppingServes(s: State, c: CloneId, arcs: Arcs, retired: set<CloneId>)
    requires ClonesServe(s) && arcs.holds == s.arcs.holds - {c}
    ensures ClonesServe(s.(arcs := arcs, retired := retired, owner := s.owner - {c}))
  {
    hide Within;
  }

  lemma RetiringServes(s: State, left: View)
    requires ClonesServe(s)
    ensures ClonesServe(Retire(s, left))
  {
    hide Within;
  }

  lemma CachingServes(s: State, op: OpId)
    requires Enabled(s, Track(op)) && ArcsAgree(s.arcs) && OwnersAgree(s) && ClonesServe(s)
    ensures ClonesServe(Tracked(s, op))
  {
    hide Within, CacheView, LookedUp, Overlaps, ArcsAgree, Tracked, OwnersAgree, Serves;
    FreshCloneIsNew(s);
    var t := Tracked(s, op);
    forall c | c in t.arcs.holds
      ensures c in t.owner && t.arcs.holds[c] in t.regs && Serves(t, t.owner[c], t.regs[t.arcs.holds[c]])
    {
      CachedCloneServes(s, op, c);
    }
  }

  lemma FreshCloneIsNew(s: State)
    requires ArcsAgree(s.arcs) && OwnersAgree(s)
    ensures s.arcs.nextClone !in s.arcs.holds && s.arcs.nextClone !in s.owner
  {
    hide Counted, ClosedOnce, Clone;
  }

  lemma CachedCloneServes(s: State, op: OpId, c: CloneId)
    requires Enabled(s, Track(op)) && OwnersAgree(s) && ClonesServe(s) && s.arcs.nextClone !in s.arcs.holds
    requires c in Tracked(s, op).arcs.holds
    ensures var t := Tracked(s, op);
            c in t.owner && t.arcs.holds[c] in t.regs && Serves(t, t.owner[c], t.regs[t.arcs.holds[c]])
  {
    hide Within, CacheView, LookedUp, Overlaps;
    assert s.owner[s.ops[op].stage.clone] == Operation(op);
  }

  lemma StepKeepsServing(s: State, step: Step)
    requires Enabled(s, step) && ArcsAgree(s.arcs) && OwnersAgree(s) && RegsKnown(s) && ClonesServe(s)
    ensures ClonesServe(Next(s, step))
  {
    hide ClonesServe, OwnersAgree, CacheView, LookedUp, Overlaps, Unaffected, Elsewhere, RegionsIn, UsableSpan,
      Counted, ClosedOnce, Retire, Tracked,
      Staged, RegsKnown;
    OwnersAreHolders(s);
    match step
    case Begin(op, born) => ComingServes(s, op, born);
    case Hit(op) =>
      HitServes(s, s.ops[op]);
      TakingServes(s, op, Cloned(s.arcs, LookedUp(s, s.ops[op]).value), s.arcs.nextClone, LookedUp(s, s.ops[op]).value,
                   false, s.regs);
    case Miss(op) => StagingServes(s, op, Missed);
    case Register(op, wide) =>
      SpanContains(s.ops[op]);
      FreshIsUnknown(s);
      TakingServes(s, op, Fresh(s.arcs), s.arcs.nextClone, s.arcs.nextReg, UsableSpan(s.ops[op]).Some?,
                   Next(s, step).regs);
    case Track(op) => CachingServes(s, op);
    case Post(op) => StagingServes(s, op, Posted(s.ops[op].stage.clone));
    case Refuse(op) => LettingServes(s, op, Waiting);
    case Land(op) => StagingServes(s, op, Landed(s.ops[op].stage.clone));
    case Release(op) => LettingServes(s, op, Over(s.arcs.holds[s.ops[op].stage.clone]));
    case Hand(op) => GoingServes(s, op);
    case Abandon(op) => GoingServes(s, op);
    case Invalidate(range) =>
      RetiringServes(s, Unaffected(CacheView(s), range));
      ReclaimingServes(Retire(s, Unaffected(CacheView(s), range)), range, s.reclaiming + {range});
    case Reclaim(range) => ReclaimingServes(s, range, s.reclaiming - {range});
    case DropRetired(c) => DroppingServes(s, c, Dropped(s.arcs, c), s.retired - {c});
    case ClearDomain(domain) => RetiringServes(s, Elsewhere(CacheView(s), domain));
    case CloseDomain(domain) => ShuttingServes(s, s.shut + {domain});
  }

  lemma ShuttingServes(s: State, shut: set<DomainId>)
    requires ClonesServe(s)
    ensures ClonesServe(s.(shut := shut))
  {
    hide Within;
  }

  lemma SpanContains(op: Op)
    ensures UsableSpan(op).Some? ==> Within(op.operand, UsableSpan(op).value)
    ensures Within(op.operand, op.operand)
  {}

  lemma FreshIsUnknown(s: State)
    requires RegsKnown(s)
    ensures s.arcs.nextReg !in s.regs
  {}

  lemma ComingServes(s: State, op: OpId, born: Op)
    requires ClonesServe(s) && op !in s.ops
    ensures ClonesServe(s.(ops := s.ops[op := born]))
  {
    hide Within;
  }

  lemma GoingServes(s: State, op: OpId)
    requires ClonesServe(s) && OwnersAgree(s) && op in s.ops && Clone(s.ops[op]).None?
    ensures ClonesServe(s.(ops := s.ops - {op}))
  {
    hide Within, Clone;
  }

  lemma LettingServes(s: State, op: OpId, stage: Stage)
    requires ClonesServe(s) && RegionProtocol.Holds(s, op)
    ensures ClonesServe(Let(s, op, stage))
  {
    hide Within, Clone;
  }

  lemma ReclaimingServes(s: State, range: Extent, reclaiming: set<Extent>)
    requires ClonesServe(s)
    ensures ClonesServe(s.(reclaiming := reclaiming))
    ensures ClonesServe(s.(regs := map r | r in s.regs :: Reclaimed(s.regs[r], range), reclaiming := reclaiming))
  {
    hide Within;
  }

  // ----- Uncached registrations -----

  lemma FreshStaysExclusive(s: State, op: OpId, extent: Extent)
    requires UncachedIsExclusive(s) && ArcsAgree(s.arcs) && RegsKnown(s) && op in s.ops
    ensures UncachedIsExclusive(Registered(s, op, extent))
  {
    hide UncachedIsExclusive, ArcsAgree, RegsKnown, Registered;
    FreshKeepsArcs(s.arcs);
    FreshIsUnknown(s);
    NewStaysExclusive(s, op, extent);
  }

  lemma NewStaysExclusive(s: State, op: OpId, extent: Extent)
    requires UncachedIsExclusive(s) && op in s.ops && s.arcs.nextReg !in s.regs && s.arcs.nextClone !in s.arcs.holds
    requires forall c | c in s.arcs.holds :: s.arcs.holds[c] != s.arcs.nextReg
    ensures UncachedIsExclusive(Registered(s, op, extent))
  {
    hide UsableSpan;
  }

  lemma HittingStaysExclusive(s: State, op: OpId, r: RegId, owner: map<CloneId, Owner>)
    requires UncachedIsExclusive(s) && op in s.ops && r in s.arcs.strong && r in s.regs && s.regs[r].cached
    ensures UncachedIsExclusive(s.(arcs := Cloned(s.arcs, r), ops := Staged(s, op, Holding(s.arcs.nextClone, false)),
                                   owner := owner))
  {}

  lemma StagingStaysExclusive(s: State, op: OpId, stage: Stage)
    requires UncachedIsExclusive(s) && op in s.ops && !stage.Over?
    ensures UncachedIsExclusive(s.(ops := Staged(s, op, stage)))
  {}

  lemma CachingStaysExclusive(s: State, op: OpId)
    requires Enabled(s, Track(op)) && UncachedIsExclusive(s)
    ensures UncachedIsExclusive(Tracked(s, op))
  {
    hide CacheView, LookedUp, Overlaps;
  }

  lemma DroppingStaysExclusive(s: State, c: CloneId)
    requires UncachedIsExclusive(s) && ArcsAgree(s.arcs) && c in s.arcs.holds && s.arcs.holds[c] in s.arcs.strong
             && 0 < s.arcs.strong[s.arcs.holds[c]]
    ensures UncachedIsExclusive(s.(arcs := Dropped(s.arcs, c)))
    ensures s.arcs.holds[c] in s.regs && !s.regs[s.arcs.holds[c]].cached ==>
              s.arcs.holds[c] in Dropped(s.arcs, c).closes
  {
    hide ClosedOnce;
    DroppedKeepsArcs(s.arcs, c);
  }

  lemma LettingStaysExclusive(s: State, op: OpId, stage: Stage)
    requires UncachedIsExclusive(s) && ArcsAgree(s.arcs) && RegsKnown(s) && RegionProtocol.Holds(s, op)
    requires stage.Over? ==> stage.used == s.arcs.holds[Clone(s.ops[op]).value]
    ensures UncachedIsExclusive(Let(s, op, stage))
  {
    hide ArcsAgree, RegsKnown, Clone;
    var c := Clone(s.ops[op]).value;
    DroppingStaysExclusive(s, c);
    HeldIsKnown(s, c);
  }

  lemma RestStaysExclusive(s: State, t: State)
    requires UncachedIsExclusive(s) && t.arcs == s.arcs
    requires forall r | r in s.regs :: r in t.regs && t.regs[r].cached == s.regs[r].cached
    requires forall r | r in t.regs :: r in s.regs
    requires forall o | o in t.ops && t.ops[o].stage.Over? :: o in s.ops && s.ops[o] == t.ops[o]
    ensures UncachedIsExclusive(t)
  {}

  lemma StepKeepsExclusive(s: State, step: Step)
    requires Enabled(s, step) && ArcsAgree(s.arcs) && OwnersAgree(s) && RegsKnown(s) && ClonesServe(s)
             && UncachedIsExclusive(s)
    ensures UncachedIsExclusive(Next(s, step))
  {
    hide UncachedIsExclusive, ClonesServe, OwnersAgree, CacheView, LookedUp, Overlaps, Unaffected, Elsewhere,
      RegionsIn, UsableSpan, ArcsAgree,
      Tracked, Registered, Let, Staged, RegsKnown, Cloned;
    match step
    case Begin(_, _) => RestStaysExclusive(s, Next(s, step));
    case Hit(op) =>
      HitServes(s, s.ops[op]);
      HittingStaysExclusive(s, op, LookedUp(s, s.ops[op]).value, s.owner[s.arcs.nextClone := Operation(op)]);
    case Miss(op) => StagingStaysExclusive(s, op, Missed);
    case Register(op, wide) =>
      var span := UsableSpan(s.ops[op]);
      FreshStaysExclusive(s, op, if wide && span.Some? then span.value else s.ops[op].operand);
    case Track(op) => CachingStaysExclusive(s, op);
    case Post(op) => StagingStaysExclusive(s, op, Posted(s.ops[op].stage.clone));
    case Refuse(op) => LettingStaysExclusive(s, op, Waiting);
    case Land(op) => StagingStaysExclusive(s, op, Landed(s.ops[op].stage.clone));
    case Release(op) => LettingStaysExclusive(s, op, Over(s.arcs.holds[s.ops[op].stage.clone]));
    case Hand(_) => RestStaysExclusive(s, Next(s, step));
    case Abandon(_) => RestStaysExclusive(s, Next(s, step));
    case Invalidate(_) => RestStaysExclusive(s, Next(s, step));
    case Reclaim(_) => RestStaysExclusive(s, Next(s, step));
    case DropRetired(c) =>
      DroppingStaysExclusive(s, c);
      RestStaysExclusive(s.(arcs := Dropped(s.arcs, c)), Next(s, step));
    case ClearDomain(_) => RestStaysExclusive(s, Next(s, step));
    case CloseDomain(_) => RestStaysExclusive(s, Next(s, step));
  }

  // ----- Lease safety -----

  ghost predicate Kept(s: State) {
    ArcsAgree(s.arcs) && OwnersAgree(s) && RegsKnown(s) && ClonesServe(s) && UncachedIsExclusive(s)
  }

  lemma {:induction false} RunKeeps(allowed: (Extent, Extent) -> bool, states: seq<State>, steps: seq<Step>, i: nat)
    requires Path(allowed, states, steps) && i < |states|
    ensures Kept(states[i])
  {
    hide Next, Enabled;
    if 0 < i {
      RunKeeps(allowed, states, steps, i - 1);
      assert Takes(allowed, states[i - 1], steps[i - 1], states[i]);
      StepKeeps(states[i - 1], steps[i - 1]);
    }
  }

  lemma StepKeeps(s: State, step: Step)
    requires Enabled(s, step) && Kept(s)
    ensures Kept(Next(s, step))
  {
    hide ArcsAgree, OwnersAgree, RegsKnown, ClonesServe, UncachedIsExclusive, Next, Enabled;
    StepKeepsArcs(s, step);
    StepKeepsOwners(s, step);
    StepKeepsRegs(s, step);
    StepKeepsServing(s, step);
    StepKeepsExclusive(s, step);
  }

  /** Somebody still holds a clone: the registry, a clone out of it but not dropped yet, or an operation. */
  ghost predicate SomebodyHolds(s: State, r: RegId) {
    || (exists p :: p in s.registry && s.registry[p] in s.arcs.holds && s.arcs.holds[s.registry[p]] == r)
    || (exists c :: c in s.retired && c in s.arcs.holds && s.arcs.holds[c] == r)
    || (exists o :: o in s.ops && Clone(s.ops[o]).Some? && Clone(s.ops[o]).value in s.arcs.holds
          && s.arcs.holds[Clone(s.ops[o]).value] == r)
  }

  lemma HeldBySomebody(s: State, c: CloneId)
    requires OwnersAgree(s) && c in s.arcs.holds
    ensures SomebodyHolds(s, s.arcs.holds[c])
  {
    hide Clone;
    match s.owner[c]
    case Registry(p) => assert p in s.registry && s.registry[p] == c;
    case Operation(o) => assert o in s.ops && Clone(s.ops[o]) == Some(c);
    case Retiring => assert c in s.retired;
  }

  lemma OpenHasClone(a: Arcs, r: RegId)
    requires ArcsAgree(a) && r in a.strong
    ensures exists c :: c in a.holds && a.holds[c] == r
  {
    assert Holders(a.holds, r) != {};
    var c :| c in Holders(a.holds, r);
  }

  lemma SomebodyHasClone(s: State, r: RegId)
    requires ArcsAgree(s.arcs) && SomebodyHolds(s, r)
    ensures r in s.arcs.strong
  {
    hide Clone;
  }

  lemma ClosedOrOpen(a: Arcs, r: RegId)
    requires ArcsAgree(a) && r < a.nextReg
    ensures r in a.closes <==> r !in a.strong
    ensures multiset(a.closes)[r] <= 1
  {
    OccursOnce(a.closes, r);
  }

  /** However the steps interleave: a registration is deregistered at most once, and exactly when the registry,
      every retired clone and every operation have let go of it. */
  lemma {:induction false} ClosedExactlyWhenReleased(
    allowed: (Extent, Extent) -> bool, states: seq<State>, steps: seq<Step>, i: nat, r: RegId)
    requires Path(allowed, states, steps) && i < |states| && r < states[i].arcs.nextReg
    ensures r in states[i].arcs.closes <==> !SomebodyHolds(states[i], r)
    ensures multiset(states[i].arcs.closes)[r] <= 1
  {
    hide Path, ArcsAgree, OwnersAgree, RegsKnown, ClonesServe, UncachedIsExclusive, SomebodyHolds;
    RunKeeps(allowed, states, steps, i);
    var s := states[i];
    ClosedOrOpen(s.arcs, r);
    if r in s.arcs.strong {
      OpenHasClone(s.arcs, r);
      var c :| c in s.arcs.holds && s.arcs.holds[c] == r;
      HeldBySomebody(s, c);
    } else if SomebodyHolds(s, r) {
      SomebodyHasClone(s, r);
    }
  }

  /** From lookup or registration until its completion lets go, an operation's registration is open, on its
      own domain, and covers its operand: no descriptor handed to libfabric is ever closed under it. */
  lemma {:induction false} DescriptorsStayOpen(
    allowed: (Extent, Extent) -> bool, states: seq<State>, steps: seq<Step>, i: nat, o: OpId)
    requires Path(allowed, states, steps) && i < |states|
    requires o in states[i].ops && Clone(states[i].ops[o]).Some?
    ensures var s := states[i]; var op := s.ops[o]; var c := Clone(op).value;
            && c in s.arcs.holds && s.arcs.holds[c] !in s.arcs.closes && s.arcs.holds[c] in s.regs
            && s.regs[s.arcs.holds[c]].domain == op.domain && Within(op.operand, s.regs[s.arcs.holds[c]].extent)
  {
    hide Path, RegsKnown, UncachedIsExclusive, Within, Clone;
    RunKeeps(allowed, states, steps, i);
    var s := states[i];
    var c := Clone(s.ops[o]).value;
    assert s.owner[c] == Operation(o);
    assert s.arcs.holds[c] in s.arcs.strong;
  }

  // ----- From post to completion -----

  /** Posted or landed with this clone of this registration, which is open. */
  ghost predicate Flies(s: State, o: OpId, c: CloneId, r: RegId) {
    && (At(s, o, Posted(c)) || At(s, o, Landed(c)))
    && c in s.arcs.holds && s.arcs.holds[c] == r && r !in s.arcs.closes
  }

  /** Over with this registration, which is closed unless it was ever cached. */
  ghost predicate LetGo(s: State, o: OpId, r: RegId) {
    At(s, o, Over(r)) && r in s.regs && (r in s.arcs.closes || s.regs[r].cached)
  }

  lemma FliesAfterPost(s: State, step: Step, o: OpId)
    requires Enabled(s, step) && o in Next(s, step).ops
    requires Next(s, step).ops[o].stage.Posted? || Next(s, step).ops[o].stage.Landed?
    ensures o in s.ops && Clone(s.ops[o]) == Clone(Next(s, step).ops[o])
    ensures s.ops[o].stage.Posted? || s.ops[o].stage.Landed? || (step == Post(o) && s.ops[o].stage.Holding?)
  {
    hide CacheView, LookedUp, Unaffected, Elsewhere, Overlaps, UsableSpan;
  }

  /** What an operation is over with is what it landed with: only its own release ends it. */
  lemma OverAfterRelease(s: State, step: Step, o: OpId)
    requires Enabled(s, step) && o in Next(s, step).ops && Next(s, step).ops[o].stage.Over?
    ensures o in s.ops && (s.ops[o] == Next(s, step).ops[o] || step == Release(o))
    ensures step == Release(o) ==> s.arcs.holds[s.ops[o].stage.clone] == Next(s, step).ops[o].stage.used
  {
    hide CacheView, LookedUp, Unaffected, Elsewhere, Overlaps, UsableSpan;
  }

  lemma ClonesKeepTheirRegistration(s: State, step: Step, c: CloneId)
    requires Enabled(s, step) && ArcsAgree(s.arcs) && c in s.arcs.holds && c in Next(s, step).arcs.holds
    ensures Next(s, step).arcs.holds[c] == s.arcs.holds[c]
  {
    hide CacheView, LookedUp, Unaffected, Elsewhere, Overlaps, UsableSpan, Counted, ClosedOnce;
  }

  lemma HeldIsOpen(s: State, o: OpId)
    requires Kept(s) && o in s.ops && Clone(s.ops[o]).Some?
    ensures Clone(s.ops[o]).value in s.arcs.holds && s.arcs.holds[Clone(s.ops[o]).value] !in s.arcs.closes
  {
    hide RegsKnown, UncachedIsExclusive, Within, Clone, ClonesServe;
    var c := Clone(s.ops[o]).value;
    assert s.owner[c] == Operation(o);
    assert s.arcs.holds[c] in s.arcs.strong;
  }

  /** An operation in flight was posted, and has flown ever since, with the clone and registration it has now. */
  lemma {:induction false} FliesSincePost(
    allowed: (Extent, Extent) -> bool, states: seq<State>, steps: seq<Step>, j: nat, o: OpId)
    returns (k: nat, c: CloneId, r: RegId)
    requires Path(allowed, states, steps) && j < |states| && o in states[j].ops
    requires states[j].ops[o].stage.Posted? || states[j].ops[o].stage.Landed?
    ensures Clone(states[j].ops[o]) == Some(c) && k < j && steps[k] == Post(o)
    ensures At(states[k], o, Holding(c, false)) && c in states[k].arcs.holds && states[k].arcs.holds[c] == r
    ensures forall m | k < m <= j :: Flies(states[m], o, c, r)
  {
    hide Next, Enabled, Kept, ArcsAgree;
    var was, step := states[j - 1], steps[j - 1];
    assert Takes(allowed, was, step, states[j]);
    FliesAfterPost(was, step, o);
    RunKeeps(allowed, states, steps, j - 1);
    RunKeeps(allowed, states, steps, j);
    HeldIsOpen(was, o);
    HeldIsOpen(states[j], o);
    ArcsKept(was);
    ClonesKeepTheirRegistration(was, step, Clone(was.ops[o]).value);
    if was.ops[o].stage.Holding? {
      PostIsNotDue(was, o);
      k, c := j - 1, was.ops[o].stage.clone;
      r := was.arcs.holds[c];
    } else {
      k, c, r := FliesSincePost(allowed, states, steps, j - 1, o);
    }
  }

  lemma ArcsKept(s: State)
    requires Kept(s)
    ensures ArcsAgree(s.arcs)
  {}

  lemma PostIsNotDue(s: State, o: OpId)
    requires Enabled(s, Post(o))
    ensures !s.ops[o].stage.due
  {}

  lemma ReleaseNeedsLanding(s: State, o: OpId)
    requires Enabled(s, Release(o))
    ensures o in s.ops && s.ops[o].stage.Landed?
  {}

  lemma OverHasLetGo(s: State, o: OpId)
    requires Kept(s) && o in s.ops && s.ops[o].stage.Over?
    ensures LetGo(s, o, s.ops[o].stage.used)
  {
    hide ArcsAgree, RegsKnown, ClonesServe, OwnersAgree;
  }

  /** An operation that is over was released, and has been over ever since, with the registration it landed with. */
  lemma {:induction false} OverSinceRelease(
    allowed: (Extent, Extent) -> bool, states: seq<State>, steps: seq<Step>, i: nat, o: OpId)
    returns (j: nat)
    requires Path(allowed, states, steps) && i < |states| && o in states[i].ops && states[i].ops[o].stage.Over?
    ensures j < i && steps[j] == Release(o) && o in states[j].ops && states[j].ops[o].stage.Landed?
    ensures var c := states[j].ops[o].stage.clone;
            c in states[j].arcs.holds && states[j].arcs.holds[c] == states[i].ops[o].stage.used
    ensures forall m | j < m <= i :: LetGo(states[m], o, states[i].ops[o].stage.used)
  {
    hide Next, Enabled, Kept;
    var was, step := states[i - 1], steps[i - 1];
    assert Takes(allowed, was, step, states[i]);
    OverAfterRelease(was, step, o);
    RunKeeps(allowed, states, steps, i);
    OverHasLetGo(states[i], o);
    if step == Release(o) {
      ReleaseNeedsLanding(was, o);
      RunKeeps(allowed, states, steps, i - 1);
      HeldIsOpen(was, o);
      j := i - 1;
    } else {
      j := OverSinceRelease(allowed, states, steps, i - 1, o);
    }
  }

  /** When a context is handed on to the completion hook, it was posted at `k` and released at `j`, and all the way
      between it flew with the one registration it was posted with, open; from the release on that registration,
      unless it was ever cached, is closed. */
  lemma {:induction false} UncachedClosesBeforeCompletion(
    allowed: (Extent, Extent) -> bool, states: seq<State>, steps: seq<Step>, i: nat, o: OpId)
    returns (k: nat, j: nat, c: CloneId, r: RegId)
    requires Path(allowed, states, steps) && i < |steps| && steps[i] == Hand(o)
    ensures k < j < i && steps[k] == Post(o) && steps[j] == Release(o)
    ensures At(states[k], o, Holding(c, false)) && c in states[k].arcs.holds && states[k].arcs.holds[c] == r
    ensures forall m | k < m <= j :: Flies(states[m], o, c, r)
    ensures forall m | j < m <= i :: LetGo(states[m], o, r)
  {
    hide Next, Flies, LetGo;
    assert Takes(allowed, states[i], steps[i], states[i + 1]);
    j := OverSinceRelease(allowed, states, steps, i, o);
    k, c, r := FliesSincePost(allowed, states, steps, j, o);
    FliesWith(states[j], o, c, r);
  }

  lemma FliesWith(s: State, o: OpId, c: CloneId, r: RegId)
    requires Flies(s, o, c, r)
    ensures c in s.arcs.holds && s.arcs.holds[c] == r && s.ops[o].stage.clone == c
  {}

  // ----- Freshness -----

  /** Every span a context answers for is its operand, so every registration due to be cached covers just that. */
  ghost predicate Tight(s: State) {
    && (forall o | o in s.ops && UsableSpan(s.ops[o]).Some? :: UsableSpan(s.ops[o]).value == s.ops[o].operand)
    && (forall c | c in s.arcs.holds && c in s.owner && s.owner[c].Operation? && s.owner[c].op in s.ops ::
          var op := s.ops[s.owner[c].op];
          op.stage.Holding? && op.stage.due && s.arcs.holds[c] in s.regs ==>
            s.regs[s.arcs.holds[c]].extent == op.operand)
  }

  /** Nothing cached was reclaimed since it was registered, nor any page of a live operand. */
  ghost predicate Clean(s: State) {
    forall c | c in s.arcs.holds && c in s.owner && s.arcs.holds[c] in s.regs ::
      var reg := s.regs[s.arcs.holds[c]];
      match s.owner[c]
      case Registry(_) => reg.dirty == {}
      case Operation(o) => o in s.ops ==> forall a | a in reg.dirty :: !RegionMaps.Holds(s.ops[o].operand, a)
      case Retiring => true
  }

  /** What an allocator is about to reclaim is neither live nor cached. */
  ghost predicate Apart(s: State) {
    && (forall e, o | e in s.reclaiming && o in s.ops :: !Overlaps(s.ops[o].operand, e))
    && (forall e, p | e in s.reclaiming && p in CacheView(s) :: !Overlaps(e, Extent(p.base, CacheView(s)[p].end)))
  }

  ghost predicate FreshState(s: State) {
    Tight(s) && Clean(s) && Apart(s)
  }
}
