/** Every endpoint, the allocator's hooks and the drops that follow an unlock, interleaved one atomic step at
    a time over the shared registration cache. Registering and caching are separate steps, and so are
    invalidating a range and reclaiming it. */
module RegionProtocol {
  import opened Basics
  import opened RegionMaps
  import opened RegionCache

  type CloneId = nat
  type OpId = nat

  // ----- Reference counts -----

  /** Every clone of every registration, the strong counts, and the deregistrations so far. */
  datatype Arcs = Arcs(holds: map<CloneId, RegId>, strong: map<RegId, nat>, closes: seq<RegId>, nextReg: RegId,
                       nextClone: CloneId)

  function Fresh(a: Arcs): Arcs {
    a.(holds := a.holds[a.nextClone := a.nextReg], strong := a.strong[a.nextReg := 1],
       nextReg := a.nextReg + 1, nextClone := a.nextClone + 1)
  }

  function Cloned(a: Arcs, r: RegId): Arcs
    requires r in a.strong
  {
    a.(holds := a.holds[a.nextClone := r], strong := a.strong[r := a.strong[r] + 1], nextClone := a.nextClone + 1)
  }

  /** Drop one clone; the last one deregisters. */
  function Dropped(a: Arcs, c: CloneId): Arcs
    requires c in a.holds && a.holds[c] in a.strong && 0 < a.strong[a.holds[c]]
  {
    var r := a.holds[c];
    if a.strong[r] == 1
    then a.(holds := a.holds - {c}, strong := a.strong - {r}, closes := a.closes + [r])
    else a.(holds := a.holds - {c}, strong := a.strong[r := a.strong[r] - 1])
  }

  ghost predicate ArcsAgree(a: Arcs) {
    && Counted(a.holds, a.strong, multiset{})
    && ClosedOnce(a.strong, a.closes, a.nextReg)
    && (forall c | c in a.holds :: c < a.nextClone)
  }

  lemma FreshKeepsArcs(a: Arcs)
    requires ArcsAgree(a)
    ensures ArcsAgree(Fresh(a)) && a.nextReg !in a.strong && a.nextClone !in a.holds
    ensures forall c | c in a.holds :: a.holds[c] != a.nextReg
  {
    var b := Fresh(a);
    forall c | c in a.holds
      ensures a.holds[c] != a.nextReg
    {
      assert a.holds[c] in a.strong;
    }
    forall r | r in b.strong
      ensures b.strong[r] == |Holders(b.holds, r)| + multiset{}[r]
    {
      HoldersAfterInsert(a.holds, a.nextClone, a.nextReg, r);
      if r == a.nextReg {
        assert Holders(a.holds, r) == {};
      } else {
        assert Holders(b.holds, r) == Holders(a.holds, r);
      }
    }
  }

  lemma ClonedKeepsArcs(a: Arcs, r: RegId)
    requires ArcsAgree(a) && r in a.strong
    ensures ArcsAgree(Cloned(a, r)) && a.nextClone !in a.holds
  {
    var b := Cloned(a, r);
    CountedAfterClone(a.holds, a.strong, multiset{}, r);
    CountedAfterInsert(a.holds, b.strong, multiset{} + multiset{r}, a.nextClone, r);
    assert multiset{} + multiset{r} - multiset{r} == multiset{};
  }

  lemma DroppedKeepsArcs(a: Arcs, c: CloneId)
    requires ArcsAgree(a) && c in a.holds
    ensures a.holds[c] in a.strong && 0 < a.strong[a.holds[c]]
    ensures ArcsAgree(Dropped(a, c))
    ensures a.holds[c] in Dropped(a, c).closes <==> forall d | d in a.holds && d != c :: a.holds[d] != a.holds[c]
    ensures forall r | r != a.holds[c] :: r in Dropped(a, c).closes <==> r in a.closes
  {
    var r := a.holds[c];
    CountedAfterRemove(a.holds, a.strong, multiset{}, c);
    CountedAfterDrop(a.holds - {c}, a.strong, multiset{} + multiset{r}, r);
    assert multiset{} + multiset{r} - multiset{r} == multiset{};
    LastCloneIs(a.holds - {c}, a.strong, multiset{} + multiset{r}, r);
    assert forall d | d in a.holds - {c} :: (a.holds - {c})[d] == a.holds[d];
  }

  // ----- The machine -----

  /** What one `fi_mr_reg` pinned: which of its addresses were reclaimed since, and whether it was ever cached. */
  datatype Registration = Registration(domain: DomainId, extent: Extent, dirty: set<nat>, cached: bool)

  /** An operand's way through the cache and the fabric. A clone is held from the lookup or registration until
      the completion lets it go; `due` says the registration is still to be cached. */
  datatype Stage =
    | Waiting | Missed | Holding(clone: CloneId, due: bool)
    | Posted(clone: CloneId) | Landed(clone: CloneId) | Over(used: RegId)

  /** A live operand, and the span its context answers for. A pinned region is one that never looks itself up. */
  datatype Op = Op(domain: DomainId, operand: Extent, span: Option<Extent>, pin: bool, stage: Stage)

  datatype Owner = Registry(place: Place) | Operation(op: OpId) | Retiring

  /** `registry` and `retired` say where the registry's clones are and which left it but are not dropped yet;
      `reclaiming` are the ranges an allocator hook has invalidated and is about to reclaim. `shut` are the domains
      their endpoints have closed. `owner` watches. */
  datatype State = State(
    arcs: Arcs, regs: map<RegId, Registration>, registry: map<Place, CloneId>, retired: set<CloneId>,
    ops: map<OpId, Op>, reclaiming: set<Extent>, owner: map<CloneId, Owner>, shut: set<DomainId>)

  function Initial(): State {
    State(Arcs(map[], map[], [], 0, 0), map[], map[], {}, map[], {}, map[], {})
  }

  datatype Step =
    | Begin(op: OpId, born: Op) | Hit(op: OpId) | Miss(op: OpId) | Register(op: OpId, wide: bool) | Track(op: OpId)
    | Post(op: OpId) | Refuse(op: OpId) | Land(op: OpId) | Release(op: OpId) | Hand(op: OpId) | Abandon(op: OpId)
    | Invalidate(range: Extent) | Reclaim(range: Extent) | DropRetired(clone: CloneId) | ClearDomain(domain: DomainId)
    | CloseDomain(domain: DomainId)

  /** What the registry answers lookups from. */
  function CacheView(s: State): View {
    map p | p in s.registry && s.registry[p] in s.arcs.holds && s.arcs.holds[s.registry[p]] in s.regs ::
      Entry(s.regs[s.arcs.holds[s.registry[p]]].extent.end, s.arcs.holds[s.registry[p]])
  }

  ghost function LookedUp(s: State, op: Op): Option<RegId> {
    Lookup(RegionsIn(CacheView(s), op.domain), op.operand)
  }

  /** The span a miss may register: one that contains the operand. */
  function UsableSpan(op: Op): Option<Extent> {
    if op.span.Some? && Within(op.operand, op.span.value) then op.span else None
  }

  function Clone(op: Op): Option<CloneId> {
    match op.stage
    case Holding(c, _) => Some(c)
    case Posted(c) => Some(c)
    case Landed(c) => Some(c)
    case _ => None
  }

  predicate At(s: State, op: OpId, stage: Stage) {
    op in s.ops && s.ops[op].stage == stage
  }

  predicate Holds(s: State, op: OpId) {
    op in s.ops && Clone(s.ops[op]).Some? && Clone(s.ops[op]).value in s.arcs.holds
    && s.arcs.holds[Clone(s.ops[op]).value] in s.arcs.strong && 0 < s.arcs.strong[s.arcs.holds[Clone(s.ops[op]).value]]
  }

  /** The allocator only reclaims memory no live operand uses, and gives out none it is reclaiming. */
  ghost predicate Enabled(s: State, step: Step) {
    match step
    case Begin(op, born) =>
      op !in s.ops && born.stage == Waiting && born.operand.base <= born.operand.end && born.domain !in s.shut
      && forall e | e in s.reclaiming :: !Overlaps(born.operand, e)
    case Hit(op) =>
      At(s, op, Waiting) && s.ops[op].domain !in s.shut
      && LookedUp(s, s.ops[op]).Some? && LookedUp(s, s.ops[op]).value in s.arcs.strong
    case Miss(op) =>
      At(s, op, Waiting) && s.ops[op].domain !in s.shut && (s.ops[op].pin || LookedUp(s, s.ops[op]).None?)
    case Register(op, _) => At(s, op, Missed)
    case Track(op) =>
      Holds(s, op) && s.ops[op].stage.Holding? && s.ops[op].stage.due && s.arcs.holds[s.ops[op].stage.clone] in s.regs
    case Post(op) => op in s.ops && s.ops[op].stage.Holding? && !s.ops[op].stage.due
    case Refuse(op) => Holds(s, op) && s.ops[op].stage.Holding? && !s.ops[op].stage.due
    case Land(op) => op in s.ops && s.ops[op].stage.Posted?
    case Release(op) => Holds(s, op) && s.ops[op].stage.Landed?
    case Hand(op) => op in s.ops && s.ops[op].stage.Over?
    case Abandon(op) => op in s.ops && (s.ops[op].stage.Waiting? || s.ops[op].stage.Missed?)
    case Invalidate(range) => forall o | o in s.ops :: !Overlaps(s.ops[o].operand, range)
    case Reclaim(range) => range in s.reclaiming
    case DropRetired(c) =>
      c in s.retired && c in s.arcs.holds && s.arcs.holds[c] in s.arcs.strong && 0 < s.arcs.strong[s.arcs.holds[c]]
    case ClearDomain(_) => true
    case CloseDomain(domain) =>
      && domain !in s.shut && (forall p | p in s.registry :: p.domain != domain)
      && forall o | o in s.ops && s.ops[o].domain == domain :: WorkerIsDoneWith(s.ops[o])
  }

  /** Once the worker has returned: nothing of its own is left, but a pool thread may still be finishing what it
      reaped, and a pinned region may outlive it. */
  predicate WorkerIsDoneWith(op: Op) {
    op.stage.Landed? || op.stage.Over? || (op.stage.Waiting? && op.pin)
  }

  function Staged(s: State, op: OpId, stage: Stage): map<OpId, Op>
    requires op in s.ops
  {
    s.ops[op := s.ops[op].(stage := stage)]
  }

  /** The registry gives up all but the entries of `left`; their clones wait to be dropped. */
  function Retire(s: State, left: View): State {
    s.(registry := map p | p in s.registry && p in left :: s.registry[p],
       retired := s.retired + set p | p in s.registry && p !in left :: s.registry[p],
       owner := map c | c in s.owner ::
                  if s.owner[c].Registry? && s.owner[c].place in s.registry && s.owner[c].place !in left then Retiring
                  else s.owner[c])
  }

  function Reclaimed(r: Registration, range: Extent): Registration {
    r.(dirty := r.dirty + set a: nat | r.extent.base <= a < r.extent.end && RegionMaps.Holds(range, a))
  }

  /** One operand's clone goes. */
  function Let(s: State, op: OpId, stage: Stage): State
    requires Holds(s, op)
  {
    var c := Clone(s.ops[op]).value;
    s.(arcs := Dropped(s.arcs, c), ops := Staged(s, op, stage), owner := s.owner - {c})
  }

  function Registered(s: State, op: OpId, extent: Extent): State
    requires op in s.ops
  {
    var c := s.arcs.nextClone;
    s.(arcs := Fresh(s.arcs), regs := s.regs[s.arcs.nextReg := Registration(s.ops[op].domain, extent, {}, false)],
       ops := Staged(s, op, Holding(c, UsableSpan(s.ops[op]).Some?)), owner := s.owner[c := Operation(op)])
  }

  /** The registry takes a clone of its own, and whatever it held at that base waits to be dropped. */
  function Tracked(s: State, op: OpId): State
    requires Enabled(s, Track(op))
  {
    var c := s.arcs.nextClone;
    var r := s.arcs.holds[s.ops[op].stage.clone];
    var p := Place(s.ops[op].domain, s.regs[r].extent.base);
    var retired := if p in s.registry
      then s.(retired := s.retired + {s.registry[p]}, owner := s.owner[s.registry[p] := Retiring]) else s;
    retired.(arcs := Cloned(s.arcs, r), regs := s.regs[r := s.regs[r].(cached := true)],
             registry := s.registry[p := c], ops := Staged(s, op, Holding(s.ops[op].stage.clone, false)),
             owner := retired.owner[c := Registry(p)])
  }

  ghost function Next(s: State, step: Step): State
    requires Enabled(s, step)
  {
    match step
    case Begin(op, born) => s.(ops := s.ops[op := born])
    case Hit(op) =>
      var c := s.arcs.nextClone;
      s.(arcs := Cloned(s.arcs, LookedUp(s, s.ops[op]).value), ops := Staged(s, op, Holding(c, false)),
         owner := s.owner[c := Operation(op)])
    case Miss(op) => s.(ops := Staged(s, op, Missed))
    case Register(op, wide) =>
      var span := UsableSpan(s.ops[op]);
      Registered(s, op, if wide && span.Some? then span.value else s.ops[op].operand)
    case Track(op) => Tracked(s, op)
    case Post(op) => s.(ops := Staged(s, op, Posted(s.ops[op].stage.clone)))
    case Refuse(op) => Let(s, op, Waiting)
    case Land(op) => s.(ops := Staged(s, op, Landed(s.ops[op].stage.clone)))
    case Release(op) => Let(s, op, Over(s.arcs.holds[s.ops[op].stage.clone]))
    case Hand(op) => s.(ops := s.ops - {op})
    case Abandon(op) => s.(ops := s.ops - {op})
    case Invalidate(range) => Retire(s, Unaffected(CacheView(s), range)).(reclaiming := s.reclaiming + {range})
    case Reclaim(range) =>
      s.(regs := map r | r in s.regs :: Reclaimed(s.regs[r], range), reclaiming := s.reclaiming - {range})
    case DropRetired(c) => s.(arcs := Dropped(s.arcs, c), retired := s.retired - {c}, owner := s.owner - {c})
    case ClearDomain(domain) => Retire(s, Elsewhere(CacheView(s), domain))
    case CloseDomain(domain) => s.(shut := s.shut + {domain})
  }

  /** One step, of a context that answers for spans its policy allows. */
  ghost predicate Takes(allowed: (Extent, Extent) -> bool, s: State, step: Step, t: State) {
    && Enabled(s, step) && t == Next(s, step)
    && (step.Begin? && step.born.span.Some? ==> allowed(step.born.operand, step.born.span.value))
  }

  ghost predicate Path(allowed: (Extent, Extent) -> bool, states: seq<State>, steps: seq<Step>) {
    && |states| == |steps| + 1 && states[0] == Initial()
    && forall i | 0 <= i < |steps| :: Takes(allowed, states[i], steps[i], states[i + 1])
  }

  // ----- What every step keeps -----

  ghost predicate OwnersAgree(s: State) {
    && s.owner.Keys == s.arcs.holds.Keys
    && (forall p | p in s.registry :: s.registry[p] in s.owner && s.owner[s.registry[p]] == Registry(p))
    && (forall o | o in s.ops && Clone(s.ops[o]).Some? ::
          Clone(s.ops[o]).value in s.owner && s.owner[Clone(s.ops[o]).value] == Operation(o))
    && (forall c | c in s.retired :: c in s.owner && s.owner[c] == Retiring)
    && (forall c | c in s.owner ::
          match s.owner[c]
          case Registry(p) => p in s.registry && s.registry[p] == c
          case Operation(o) => o in s.ops && Clone(s.ops[o]) == Some(c)
          case Retiring => c in s.retired)
  }

  lemma StepKeepsArcs(s: State, step: Step)
    requires Enabled(s, step) && ArcsAgree(s.arcs)
    ensures ArcsAgree(Next(s, step).arcs)
  {
    hide ArcsAgree, CacheView, LookedUp, Overlaps, Unaffected, Elsewhere, RegionsIn, Fresh, Cloned, Dropped,
      UsableSpan;
    match step
    case Hit(op) => ClonedKeepsArcs(s.arcs, LookedUp(s, s.ops[op]).value);
    case Register(_, _) => FreshKeepsArcs(s.arcs);
    case Track(op) => ClonedKeepsArcs(s.arcs, s.arcs.holds[s.ops[op].stage.clone]);
    case Refuse(op) => DroppedKeepsArcs(s.arcs, Clone(s.ops[op]).value);
    case Release(op) => DroppedKeepsArcs(s.arcs, Clone(s.ops[op]).value);
    case DropRetired(c) => DroppedKeepsArcs(s.arcs, c);
    case _ =>
  }

  lemma StagingKeepsOwners(s: State, op: OpId, stage: Stage)
    requires OwnersAgree(s) && op in s.ops && Clone(s.ops[op].(stage := stage)) == Clone(s.ops[op])
    ensures OwnersAgree(s.(ops := Staged(s, op, stage)))
  {}

  lemma TakingKeepsOwners(s: State, op: OpId, arcs: Arcs, c: CloneId, due: bool, regs: map<RegId, Registration>)
    requires OwnersAgree(s) && op in s.ops && Clone(s.ops[op]).None? && c !in s.owner
    requires arcs.holds.Keys == s.arcs.holds.Keys + {c}
    ensures OwnersAgree(s.(arcs := arcs, regs := regs, ops := Staged(s, op, Holding(c, due)),
                           owner := s.owner[c := Operation(op)]))
  {
    hide Clone;
    HoldingHasClone(s.ops[op], c, due);
  }

  lemma HoldingHasClone(op: Op, c: CloneId, due: bool)
    ensures Clone(op.(stage := Holding(c, due))) == Some(c)
  {}

  lemma LettingKeepsOwners(s: State, op: OpId, stage: Stage, arcs: Arcs)
    requires OwnersAgree(s) && op in s.ops && Clone(s.ops[op]).Some? && Clone(s.ops[op].(stage := stage)).None?
    requires arcs.holds == s.arcs.holds - {Clone(s.ops[op]).value}
    ensures OwnersAgree(s.(arcs := arcs, ops := Staged(s, op, stage), owner := s.owner - {Clone(s.ops[op]).value}))
  {}

  lemma LetKeepsOwners(s: State, op: OpId, stage: Stage)
    requires OwnersAgree(s) && Holds(s, op) && Clone(s.ops[op].(stage := stage)).None?
    ensures OwnersAgree(Let(s, op, stage))
  {
    hide OwnersAgree, Clone;
    LettingKeepsOwners(s, op, stage, Dropped(s.arcs, Clone(s.ops[op]).value));
  }

  /** Every clone's owner after the registry gives some up. */
  lemma RetiredOwners(s: State, left: View, c: CloneId)
    requires OwnersAgree(s) && c in s.owner
    ensures var t := Retire(s, left);
            match t.owner[c]
            case Registry(p) => p in t.registry && t.registry[p] == c
            case Operation(o) => o in t.ops && Clone(t.ops[o]) == Some(c)
            case Retiring => c in t.retired
  {
    hide Clone;
    if s.owner[c].Registry? && s.owner[c].place !in left {
      var p := s.owner[c].place;
      assert p in s.registry && p !in left && s.registry[p] == c;
    }
  }

  lemma RetiredPlaces(s: State, left: View)
    requires OwnersAgree(s)
    ensures var t := Retire(s, left);
            && t.owner.Keys == s.owner.Keys
            && (forall p | p in t.registry :: t.registry[p] in t.owner && t.owner[t.registry[p]] == Registry(p))
            && (forall o | o in t.ops && Clone(t.ops[o]).Some? ::
                  Clone(t.ops[o]).value in t.owner && t.owner[Clone(t.ops[o]).value] == Operation(o))
  {
    hide Clone;
  }

  lemma RetiredClones(s: State, left: View)
    requires OwnersAgree(s)
    ensures var t := Retire(s, left); forall c | c in t.retired :: c in t.owner && t.owner[c] == Retiring
  {
    hide Clone;
    var t := Retire(s, left);
    forall c | c in t.retired
      ensures c in t.owner && t.owner[c] == Retiring
    {
      if c !in s.retired {
        var p :| p in s.registry && p !in left && s.registry[p] == c;
        assert s.owner[c] == Registry(p);
      }
    }
  }

  /** Clones leave the registry for the retired ones. */
  lemma RetiringKeepsOwners(s: State, left: View)
    requires OwnersAgree(s)
    ensures OwnersAgree(Retire(s, left))
  {
    hide Clone, Retire;
    var t := Retire(s, left);
    RetiredPlaces(s, left);
    RetiredClones(s, left);
    RetireKeepsRest(s, left);
    forall c | c in t.owner
      ensures match t.owner[c]
              case Registry(p) => p in t.registry && t.registry[p] == c
              case Operation(o) => o in t.ops && Clone(t.ops[o]) == Some(c)
              case Retiring => c in t.retired
    {
      RetiredOwners(s, left, c);
    }
  }

  lemma RetireKeepsRest(s: State, left: View)
    ensures Retire(s, left).arcs == s.arcs && Retire(s, left).ops == s.ops
  {}

  lemma ReplacingKeepsOwners(s: State, p: Place)
    requires OwnersAgree(s) && p in s.registry
    ensures OwnersAgree(s.(registry := s.registry - {p}, retired := s.retired + {s.registry[p]},
                           owner := s.owner[s.registry[p] := Retiring]))
  {
    hide Clone;
  }

  lemma CachingKeepsOwners(s: State, p: Place, arcs: Arcs, c: CloneId, regs: map<RegId, Registration>)
    requires OwnersAgree(s) && p !in s.registry && c !in s.owner && arcs.holds.Keys == s.arcs.holds.Keys + {c}
    ensures OwnersAgree(s.(arcs := arcs, regs := regs, registry := s.registry[p := c],
                           owner := s.owner[c := Registry(p)]))
  {
    hide Clone;
  }

  lemma TrackingKeepsOwners(s: State, op: OpId)
    requires Enabled(s, Track(op)) && ArcsAgree(s.arcs) && OwnersAgree(s)
    ensures OwnersAgree(Tracked(s, op))
  {
    hide OwnersAgree, Counted, ClosedOnce, CacheView, LookedUp, Overlaps;
    var c := s.arcs.nextClone;
    var held := s.ops[op].stage.clone;
    var r := s.arcs.holds[held];
    var p := Place(s.ops[op].domain, s.regs[r].extent.base);
    var regs := s.regs[r := s.regs[r].(cached := true)];
    OwnersAreHolders(s);
    var bare := s;
    if p in s.registry {
      ReplacingKeepsOwners(s, p);
      bare := s.(registry := s.registry - {p}, retired := s.retired + {s.registry[p]},
                 owner := s.owner[s.registry[p] := Retiring]);
      OwnersAreHolders(bare);
    }
    CachingKeepsOwners(bare, p, Cloned(s.arcs, r), c, regs);
    var cached := bare.(arcs := Cloned(s.arcs, r), regs := regs, registry := bare.registry[p := c],
                        owner := bare.owner[c := Registry(p)]);
    StagingKeepsOwners(cached, op, Holding(held, false));
    assert bare.registry[p := c] == s.registry[p := c];
    assert Tracked(s, op) == cached.(ops := Staged(cached, op, Holding(held, false)));
  }

  lemma OwnersAreHolders(s: State)
    requires OwnersAgree(s)
    ensures s.owner.Keys == s.arcs.holds.Keys
  {}

  lemma DroppingKeepsOwners(s: State, c: CloneId, arcs: Arcs)
    requires OwnersAgree(s) && c in s.retired && arcs.holds == s.arcs.holds - {c}
    ensures OwnersAgree(s.(arcs := arcs, retired := s.retired - {c}, owner := s.owner - {c}))
  {
    hide Clone;
  }

  lemma ComingAndGoingKeepOwners(s: State, op: OpId, born: Op)
    requires OwnersAgree(s) && Clone(born).None?
    ensures op !in s.ops ==> OwnersAgree(s.(ops := s.ops[op := born]))
    ensures op in s.ops && Clone(s.ops[op]).None? ==> OwnersAgree(s.(ops := s.ops - {op}))
  {}

  lemma StepKeepsOwners(s: State, step: Step)
    requires Enabled(s, step) && ArcsAgree(s.arcs) && OwnersAgree(s)
    ensures OwnersAgree(Next(s, step))
  {
    hide OwnersAgree, CacheView, LookedUp, Overlaps, Unaffected, Elsewhere, RegionsIn, UsableSpan, Counted,
      ClosedOnce, Retire, Tracked, Let;
    OwnersAreHolders(s);
    match step
    case Begin(op, born) => ComingAndGoingKeepOwners(s, op, born);
    case Hit(op) =>
      TakingKeepsOwners(s, op, Cloned(s.arcs, LookedUp(s, s.ops[op]).value), s.arcs.nextClone, false, s.regs);
    case Miss(op) => StagingKeepsOwners(s, op, Missed);
    case Register(op, _) =>
      TakingKeepsOwners(s, op, Fresh(s.arcs), s.arcs.nextClone, UsableSpan(s.ops[op]).Some?, Next(s, step).regs);
    case Track(op) => TrackingKeepsOwners(s, op);
    case Post(op) => StagingKeepsOwners(s, op, Posted(s.ops[op].stage.clone));
    case Refuse(op) => LetKeepsOwners(s, op, Waiting);
    case Land(op) => StagingKeepsOwners(s, op, Landed(s.ops[op].stage.clone));
    case Release(op) => LetKeepsOwners(s, op, Over(s.arcs.holds[s.ops[op].stage.clone]));
    case Hand(op) => ComingAndGoingKeepOwners(s, op, s.ops[op]);
    case Abandon(op) => ComingAndGoingKeepOwners(s, op, s.ops[op]);
    case Invalidate(range) =>
      RetiringKeepsOwners(s, Unaffected(CacheView(s), range));
      UnreclaimedOwners(Retire(s, Unaffected(CacheView(s), range)), s.regs, s.reclaiming + {range});
    case Reclaim(range) => UnreclaimedOwners(s, Next(s, step).regs, s.reclaiming - {range});
    case DropRetired(c) => DroppingKeepsOwners(s, c, Dropped(s.arcs, c));
    case ClearDomain(domain) => RetiringKeepsOwners(s, Elsewhere(CacheView(s), domain));
    case CloseDomain(domain) => ShuttingKeepsOwners(s, s.shut + {domain});
  }

  lemma ShuttingKeepsOwners(s: State, shut: set<DomainId>)
    requires OwnersAgree(s)
    ensures OwnersAgree(s.(shut := shut))
  {
    hide Clone;
  }

  lemma UnreclaimedOwners(s: State, regs: map<RegId, Registration>, reclaiming: set<Extent>)
    requires OwnersAgree(s)
    ensures OwnersAgree(s.(regs := regs, reclaiming := reclaiming)) && OwnersAgree(s.(reclaiming := reclaiming))
  {
    hide Clone;
  }

  // ----- What clones stand for -----

  ghost predicate RegsKnown(s: State) {
    && (forall r: RegId :: r in s.regs <==> r < s.arcs.nextReg)
    && (forall r | r in s.regs :: forall a | a in s.regs[r].dirty :: RegionMaps.Holds(s.regs[r].extent, a))
  }

  /** What a clone's owner may rely on. */
  ghost predicate Serves(s: State, owner: Owner, reg: Registration) {
    match owner
    case Registry(p) => reg.domain == p.domain && reg.extent.base == p.base && reg.cached
    case Operation(o) => o in s.ops && reg.domain == s.ops[o].domain && Within(s.ops[o].operand, reg.extent)
    case Retiring => reg.cached
  }

  ghost predicate ClonesServe(s: State) {
    forall c | c in s.arcs.holds ::
      c in s.owner && s.arcs.holds[c] in s.regs && Serves(s, s.owner[c], s.regs[s.arcs.holds[c]])
  }

  /** A registration that was never cached has one clone, and is closed once its operation is over. */
  ghost predicate UncachedIsExclusive(s: State) {
    && (forall c, d | c in s.arcs.holds && d in s.arcs.holds && c != d && s.arcs.holds[c] == s.arcs.holds[d]
          && s.arcs.holds[c] in s.regs ::
          s.regs[s.arcs.holds[c]].cached)
    && (forall o | o in s.ops && s.ops[o].stage.Over? ::
          s.ops[o].stage.used in s.regs && (!s.regs[s.ops[o].stage.used].cached ==>
            s.ops[o].stage.used in s.arcs.closes))
  }

  lemma HeldIsKnown(s: State, c: CloneId)
    requires ArcsAgree(s.arcs) && RegsKnown(s) && c in s.arcs.holds
    ensures s.arcs.holds[c] in s.regs && s.arcs.holds[c] in s.arcs.strong
  {}

  lemma StepKeepsRegs(s: State, step: Step)
    requires Enabled(s, step) && RegsKnown(s)
    ensures RegsKnown(Next(s, step))
  {
    hide CacheView, LookedUp, Overlaps, Unaffected, Elsewhere, RegionsIn, UsableSpan, Staged, Clone;
  }

  lemma HitServes(s: State, op: Op)
    requires ArcsAgree(s.arcs) && OwnersAgree(s) && ClonesServe(s) && LookedUp(s, op).Some?
    ensures var r := LookedUp(s, op).value;
            r in s.regs && r in s.arcs.strong && s.regs[r].domain == op.domain && Within(op.operand, s.regs[r].extent)
              && s.regs[r].cached
  {
    hide Lookup, RegionsIn, ClosedOnce, Clone;
    var regions := RegionsIn(CacheView(s), op.domain);
    LookupIsSound(regions, op.operand);
    var b :| b in regions && Within(op.operand, Extent(b, regions[b].end))
      && regions[b].registration == LookedUp(s, op).value;
    var p := Place(op.domain, b);
    assert p in CacheView(s);
    assert s.owner[s.registry[p]] == Registry(p);
  }
}
