/** When cached registrations stay fresh: for every interleaving exactly if contexts answer for no more than
    their operand. */
module RegionFreshness {
  import opened Basics
  import opened RegionMaps
  import opened RegionCache
  import opened RegionProtocol
  import opened RegionSafety

  // ----- The view through a step -----

  /** The registry's clones and what they pin are the same. */
  ghost predicate SameEntries(s: State, t: State) {
    forall p | p in t.registry ::
      && p in s.registry && s.registry[p] == t.registry[p]
      && (t.registry[p] in s.arcs.holds <==> t.registry[p] in t.arcs.holds)
      && (t.registry[p] in s.arcs.holds ==>
            var r := s.arcs.holds[t.registry[p]];
            t.arcs.holds[t.registry[p]] == r && (r in s.regs <==> r in t.regs)
            && (r in s.regs ==> s.regs[r].extent == t.regs[r].extent))
  }

  lemma ViewShrinks(s: State, t: State)
    requires SameEntries(s, t)
    ensures forall p | p in CacheView(t) :: p in CacheView(s) && CacheView(t)[p] == CacheView(s)[p]
  {}

  lemma ApartShrinks(s: State, t: State)
    requires Apart(s) && SameEntries(s, t) && t.reclaiming <= s.reclaiming
    requires forall o | o in t.ops :: o in s.ops && s.ops[o].operand == t.ops[o].operand
    ensures Apart(t)
  {
    hide CacheView, SameEntries, Overlaps;
    ViewShrinks(s, t);
  }

  // ----- One step -----

  lemma StagingStaysFresh(s: State, op: OpId, stage: Stage)
    requires FreshState(s) && op in s.ops && (stage.Holding? ==> !stage.due)
    ensures FreshState(s.(ops := Staged(s, op, stage)))
  {
    hide Overlaps, CacheView, Within, RegionMaps.Holds, Clone, Apart;
    ApartShrinks(s, s.(ops := Staged(s, op, stage)));
  }

  lemma HittingKeepsEntries(s: State, op: OpId, r: RegId)
    requires op in s.ops && r in s.arcs.strong && s.arcs.nextClone !in s.owner && OwnersAgree(s)
    ensures SameEntries(s, s.(arcs := Cloned(s.arcs, r), ops := Staged(s, op, Holding(s.arcs.nextClone, false)),
                          owner := s.owner[s.arcs.nextClone := Operation(op)]))
  {
    hide Clone, UsableSpan;
  }

  lemma HittingStaysFresh(s: State, op: OpId, r: RegId)
    requires FreshState(s) && op in s.ops && r in s.arcs.strong && s.arcs.nextClone !in s.arcs.holds
             && s.arcs.nextClone !in s.owner
    requires r in s.regs && s.regs[r].dirty == {} && OwnersAgree(s)
    ensures FreshState(s.(arcs := Cloned(s.arcs, r), ops := Staged(s, op, Holding(s.arcs.nextClone, false)),
                          owner := s.owner[s.arcs.nextClone := Operation(op)]))
  {
    hide SameEntries, Overlaps, CacheView, Within, RegionMaps.Holds, Clone, Apart;
    var t := s.(arcs := Cloned(s.arcs, r), ops := Staged(s, op, Holding(s.arcs.nextClone, false)),
                owner := s.owner[s.arcs.nextClone := Operation(op)]);
    HittingKeepsEntries(s, op, r);
    ApartShrinks(s, t);
  }

  lemma RegisteringKeepsEntries(s: State, op: OpId, extent: Extent)
    requires op in s.ops && s.arcs.nextClone !in s.owner && s.arcs.nextReg !in s.regs && OwnersAgree(s)
    requires forall c | c in s.arcs.holds :: s.arcs.holds[c] != s.arcs.nextReg
    ensures SameEntries(s, Registered(s, op, extent))
  {
    hide Clone, UsableSpan;
  }

  lemma RegisteringStaysFresh(s: State, op: OpId, extent: Extent)
    requires FreshState(s) && op in s.ops && s.arcs.nextClone !in s.arcs.holds && s.arcs.nextReg !in s.regs
             && OwnersAgree(s)
    requires Clone(s.ops[op]).None? && (forall c | c in s.arcs.holds :: s.arcs.holds[c] != s.arcs.nextReg)
    requires UsableSpan(s.ops[op]).Some? ==> extent == s.ops[op].operand
    ensures FreshState(Registered(s, op, extent))
  {
    hide SameEntries, Overlaps, CacheView, Apart, Tight, Clean, Registered, OwnersAgree, UsableSpan;
    OwnersAreHolders(s);
    RegisteringKeepsEntries(s, op, extent);
    RegisteringMoves(s, op, extent);
    ApartShrinks(s, Registered(s, op, extent));
    RegisteringStaysTight(s, op, extent);
    RegisteringStaysClean(s, op, extent);
  }

  lemma RegisteringMoves(s: State, op: OpId, extent: Extent)
    requires op in s.ops
    ensures var t := Registered(s, op, extent);
            t.reclaiming == s.reclaiming && forall o | o in t.ops :: o in s.ops && s.ops[o].operand == t.ops[o].operand
  {
    hide UsableSpan;
  }

  lemma RegisteringStaysTight(s: State, op: OpId, extent: Extent)
    requires Tight(s) && op in s.ops && s.arcs.nextReg !in s.regs && OwnersAgree(s)
    requires Clone(s.ops[op]).None? && (forall c | c in s.arcs.holds :: s.arcs.holds[c] != s.arcs.nextReg)
    requires UsableSpan(s.ops[op]).Some? ==> extent == s.ops[op].operand
    ensures Tight(Registered(s, op, extent))
  {
    hide Within;
  }

  lemma RegisteringStaysClean(s: State, op: OpId, extent: Extent)
    requires Clean(s) && op in s.ops && s.arcs.nextReg !in s.regs && OwnersAgree(s)
    requires forall c | c in s.arcs.holds :: s.arcs.holds[c] != s.arcs.nextReg
    ensures Clean(Registered(s, op, extent))
  {
    hide RegionMaps.Holds, UsableSpan, Clone;
  }

  lemma LettingKeepsEntries(s: State, op: OpId, stage: Stage)
    requires RegionProtocol.Holds(s, op) && OwnersAgree(s)
    ensures SameEntries(s, Let(s, op, stage))
  {
    hide Clone, UsableSpan;
  }

  lemma LettingStaysTight(s: State, op: OpId, stage: Stage)
    requires Tight(s) && RegionProtocol.Holds(s, op) && OwnersAgree(s) && !stage.Holding?
    ensures Tight(Let(s, op, stage))
  {
    hide Dropped, Within;
    DroppedHolds(s.arcs, Clone(s.ops[op]).value);
  }

  lemma LettingStaysClean(s: State, op: OpId, stage: Stage)
    requires Clean(s) && RegionProtocol.Holds(s, op) && OwnersAgree(s) && !stage.Holding?
    ensures Clean(Let(s, op, stage))
  {
    hide RegionMaps.Holds, Clone, Dropped, UsableSpan;
    DroppedHolds(s.arcs, Clone(s.ops[op]).value);
  }

  lemma LettingMoves(s: State, op: OpId, stage: Stage)
    requires RegionProtocol.Holds(s, op)
    ensures var t := Let(s, op, stage);
            t.reclaiming == s.reclaiming && forall o | o in t.ops :: o in s.ops && s.ops[o].operand == t.ops[o].operand
  {
    hide Clone, Dropped;
  }

  lemma LettingStaysFresh(s: State, op: OpId, stage: Stage)
    requires FreshState(s) && RegionProtocol.Holds(s, op) && OwnersAgree(s) && !stage.Holding?
    ensures FreshState(Let(s, op, stage))
  {
    hide SameEntries, CacheView, Apart, Tight, Clean, Let, OwnersAgree, RegionProtocol.Holds;
    LettingKeepsEntries(s, op, stage);
    LettingMoves(s, op, stage);
    ApartShrinks(s, Let(s, op, stage));
    LettingStaysTight(s, op, stage);
    LettingStaysClean(s, op, stage);
  }

  lemma DroppedHolds(a: Arcs, c: CloneId)
    requires c in a.holds && a.holds[c] in a.strong && 0 < a.strong[a.holds[c]]
    ensures Dropped(a, c).holds == a.holds - {c}
  {}

  lemma DroppingStaysFresh(s: State, c: CloneId)
    requires FreshState(s) && OwnersAgree(s) && c in s.retired && c in s.arcs.holds
    requires s.arcs.holds[c] in s.arcs.strong && 0 < s.arcs.strong[s.arcs.holds[c]]
    ensures FreshState(s.(arcs := Dropped(s.arcs, c), retired := s.retired - {c}, owner := s.owner - {c}))
  {
    hide Overlaps, CacheView, Within, RegionMaps.Holds, Clone, Apart, Dropped;
    DroppedHolds(s.arcs, c);
    ApartShrinks(s, s.(arcs := Dropped(s.arcs, c), retired := s.retired - {c}, owner := s.owner - {c}));
  }

  lemma RetiringStaysFresh(s: State, left: View)
    requires FreshState(s)
    ensures FreshState(Retire(s, left))
  {
    hide Overlaps, CacheView, Within, RegionMaps.Holds, Clone, Apart;
    ApartShrinks(s, Retire(s, left));
  }

  lemma ComingStaysFresh(s: State, op: OpId, born: Op)
    requires FreshState(s) && OwnersAgree(s) && op !in s.ops && born.stage.Waiting?
    requires forall e | e in s.reclaiming :: !Overlaps(born.operand, e)
    requires UsableSpan(born).Some? ==> UsableSpan(born).value == born.operand
    ensures FreshState(s.(ops := s.ops[op := born]))
  {
    hide Overlaps, Within, RegionMaps.Holds;
    var t := s.(ops := s.ops[op := born]);
    ViewShrinks(s, t);
  }

  lemma GoingStaysFresh(s: State, op: OpId)
    requires FreshState(s)
    ensures FreshState(s.(ops := s.ops - {op}))
  {
    hide Overlaps, CacheView, Within, RegionMaps.Holds, Clone, Apart;
    ApartShrinks(s, s.(ops := s.ops - {op}));
  }

  /** Invalidating leaves nothing cached over the range. */
  lemma InvalidatingStaysFresh(s: State, range: Extent)
    requires FreshState(s) && forall o | o in s.ops :: !Overlaps(s.ops[o].operand, range)
    ensures FreshState(Retire(s, Unaffected(CacheView(s), range)).(reclaiming := s.reclaiming + {range}))
  {
    hide Overlaps, Tight, Clean, CacheView, Retire;
    RetiringStaysFresh(s, Unaffected(CacheView(s), range));
    var t := Retire(s, Unaffected(CacheView(s), range));
    var u := t.(reclaiming := s.reclaiming + {range});
    OnlyReclaimingDiffers(t, u);
    RetiredIsGone(s, Unaffected(CacheView(s), range));
    OverlapIsMutual();
  }

  lemma OverlapIsMutual()
    ensures forall a: Extent, b: Extent :: Overlaps(a, b) <==> Overlaps(b, a)
  {}

  lemma OnlyReclaimingDiffers(t: State, u: State)
    requires u == t.(reclaiming := u.reclaiming)
    ensures CacheView(u) == CacheView(t) && (Tight(t) ==> Tight(u)) && (Clean(t) ==> Clean(u)) && u.ops == t.ops
  {}

  lemma RetiredIsGone(s: State, left: View)
    ensures forall p | p in CacheView(Retire(s, left)) ::
              p in left && p in CacheView(s) && CacheView(Retire(s, left))[p] == CacheView(s)[p]
    ensures Retire(s, left).ops == s.ops && Retire(s, left).reclaiming == s.reclaiming
  {}

  lemma CachedIsInView(s: State, c: CloneId)
    requires OwnersAgree(s) && RegsKnown(s) && ClonesServe(s) && c in s.arcs.holds && s.owner[c].Registry?
    ensures var p := s.owner[c].place; var reg := s.regs[s.arcs.holds[c]];
            p in CacheView(s) && reg.extent == Extent(p.base, CacheView(s)[p].end)
  {
    hide Clone, Within;
  }

  lemma DirtOverlaps(reg: Registration, range: Extent, e: Extent, a: nat)
    requires a in Reclaimed(reg, range).dirty && a !in reg.dirty
    ensures RegionMaps.Holds(e, a) ==> Overlaps(e, range)
    ensures Overlaps(range, reg.extent)
  {}

  lemma ReclaimingKeepsClean(s: State, range: Extent, c: CloneId)
    requires Kept(s) && FreshState(s) && range in s.reclaiming && c in s.arcs.holds
    ensures var reg := Reclaimed(s.regs[s.arcs.holds[c]], range);
            match s.owner[c]
            case Registry(_) => reg.dirty == {}
            case Operation(o) => o in s.ops ==> forall a | a in reg.dirty :: !RegionMaps.Holds(s.ops[o].operand, a)
            case Retiring => true
  {
    hide Overlaps, Within, Clone, ArcsAgree, UncachedIsExclusive, Tight, CacheView, RegionMaps.Holds, Reclaimed;
    var reg := s.regs[s.arcs.holds[c]];
    match s.owner[c]
    case Registry(p) =>
      CachedIsInView(s, c);
      forall a | a in Reclaimed(reg, range).dirty
        ensures a in reg.dirty
      {
        if a !in reg.dirty {
          DirtOverlaps(reg, range, reg.extent, a);
        }
      }
    case Operation(o) =>
      forall a | a in Reclaimed(reg, range).dirty
        ensures !RegionMaps.Holds(s.ops[o].operand, a)
      {
        if a !in reg.dirty {
          DirtOverlaps(reg, range, s.ops[o].operand, a);
        }
      }
    case Retiring =>
  }

  lemma ReclaimingStaysFresh(s: State, range: Extent)
    requires Kept(s) && FreshState(s) && range in s.reclaiming
    ensures FreshState(s.(regs := map r | r in s.regs :: Reclaimed(s.regs[r], range),
                          reclaiming := s.reclaiming - {range}))
  {
    hide Overlaps, Within, Clone, ArcsAgree, UncachedIsExclusive, CacheView, RegionMaps.Holds, Apart;
    var t := s.(regs := map r | r in s.regs :: Reclaimed(s.regs[r], range), reclaiming := s.reclaiming - {range});
    forall c | c in s.arcs.holds
      ensures match s.owner[c]
              case Registry(_) => Reclaimed(s.regs[s.arcs.holds[c]], range).dirty == {}
              case Operation(o) => o in s.ops ==>
                forall a | a in Reclaimed(s.regs[s.arcs.holds[c]], range).dirty ::
                  !RegionMaps.Holds(s.ops[o].operand, a)
              case Retiring => true
    {
      ReclaimingKeepsClean(s, range, c);
    }
    ApartShrinks(s, t);
  }

  /** A registration due to be cached covers just its operand, which nobody reclaims: it is clean when cached. */
  lemma DueIsClean(s: State, op: OpId)
    requires Kept(s) && FreshState(s) && op in s.ops && s.ops[op].stage.Holding? && s.ops[op].stage.due
    ensures var c := s.ops[op].stage.clone;
            && c in s.arcs.holds && s.arcs.holds[c] in s.regs
            && var reg := s.regs[s.arcs.holds[c]];
               reg.extent == s.ops[op].operand && reg.dirty == {} && reg.domain == s.ops[op].domain
  {
    hide Overlaps, CacheView, Within, Apart, ArcsAgree, UncachedIsExclusive, RegionMaps.Holds;
    var c := s.ops[op].stage.clone;
    assert s.owner[c] == Operation(op);
    var reg := s.regs[s.arcs.holds[c]];
    NoDirtLeft(reg.dirty, reg.extent);
  }

  lemma NoDirtLeft(dirty: set<nat>, e: Extent)
    requires forall a | a in dirty :: RegionMaps.Holds(e, a)
    requires forall a | a in dirty :: !RegionMaps.Holds(e, a)
    ensures dirty == {}
  {}

  lemma TrackedView(s: State, op: OpId)
    requires Enabled(s, Track(op)) && OwnersAgree(s) && s.arcs.nextClone !in s.arcs.holds
    ensures var t := Tracked(s, op); var reg := s.regs[s.arcs.holds[s.ops[op].stage.clone]];
            && t.reclaiming == s.reclaiming
            && forall p | p in CacheView(t) ::
                 || (p in CacheView(s) && CacheView(t)[p] == CacheView(s)[p])
                 || Extent(p.base, CacheView(t)[p].end) == reg.extent
  {
    hide LookedUp, Overlaps, RegionMaps.Holds;
    OwnersAreHolders(s);
  }

  lemma TrackingStaysApart(s: State, op: OpId)
    requires Kept(s) && FreshState(s) && Enabled(s, Track(op))
    ensures Apart(Tracked(s, op))
  {
    hide Overlaps, Clean, Tight, Kept, LookedUp, Clone, CacheView, OwnersAgree, ArcsAgree;
    KeptParts(s);
    DueIsClean(s, op);
    TrackedView(s, op);
    OverlapIsMutual();
  }

  lemma TrackingStaysTight(s: State, op: OpId)
    requires Tight(s) && OwnersAgree(s) && Enabled(s, Track(op)) && s.arcs.nextClone !in s.owner
    ensures Tight(Tracked(s, op))
  {
    hide Overlaps, Within, LookedUp, CacheView;
    assert s.owner[s.ops[op].stage.clone] == Operation(op);
  }

  lemma TrackingStaysClean(s: State, op: OpId)
    requires Clean(s) && OwnersAgree(s) && Enabled(s, Track(op)) && s.arcs.nextClone !in s.owner
    requires s.regs[s.arcs.holds[s.ops[op].stage.clone]].dirty == {}
    ensures Clean(Tracked(s, op))
  {
    hide Overlaps, Within, RegionMaps.Holds, LookedUp, CacheView, Clone;
  }

  lemma HitStaysFresh(s: State, op: OpId)
    requires Kept(s) && FreshState(s) && Enabled(s, Hit(op))
    ensures FreshState(Next(s, Hit(op)))
  {
    hide Kept, FreshState, OwnersAgree, CacheView, LookedUp, UsableSpan, Staged, Cloned, Dropped, Overlaps;
    KeptParts(s);
    HitIsClean(s, s.ops[op]);
    HittingStaysFresh(s, op, LookedUp(s, s.ops[op]).value);
  }

  lemma RegisterStaysFresh(s: State, op: OpId, wide: bool)
    requires Kept(s) && FreshState(s) && Enabled(s, Register(op, wide))
    ensures FreshState(Next(s, Register(op, wide)))
  {
    hide Kept, FreshState, OwnersAgree, CacheView, LookedUp, UsableSpan, Registered, Overlaps;
    KeptParts(s);
    SpanIsOperand(s, op);
    NewIsNew(s);
    var span := UsableSpan(s.ops[op]);
    RegisteringStaysFresh(s, op, if wide && span.Some? then span.value else s.ops[op].operand);
  }

  lemma TrackStaysFresh(s: State, op: OpId)
    requires Kept(s) && FreshState(s) && Enabled(s, Track(op))
    ensures FreshState(Next(s, Track(op)))
  {
    hide Kept, FreshState, OwnersAgree, CacheView, LookedUp, UsableSpan, Tracked, Cloned, Dropped, Overlaps;
    KeptParts(s);
    DueIsClean(s, op);
    PartsAreFresh(s);
    TrackingStaysApart(s, op);
    TrackingStaysTight(s, op);
    TrackingStaysClean(s, op);
    PartsAreFresh(Tracked(s, op));
  }

  lemma ReleaseStaysFresh(s: State, op: OpId)
    requires Kept(s) && FreshState(s) && Enabled(s, Release(op))
    ensures FreshState(Next(s, Release(op)))
  {
    hide Kept, FreshState, OwnersAgree, Let;
    KeptParts(s);
    LettingStaysFresh(s, op, Over(s.arcs.holds[s.ops[op].stage.clone]));
  }

  lemma StepKeepsFresh(s: State, step: Step)
    requires Kept(s) && FreshState(s) && Enabled(s, step)
    requires step.Begin? && UsableSpan(step.born).Some? ==> UsableSpan(step.born).value == step.born.operand
    ensures FreshState(Next(s, step))
  {
    hide Kept, FreshState, OwnersAgree, CacheView, LookedUp, Unaffected, Elsewhere, RegionsIn, UsableSpan, Retire,
      Tracked, Registered, Let, Staged, Cloned, Dropped, Overlaps, RegionProtocol.Holds, Clone, ArcsAgree;
    KeptParts(s);
    match step
    case Begin(op, born) => ComingStaysFresh(s, op, born);
    case Hit(op) => HitStaysFresh(s, op);
    case Miss(op) => StagingStaysFresh(s, op, Missed);
    case Register(op, wide) => RegisterStaysFresh(s, op, wide);
    case Track(op) => TrackStaysFresh(s, op);
    case Post(op) => StagingStaysFresh(s, op, Posted(s.ops[op].stage.clone));
    case Refuse(op) => LettingStaysFresh(s, op, Waiting);
    case Land(op) => StagingStaysFresh(s, op, Landed(s.ops[op].stage.clone));
    case Release(op) => ReleaseStaysFresh(s, op);
    case Hand(op) => GoingStaysFresh(s, op);
    case Abandon(op) => GoingStaysFresh(s, op);
    case Invalidate(range) => InvalidatingStaysFresh(s, range);
    case Reclaim(range) => ReclaimingStaysFresh(s, range);
    case DropRetired(c) => DroppingStaysFresh(s, c);
    case ClearDomain(domain) => RetiringStaysFresh(s, Elsewhere(CacheView(s), domain));
    case CloseDomain(domain) => ShuttingStaysFresh(s, s.shut + {domain});
  }

  lemma ShuttingStaysFresh(s: State, shut: set<DomainId>)
    requires FreshState(s)
    ensures FreshState(s.(shut := shut))
  {
    hide Overlaps, CacheView, Within, RegionMaps.Holds, Clone, Apart;
    ApartShrinks(s, s.(shut := shut));
  }

  lemma PartsAreFresh(s: State)
    ensures FreshState(s) <==> Tight(s) && Clean(s) && Apart(s)
  {}

  lemma KeptParts(s: State)
    requires Kept(s)
    ensures OwnersAgree(s) && ArcsAgree(s.arcs) && s.arcs.nextClone !in s.arcs.holds && s.arcs.nextClone !in s.owner
  {}

  lemma NewIsNew(s: State)
    requires Kept(s)
    ensures s.arcs.nextReg !in s.regs && forall c | c in s.arcs.holds :: s.arcs.holds[c] != s.arcs.nextReg
  {
    hide OwnersAgree, ClonesServe, UncachedIsExclusive, ArcsAgree, RegsKnown;
    FreshKeepsArcs(s.arcs);
    FreshIsUnknown(s);
  }

  lemma SpanIsOperand(s: State, op: OpId)
    requires FreshState(s) && op in s.ops
    ensures UsableSpan(s.ops[op]).Some? ==> UsableSpan(s.ops[op]).value == s.ops[op].operand
  {}

  lemma HitIsClean(s: State, op: Op)
    requires Kept(s) && FreshState(s) && LookedUp(s, op).Some?
    ensures var r := LookedUp(s, op).value; r in s.regs && r in s.arcs.strong && s.regs[r].dirty == {}
  {
    hide Lookup, RegionsIn, UncachedIsExclusive, ArcsAgree, Apart, Tight, Clone, Within, Overlaps;
    HitServes(s, op);
    var regions := RegionsIn(CacheView(s), op.domain);
    LookupIsSound(regions, op.operand);
    var b :| b in regions && Within(op.operand, Extent(b, regions[b].end))
      && regions[b].registration == LookedUp(s, op).value;
    var p := Place(op.domain, b);
    assert p in CacheView(s);
    assert s.owner[s.registry[p]] == Registry(p);
  }

  // ----- Whole runs -----

  /** Every entry of the registry covers only pages not reclaimed since it was registered, and no page of a
      leased operand was. */
  ghost predicate NothingStale(s: State) {
    && (forall p | p in CacheView(s) :: s.regs[CacheView(s)[p].registration].dirty == {})
    && (forall o | o in s.ops && Clone(s.ops[o]).Some? ::
          var c := Clone(s.ops[o]).value;
          c in s.arcs.holds && s.arcs.holds[c] in s.regs ==>
            forall a | a in s.regs[s.arcs.holds[c]].dirty :: !RegionMaps.Holds(s.ops[o].operand, a))
  }

  /** Contexts answer for no span around an operand but the operand itself. */
  ghost predicate OnlyOperands(allowed: (Extent, Extent) -> bool) {
    forall operand: Extent, span: Extent ::
      operand.base <= operand.end && Within(operand, span) && allowed(operand, span) ==> span == operand
  }

  lemma FreshMeansNothingStale(s: State)
    requires Kept(s) && FreshState(s)
    ensures NothingStale(s)
  {
    hide Overlaps, Within, Apart, Tight, ArcsAgree, UncachedIsExclusive, RegionMaps.Holds, ClonesServe, RegsKnown;
    forall p | p in CacheView(s)
      ensures s.regs[CacheView(s)[p].registration].dirty == {}
    {
      assert s.owner[s.registry[p]] == Registry(p);
    }
    forall o | o in s.ops && Clone(s.ops[o]).Some?
      ensures s.owner[Clone(s.ops[o]).value] == Operation(o)
    {}
  }

  lemma {:induction false} RunStaysFresh(
    allowed: (Extent, Extent) -> bool, states: seq<State>, steps: seq<Step>, i: nat)
    requires Path(allowed, states, steps) && OnlyOperands(allowed) && i < |states|
    ensures FreshState(states[i])
  {
    hide Takes, Kept, FreshState, OnlyOperands;
    if i == 0 {
      NothingYet();
    } else {
      RunStaysFresh(allowed, states, steps, i - 1);
      RunKeeps(allowed, states, steps, i - 1);
      TakingStaysFresh(allowed, states[i - 1], steps[i - 1], states[i]);
    }
  }

  lemma TakingStaysFresh(allowed: (Extent, Extent) -> bool, s: State, step: Step, t: State)
    requires Takes(allowed, s, step, t) && OnlyOperands(allowed) && Kept(s) && FreshState(s)
    ensures FreshState(t)
  {
    hide Next, Kept, FreshState, Enabled;
    if step.Begin? {
      BornProper(s, step);
    }
    StepKeepsFresh(s, step);
  }

  lemma BornProper(s: State, step: Step)
    requires Enabled(s, step) && step.Begin?
    ensures step.born.operand.base <= step.born.operand.end
  {}

  lemma NothingYet()
    ensures FreshState(Initial())
  {}

  /** With the module's spans, nothing cached goes stale and no leased operand loses a page, whatever the
      interleaving of registering, caching, posting, invalidating and reclaiming. */
  lemma {:induction false} OperandSpansStayFresh(
    allowed: (Extent, Extent) -> bool, states: seq<State>, steps: seq<Step>, i: nat)
    requires Path(allowed, states, steps) && OnlyOperands(allowed) && i < |states|
    ensures NothingStale(states[i])
  {
    hide Path, Kept, FreshState, NothingStale, OnlyOperands;
    RunStaysFresh(allowed, states, steps, i);
    RunKeeps(allowed, states, steps, i);
    FreshMeansNothingStale(states[i]);
  }

  // ----- Wider spans -----

  /** The part of a wider span its operand does not cover: the allocator may reclaim it at any time. */
  function Beside(operand: Extent, span: Extent): Extent {
    if span.base < operand.base then Extent(span.base, operand.base) else Extent(operand.end, span.end)
  }

  function Widened(operand: Extent, span: Extent, stage: Stage): Op {
    Op(0, operand, Some(span), false, stage)
  }

  /** The wide registration, before it is cached. */
  function Unregistered(operand: Extent, span: Extent, stage: Stage): State {
    Initial().(ops := map[0 := Widened(operand, span, stage)])
  }

  function RegisteredWide(operand: Extent, span: Extent, dirty: set<nat>, reclaiming: set<Extent>): State {
    State(Arcs(map[0 := 0], map[0 := 1], [], 1, 1), map[0 := Registration(0, span, dirty, false)], map[], {},
          map[0 := Widened(operand, span, Holding(0, true))], reclaiming, map[0 := Operation(0)], {})
  }

  function Dirt(operand: Extent, span: Extent): set<nat> {
    Reclaimed(Registration(0, span, {}, false), Beside(operand, span)).dirty
  }

  lemma EmptyMisses(s: State, op: Op)
    requires s.registry == map[]
    ensures LookedUp(s, op).None? && CacheView(s) == map[]
  {
    hide Lookup;
    var view: View := map[];
    assert CacheView(s) == view;
    assert RegionsIn(view, op.domain) == map[];
    LookupInNothing(op.operand);
  }

  lemma MissesWide(allowed: (Extent, Extent) -> bool, operand: Extent, span: Extent)
    ensures Takes(allowed, Unregistered(operand, span, Waiting), Miss(0), Unregistered(operand, span, Missed))
  {
    hide LookedUp, CacheView;
    EmptyMisses(Unregistered(operand, span, Waiting), Widened(operand, span, Waiting));
  }

  lemma RegistersWide(allowed: (Extent, Extent) -> bool, operand: Extent, span: Extent)
    requires Within(operand, span)
    ensures Takes(allowed, Unregistered(operand, span, Missed), Register(0, true),
                  RegisteredWide(operand, span, {}, {}))
  {
    hide LookedUp, CacheView;
  }

  lemma NothingToRetire(s: State, left: View)
    requires s.registry == map[] && forall c | c in s.owner :: !s.owner[c].Registry?
    ensures Retire(s, left) == s
  {
    var t := Retire(s, left);
    assert t.registry == s.registry && t.retired == s.retired && t.owner == s.owner;
  }

  /** Between registering and caching, the hooks invalidate the rest of the span, which nobody uses. */
  lemma InvalidatesBeside(allowed: (Extent, Extent) -> bool, operand: Extent, span: Extent)
    requires Within(operand, span) && operand.base <= operand.end
    ensures var gap := Beside(operand, span);
            Takes(allowed, RegisteredWide(operand, span, {}, {}), Invalidate(gap),
                  RegisteredWide(operand, span, {}, {gap}))
  {
    hide LookedUp, CacheView, Unaffected, Retire;
    var s := RegisteredWide(operand, span, {}, {});
    NothingToRetire(s, Unaffected(CacheView(s), Beside(operand, span)));
  }

  /** And reclaim it, leaving the registration over pages that are gone. */
  lemma ReclaimsBeside(allowed: (Extent, Extent) -> bool, operand: Extent, span: Extent)
    requires Within(operand, span) && operand.base <= operand.end && span != operand
    ensures var gap := Beside(operand, span);
            Takes(allowed, RegisteredWide(operand, span, {}, {gap}), Reclaim(gap),
                  RegisteredWide(operand, span, Dirt(operand, span), {}))
    ensures Dirt(operand, span) != {}
  {
    hide LookedUp, CacheView;
    var gap := Beside(operand, span);
    assert RegionMaps.Holds(gap, gap.base) && span.base <= gap.base < span.end;
    assert gap.base in Dirt(operand, span);
    var s := RegisteredWide(operand, span, {}, {gap});
    assert Next(s, Reclaim(gap)).regs[0].dirty == Dirt(operand, span);
    assert s.reclaiming - {gap} == {};
  }

  lemma CachesStale(allowed: (Extent, Extent) -> bool, operand: Extent, span: Extent)
    requires Dirt(operand, span) != {}
    ensures var s := RegisteredWide(operand, span, Dirt(operand, span), {});
            Enabled(s, Track(0)) && Takes(allowed, s, Track(0), Next(s, Track(0))) && !NothingStale(Next(s, Track(0)))
  {
    hide Dirt, LookedUp;
    var t := Next(RegisteredWide(operand, span, Dirt(operand, span), {}), Track(0));
    assert Place(0, span.base) in CacheView(t);
  }

  /** For every span wider than its operand, a run that caches a registration over reclaimed pages. */
  lemma {:induction false} WiderSpansGoStale(allowed: (Extent, Extent) -> bool, operand: Extent, span: Extent)
    returns (states: seq<State>, steps: seq<Step>)
    requires operand.base <= operand.end && Within(operand, span) && allowed(operand, span) && span != operand
    ensures Path(allowed, states, steps) && !NothingStale(states[|steps|])
  {
    hide Takes, Next, NothingStale, Within, Dirt, RegisteredWide, Unregistered, Beside, Initial, Enabled;
    var gap := Beside(operand, span);
    BeginsWide(allowed, operand, span);
    MissesWide(allowed, operand, span);
    RegistersWide(allowed, operand, span);
    InvalidatesBeside(allowed, operand, span);
    ReclaimsBeside(allowed, operand, span);
    CachesStale(allowed, operand, span);
    var stale := RegisteredWide(operand, span, Dirt(operand, span), {});
    steps := [Begin(0, Widened(operand, span, Waiting)), Miss(0), Register(0, true), Invalidate(gap), Reclaim(gap),
              Track(0)];
    states := [Initial(), Unregistered(operand, span, Waiting), Unregistered(operand, span, Missed),
               RegisteredWide(operand, span, {}, {}),
               RegisteredWide(operand, span, {}, {gap}), stale, Next(stale, Track(0))];
  }

  lemma BeginsWide(allowed: (Extent, Extent) -> bool, operand: Extent, span: Extent)
    requires operand.base <= operand.end && allowed(operand, span)
    ensures Takes(allowed, Initial(), Begin(0, Widened(operand, span, Waiting)), Unregistered(operand, span, Waiting))
  {}

  /** The cache is safe in every run exactly when contexts answer for no more than their operand. */
  lemma FreshExactlyWhen(allowed: (Extent, Extent) -> bool)
    ensures (forall states: seq<State>, steps: seq<Step> ::
            Path(allowed, states, steps) ==> NothingStale(states[|steps|]))
            <==> OnlyOperands(allowed)
  {
    hide Takes, NothingStale, Initial;
    if OnlyOperands(allowed) {
      forall states: seq<State>, steps: seq<Step> | Path(allowed, states, steps)
        ensures NothingStale(states[|steps|])
      {
        OperandSpansStayFresh(allowed, states, steps, |steps|);
      }
    } else {
      var operand: Extent, span: Extent :|
        operand.base <= operand.end && Within(operand, span) && allowed(operand, span) && span != operand;
      var states, steps := WiderSpansGoStale(allowed, operand, span);
    }
  }
}
