/** The registration cache shared by every endpoint, and one endpoint's operand path into it. The registry
    holds one clone of each registration it caches; whoever posts holds another; the last one to go closes it. */
module RegionCache {
  import opened Basics
  import opened RegionMaps

  type DomainId = nat

  datatype DomainRegions = DomainRegions(domain: DomainId, regions: Regions)

  /** Where the registry keeps an entry. */
  datatype Place = Place(domain: DomainId, base: nat)

  type View = map<Place, Entry>

  /** What one `fi_mr_reg` pinned. */
  datatype Pinned = Pinned(domain: DomainId, extent: Extent)

  function Less(regions: Regions, base: nat): Regions {
    map b | b in regions && b != base :: regions[b]
  }

  // ----- The registry as one map -----

  predicate Distinct(registry: seq<DomainRegions>) {
    forall i, j | 0 <= i < j < |registry| :: registry[i].domain != registry[j].domain
  }

  predicate IsAt(registry: seq<DomainRegions>, p: Place, i: nat) {
    i < |registry| && registry[i].domain == p.domain && p.base in registry[i].regions
  }

  ghost function ViewOf(registry: seq<DomainRegions>): View {
    map p | p in PlacesOf(registry) :: EntryOf(registry, p)
  }

  ghost function PlacesOf(registry: seq<DomainRegions>): (places: set<Place>)
    ensures forall p :: p in places <==> exists i: nat :: IsAt(registry, p, i)
  {
    var places := set i, b | 0 <= i < |registry| && b in registry[i].regions :: Place(registry[i].domain, b);
    assert forall p, i: nat | IsAt(registry, p, i) :: Place(registry[i].domain, p.base) in places;
    assert forall i: nat, b | i < |registry| && b in registry[i].regions ::
      IsAt(registry, Place(registry[i].domain, b), i);
    places
  }

  ghost function EntryOf(registry: seq<DomainRegions>, p: Place): Entry
    requires p in PlacesOf(registry)
  {
    var i: nat :| IsAt(registry, p, i);
    registry[i].regions[p.base]
  }

  lemma ViewAt(registry: seq<DomainRegions>, p: Place, i: nat)
    requires Distinct(registry) && IsAt(registry, p, i)
    ensures p in ViewOf(registry) && ViewOf(registry)[p] == registry[i].regions[p.base]
  {
    assert p in PlacesOf(registry);
    forall j: nat | j < |registry| && j != i
      ensures !IsAt(registry, p, j)
    {
      assert if i < j then registry[i].domain != registry[j].domain else registry[j].domain != registry[i].domain;
    }
  }

  /** The part of the view one domain sees. */
  ghost function RegionsIn(view: View, domain: DomainId): (regions: Regions)
    ensures forall b :: b in regions <==> Place(domain, b) in view
    ensures forall b | b in regions :: regions[b] == view[Place(domain, b)]
  {
    var bases := set p | p in view && p.domain == domain :: p.base;
    assert forall b | Place(domain, b) in view :: Place(domain, b).base in bases;
    map b | b in bases :: view[Place(domain, b)]
  }

  lemma RegionsAreIn(registry: seq<DomainRegions>, i: nat)
    requires Distinct(registry) && i < |registry|
    ensures RegionsIn(ViewOf(registry), registry[i].domain) == registry[i].regions
  {
    var domain := registry[i].domain;
    forall b
      ensures b in RegionsIn(ViewOf(registry), domain) <==> b in registry[i].regions
      ensures b in registry[i].regions ==> RegionsIn(ViewOf(registry), domain)[b] == registry[i].regions[b]
    {
      if b in registry[i].regions {
        ViewAt(registry, Place(domain, b), i);
      } else {
        forall j: nat
          ensures !IsAt(registry, Place(domain, b), j)
        {
          if j < |registry| && j != i {
            assert registry[j].domain != domain;
          }
        }
      }
    }
  }

  lemma AbsentDomainIsEmpty(registry: seq<DomainRegions>, domain: DomainId)
    requires forall i | 0 <= i < |registry| :: registry[i].domain != domain
    ensures RegionsIn(ViewOf(registry), domain) == map[]
    ensures forall p | p in ViewOf(registry) :: p.domain != domain
  {}

  /** Replacing one domain's map replaces that domain's part of the view. */
  lemma ViewAfterUpdate(registry: seq<DomainRegions>, i: nat, regions: Regions)
    requires Distinct(registry) && i < |registry|
    ensures var after := registry[i := DomainRegions(registry[i].domain, regions)];
            && Distinct(after)
            && (forall p :: p in ViewOf(after)
                  <==> if p.domain == registry[i].domain then p.base in regions else p in ViewOf(registry))
            && (forall p | p in ViewOf(after) ::
                  ViewOf(after)[p] == if p.domain == registry[i].domain then regions[p.base] else ViewOf(registry)[p])
  {
    var domain := registry[i].domain;
    var after := registry[i := DomainRegions(domain, regions)];
    RegionsAreIn(after, i);
    forall p: Place | p.domain == domain
      ensures p in ViewOf(after) <==> p.base in regions
      ensures p in ViewOf(after) ==> ViewOf(after)[p] == regions[p.base]
    {
      assert Place(domain, p.base) == p;
      assert p.base in RegionsIn(ViewOf(after), domain) <==> p in ViewOf(after);
    }
    forall p: Place | p.domain != domain
      ensures p in ViewOf(after) <==> p in ViewOf(registry)
      ensures p in ViewOf(after) ==> ViewOf(after)[p] == ViewOf(registry)[p]
    {
      OtherDomainsKeep(registry, after, i, p);
    }
  }

  lemma OtherDomainsKeep(registry: seq<DomainRegions>, after: seq<DomainRegions>, i: nat, p: Place)
    requires Distinct(registry) && Distinct(after) && |after| == |registry| && i < |registry|
             && p.domain != registry[i].domain
    requires after == registry[i := after[i]] && after[i].domain == registry[i].domain
    ensures p in ViewOf(after) <==> p in ViewOf(registry)
    ensures p in ViewOf(after) ==> ViewOf(after)[p] == ViewOf(registry)[p]
  {
    if p in ViewOf(registry) {
      var j: nat :| IsAt(registry, p, j);
      assert IsAt(after, p, j);
      ViewAt(registry, p, j);
      ViewAt(after, p, j);
    } else {
      forall j: nat
        ensures !IsAt(after, p, j)
      {
        assert !IsAt(registry, p, j);
      }
    }
  }

  // ----- Who holds what -----

  /** The registry's clones: which registration each place holds. */
  ghost function Clones(view: View): map<Place, RegId> {
    map p | p in view :: view[p].registration
  }

  /** Every entry names the extent its registration pinned on its own domain. */
  ghost predicate Faithful(view: View, pinned: map<RegId, Pinned>) {
    forall p | p in view ::
      && view[p].registration in pinned
      && pinned[view[p].registration] == Pinned(p.domain, Extent(p.base, view[p].end))
  }

  /** `fi_close` ran once for every registration that is gone, and for no other. */
  ghost predicate ClosedOnce(strong: map<RegId, nat>, closes: seq<RegId>, next: RegId) {
    && (forall r | r in strong :: r < next)
    && (forall r: RegId :: r in closes <==> r < next && r !in strong)
    && (forall i, j | 0 <= i < j < |closes| :: closes[i] != closes[j])
  }

  ghost predicate Sound(view: View, strong: map<RegId, nat>, leases: multiset<RegId>, pinned: map<RegId, Pinned>,
                        closes: seq<RegId>, next: RegId) {
    && Counted(Clones(view), strong, leases)
    && Faithful(view, pinned)
    && ClosedOnce(strong, closes, next)
    && (forall r: RegId :: r in pinned <==> r < next)
  }

  lemma ClonesAfterInsert(view: View, p: Place, e: Entry)
    ensures Clones(view[p := e]) == Clones(view)[p := e.registration]
  {}

  lemma ClonesAfterRemove(view: View, p: Place)
    ensures Clones(view - {p}) == Clones(view) - {p}
  {}

  /** The entry taken out becomes a loose clone. */
  lemma RemovingKeepsSound(view: View, strong: map<RegId, nat>, leases: multiset<RegId>, pinned: map<RegId, Pinned>,
                           closes: seq<RegId>, next: RegId, p: Place)
    requires p in view && Sound(view, strong, leases, pinned, closes, next)
    ensures Sound(view - {p}, strong, leases + multiset{view[p].registration}, pinned, closes, next)
  {
    hide Counted;
    ClonesAfterRemove(view, p);
    CountedAfterRemove(Clones(view), strong, leases, p);
  }

  lemma InsertingKeepsSound(view: View, strong: map<RegId, nat>, leases: multiset<RegId>, pinned: map<RegId, Pinned>,
                            closes: seq<RegId>, next: RegId, p: Place, e: Entry)
    requires p !in view && e.registration in leases && Sound(view, strong, leases, pinned, closes, next)
    requires e.registration in pinned && pinned[e.registration] == Pinned(p.domain, Extent(p.base, e.end))
    ensures Sound(view[p := e], strong, leases - multiset{e.registration}, pinned, closes, next)
  {
    hide Counted;
    ClonesAfterInsert(view, p, e);
    CountedAfterInsert(Clones(view), strong, leases, p, e.registration);
  }

  lemma CloningKeepsSound(view: View, strong: map<RegId, nat>, leases: multiset<RegId>, pinned: map<RegId, Pinned>,
                          closes: seq<RegId>, next: RegId, r: RegId)
    requires r in strong && Sound(view, strong, leases, pinned, closes, next)
    ensures Sound(view, strong[r := strong[r] + 1], leases + multiset{r}, pinned, closes, next)
  {
    hide Counted;
    CountedAfterClone(Clones(view), strong, leases, r);
  }

  /** Dropping a loose clone closes the registration exactly when nobody else holds it. */
  lemma DroppingKeepsSound(view: View, strong: map<RegId, nat>, leases: multiset<RegId>, pinned: map<RegId, Pinned>,
                           closes: seq<RegId>, next: RegId, r: RegId)
    requires r in leases && Sound(view, strong, leases, pinned, closes, next)
    ensures r in strong && 0 < strong[r]
    ensures 1 < strong[r] ==> Sound(view, strong[r := strong[r] - 1], leases - multiset{r}, pinned, closes, next)
    ensures strong[r] == 1 ==> Sound(view, strong - {r}, leases - multiset{r}, pinned, closes + [r], next)
    ensures strong[r] == 1 <==> leases[r] == 1 && forall p | p in view :: view[p].registration != r
  {
    hide Counted;
    CountedAfterDrop(Clones(view), strong, leases, r);
    LastCloneIs(Clones(view), strong, leases, r);
    assert forall p | p in view :: Clones(view)[p] == view[p].registration;
  }

  lemma LastCloneIs<K>(m: map<K, RegId>, strong: map<RegId, nat>, leases: multiset<RegId>, r: RegId)
    requires r in leases && Counted(m, strong, leases)
    ensures r in strong && (strong[r] == 1 <==> leases[r] == 1 && forall k | k in m :: m[k] != r)
  {
    if forall k | k in m :: m[k] != r {
      assert Holders(m, r) == {};
    } else {
      var k :| k in m && m[k] == r;
      assert k in Holders(m, r);
    }
  }

  lemma RegisteringKeepsSound(view: View, strong: map<RegId, nat>, leases: multiset<RegId>, pinned: map<RegId, Pinned>,
                              closes: seq<RegId>, next: RegId, what: Pinned)
    requires Sound(view, strong, leases, pinned, closes, next)
    ensures Sound(view, strong[next := 1], leases + multiset{next}, pinned[next := what], closes, next + 1)
  {
    assert next !in strong && next !in leases;
    forall p | p in view
      ensures Clones(view)[p] != next
    {
      assert view[p].registration in pinned;
    }
    FirstCloneCounts(Clones(view), strong, leases, next);
  }

  lemma FirstCloneCounts<K>(m: map<K, RegId>, strong: map<RegId, nat>, leases: multiset<RegId>, r: RegId)
    requires Counted(m, strong, leases) && r !in strong
    ensures Counted(m, strong[r := 1], leases + multiset{r})
  {
    assert Holders(m, r) == {};
  }

  /** What an invalidation over the range leaves. */
  function Unaffected(view: View, range: Extent): View {
    map p | p in view && !Overlaps(range, Extent(p.base, view[p].end)) :: view[p]
  }

  /** What clearing a domain leaves. */
  function Elsewhere(view: View, domain: DomainId): View {
    map p | p in view && p.domain != domain :: view[p]
  }

  lemma NothingElsewhere(before: View, now: View, domain: DomainId)
    requires forall p | p in now :: p in before && now[p] == before[p] && p.domain != domain
    requires forall p | p in before && p.domain != domain :: p in now
    ensures now == Elsewhere(before, domain)
  {}

  lemma NothingHere(registry: seq<DomainRegions>, domain: DomainId)
    requires forall i | 0 <= i < |registry| :: registry[i].domain != domain
    ensures forall p | p in ViewOf(registry) :: p.domain != domain
  {
    AbsentDomainIsEmpty(registry, domain);
  }

  /** Part of the way there: nothing gone but what overlaps. */
  ghost predicate Between(before: View, now: View, range: Extent) {
    && (forall p | p in now :: p in before && now[p] == before[p])
    && (forall p | p in Unaffected(before, range) :: p in now)
  }

  predicate Cleared(regions: Regions, range: Extent) {
    forall b | b in regions :: !(b < range.end && range.base < regions[b].end)
  }

  lemma ClearedEverywhere(registry: seq<DomainRegions>, before: View, range: Extent)
    requires Distinct(registry) && Between(before, ViewOf(registry), range)
    requires forall j | 0 <= j < |registry| :: Cleared(registry[j].regions, range)
    ensures ViewOf(registry) == Unaffected(before, range)
  {
    forall p | p in ViewOf(registry)
      ensures p in Unaffected(before, range)
    {
      var i: nat :| IsAt(registry, p, i);
      ViewAt(registry, p, i);
    }
  }

  // ----- The registry -----

  /** One `fi_mr_reg`: what it was asked to register, and the registration, or none if it refused. */
  datatype Asking = Asking(domain: DomainId, extent: Extent, answer: Option<RegId>)

  class RegionCache {
    var registry: seq<DomainRegions>
    /** Strong counts of the registrations still open. */
    var strong: map<RegId, nat>
    var next: RegId
    /** Clones held outside the registry, what was pinned, and every `fi_close`. */
    ghost var leases: multiset<RegId>
    ghost var pinned: map<RegId, Pinned>
    ghost var closes: seq<RegId>
    /** Every `fi_mr_reg`, in order. */
    ghost var asked: seq<Asking>

    ghost function Contents(): View
      reads `registry
    {
      ViewOf(registry)
    }

    ghost predicate Valid()
      reads this
    {
      Distinct(registry) && Sound(Contents(), strong, leases, pinned, closes, next)
    }

    constructor ()
      ensures Valid() && Contents() == map[] && leases == multiset{} && closes == [] && asked == []
    {
      registry, strong, next, leases, pinned, closes, asked := [], map[], 0, multiset{}, map[], [], [];
    }

    /** Drop one clone held outside the registry; the last one anywhere deregisters. */
    method Drop(r: RegId)
      requires Valid() && r in leases
      modifies `strong, `leases, `closes
      ensures Valid() && leases == old(leases) - multiset{r}
      ensures closes == if old(leases)[r] == 1 && forall p | p in Contents() :: Contents()[p].registration != r
                        then old(closes) + [r] else old(closes)
    {
      hide Sound, ViewOf;
      DroppingKeepsSound(Contents(), strong, leases, pinned, closes, next, r);
      leases := leases - multiset{r};
      if strong[r] == 1 {
        strong := strong - {r};
        closes := closes + [r];
      } else {
        strong := strong[r := strong[r] - 1];
      }
    }

    /** `fi_mr_reg`: it may refuse. */
    method Register(domain: DomainId, extent: Extent) returns (r: Option<RegId>)
      requires Valid()
      modifies `strong, `next, `leases, `pinned, `asked
      ensures asked == old(asked) + [Asking(domain, extent, r)]
      ensures Valid() && (r.None? ==> strong == old(strong) && leases == old(leases) && pinned == old(pinned))
      ensures r.Some? ==> r.value !in old(pinned) && leases == old(leases) + multiset{r.value}
                          && pinned == old(pinned)[r.value := Pinned(domain, extent)]
    {
      hide Sound, ViewOf;
      var refused: bool := *;
      if refused {
        asked := asked + [Asking(domain, extent, None)];
        return None;
      }
      FreshIsUnpinned(Contents(), strong, leases, pinned, closes, next);
      RegisteringKeepsSound(Contents(), strong, leases, pinned, closes, next, Pinned(domain, extent));
      r := Some(next);
      strong, leases, pinned, next := strong[next := 1], leases + multiset{next},
        pinned[next := Pinned(domain, extent)], next + 1;
      asked := asked + [Asking(domain, extent, r)];
    }

    /** The index of a domain's entries, if it has any. */
    method Position(domain: DomainId) returns (found: Option<nat>)
      ensures found.Some? ==> found.value < |registry| && registry[found.value].domain == domain
      ensures found.None? ==> forall i | 0 <= i < |registry| :: registry[i].domain != domain
    {
      var i := 0;
      while i < |registry|
        invariant i <= |registry| && forall j | 0 <= j < i :: registry[j].domain != domain
      {
        if registry[i].domain == domain {
          return Some(i);
        }
        i := i + 1;
      }
      return None;
    }

    /** Where the domain's entries are kept, an empty map if it had none. */
    method DomainIndex(domain: DomainId) returns (i: nat)
      requires Valid()
      modifies `registry
      ensures Valid() && Contents() == old(Contents())
      ensures i < |registry| && registry[i].domain == domain
    {
      hide Sound, ViewOf;
      var found := Position(domain);
      match found {
        case Some(at) => i := at;
        case None =>
          EmptyDomainAddsNothing(registry, domain);
          i := |registry|;
          registry := registry + [DomainRegions(domain, map[])];
      }
    }

    /** Take one entry out; the registry's clone passes to the caller. */
    method TakeEntry(i: nat, base: nat) returns (r: RegId)
      requires Valid() && i < |registry| && base in registry[i].regions
      modifies `registry, `leases
      ensures Valid() && |registry| == old(|registry|) && r == old(registry)[i].regions[base].registration
      ensures registry == old(registry)[i := DomainRegions(old(registry)[i].domain,
                                                           Less(old(registry)[i].regions, base))]
      ensures Place(registry[i].domain, base) in old(Contents())
              && Contents() == old(Contents()) - {Place(registry[i].domain, base)}
      ensures leases == old(leases) + multiset{r}
              && old(Contents())[Place(registry[i].domain, base)] == old(registry)[i].regions[base]
    {
      hide Sound, ViewOf, PlacesOf;
      var regions := registry[i].regions;
      ghost var p := Place(registry[i].domain, base);
      ViewAt(registry, p, i);
      ViewAfterUpdate(registry, i, Less(regions, base));
      RegionsAreIn(registry, i);
      RemovingKeepsSound(Contents(), strong, leases, pinned, closes, next, p);
      r := regions[base].registration;
      registry := registry[i := DomainRegions(registry[i].domain, Less(regions, base))];
      leases := leases + multiset{r};
      assert Contents() == old(Contents()) - {p};
    }

    /** Put an entry where there is none; one of the caller's clones passes to the registry. */
    method PutEntry(i: nat, base: nat, entry: Entry)
      requires Valid() && i < |registry| && base !in registry[i].regions && entry.registration in leases
      requires entry.registration in pinned
               && pinned[entry.registration] == Pinned(registry[i].domain, Extent(base, entry.end))
      modifies `registry, `leases
      ensures Valid() && Contents() == old(Contents())[Place(old(registry)[i].domain, base) := entry]
      ensures leases == old(leases) - multiset{entry.registration}
    {
      hide Sound, ViewOf, PlacesOf;
      var regions := registry[i].regions;
      ghost var p := Place(registry[i].domain, base);
      RegionsAreIn(registry, i);
      ViewAfterUpdate(registry, i, regions[base := entry]);
      InsertingKeepsSound(Contents(), strong, leases, pinned, closes, next, p, entry);
      registry := registry[i := DomainRegions(registry[i].domain, regions[base := entry])];
      leases := leases - multiset{entry.registration};
      assert Contents() == old(Contents())[p := entry];
    }

    method Clone(r: RegId)
      requires Valid() && r in strong
      modifies `strong, `leases
      ensures Valid() && leases == old(leases) + multiset{r}
    {
      hide Sound, ViewOf;
      CloningKeepsSound(Contents(), strong, leases, pinned, closes, next, r);
      strong, leases := strong[r := strong[r] + 1], leases + multiset{r};
    }

    /** Drop what a call took out of the registry, once the registry is unlocked. */
    method DropAll(retired: seq<RegId>)
      requires Valid() && multiset(retired) <= leases
      modifies `strong, `leases, `closes
      ensures Valid() && leases == old(leases) - multiset(retired)
    {
      hide Valid;
      var rest := retired;
      while rest != []
        invariant Valid() && multiset(rest) <= leases && leases - multiset(rest) == old(leases) - multiset(retired)
        decreases |rest|
      {
        var r := rest[0];
        assert rest == [r] + rest[1..];
        rest := rest[1..];
        Drop(r);
      }
    }

    /** Put an entry where there is one; the clone taken out is dropped once the registry is unlocked. */
    method Supersede(i: nat, base: nat, entry: Entry)
      requires Valid() && i < |registry| && base in registry[i].regions && entry.registration in leases
      requires entry.registration in pinned
               && pinned[entry.registration] == Pinned(registry[i].domain, Extent(base, entry.end))
      modifies `registry, `leases, `strong, `closes
      ensures Valid() && Contents() == old(Contents())[Place(old(registry)[i].domain, base) := entry]
      ensures leases == old(leases) - multiset{entry.registration}
    {
      hide Valid, ViewOf, RegionCache.Contents;
      ghost var p := Place(registry[i].domain, base);
      var replaced := TakeEntry(i, base);
      TakenThenPut(old(Contents()), p, entry);
      ReturnedAfterTaking(old(leases), replaced, entry.registration);
      PutEntry(i, base, entry);
      Drop(replaced);
    }

    /** Cache a registered extent; the registry takes its own clone, and whatever it held there is superseded. */
    method Track(base: nat, end: nat, domain: DomainId, r: RegId)
      requires Valid() && r in leases && r in pinned && pinned[r] == Pinned(domain, Extent(base, end))
      modifies `registry, `strong, `leases, `closes
      ensures Valid() && Contents() == old(Contents())[Place(domain, base) := Entry(end, r)]
      ensures leases == old(leases) && pinned == old(pinned)
    {
      hide Sound, ViewOf;
      LeasedIsOpen(Contents(), strong, leases, pinned, closes, next, r);
      hide Valid;
      var i := DomainIndex(domain);
      Clone(r);
      if base in registry[i].regions {
        Supersede(i, base, Entry(end, r));
      } else {
        PutEntry(i, base, Entry(end, r));
      }
    }

    /** The greatest tracked base at or below `start`. */
    method NearestBase(regions: Regions, start: nat) returns (nearest: Option<nat>)
      ensures nearest.Some? ==> IsNearest(regions, start, nearest.value)
      ensures nearest.None? ==> forall b | b in regions :: start < b
    {
      nearest := None;
      var left := regions.Keys;
      while left != {}
        invariant left <= regions.Keys
        invariant nearest.None? ==> forall b | b in regions && b !in left :: start < b
        invariant nearest.Some? ==> nearest.value in regions && nearest.value <= start
                                    && forall b | b in regions && b !in left && b <= start :: b <= nearest.value
        decreases left
      {
        var b :| b in left;
        left := left - {b};
        if b <= start && (nearest.None? || nearest.value < b) {
          nearest := Some(b);
        }
      }
    }

    /** A clone of the cached registration covering the operand, if the nearest entry does. */
    method Covering(operand: Extent, domain: DomainId) returns (lease: Option<RegId>)
      requires Valid()
      modifies `strong, `leases
      ensures Valid() && lease == Lookup(RegionsIn(Contents(), domain), operand)
      ensures leases == if lease.Some? then old(leases) + multiset{lease.value} else old(leases)
    {
      hide Sound, ViewOf, Lookup;
      var found := Position(domain);
      if found.None? {
        AbsentDomainIsEmpty(registry, domain);
        LookupInNothing(operand);
        return None;
      }
      var regions := registry[found.value].regions;
      RegionsAreIn(registry, found.value);
      var nearest := NearestBase(regions, operand.base);
      LookupIsAtNearest(regions, operand, nearest);
      if nearest.None? || regions[nearest.value].end < operand.end {
        return None;
      }
      lease := Some(regions[nearest.value].registration);
      ViewAt(registry, Place(domain, nearest.value), found.value);
      CachedIsOpen(Contents(), strong, leases, pinned, closes, next, Place(domain, nearest.value));
      Clone(lease.value);
    }

    /** Retire one domain's entries over the range. */
    method RetireIn(i: nat, range: Extent, retired: seq<RegId>, ghost before: View) returns (more: seq<RegId>)
      requires Valid() && i < |registry| && multiset(retired) <= leases
      requires Between(before, Contents(), range)
      modifies `registry, `leases
      ensures Valid() && |registry| == old(|registry|) && Between(before, Contents(), range)
      ensures forall j | 0 <= j < |registry| && j != i :: registry[j] == old(registry)[j]
      ensures Cleared(registry[i].regions, range)
      ensures leases - multiset(more) == old(leases) - multiset(retired) && multiset(more) <= leases
    {
      hide Sound, ViewOf;
      more := retired;
      var bases := set b | b in registry[i].regions && b < range.end && range.base < registry[i].regions[b].end;
      while bases != {}
        invariant Valid() && |registry| == old(|registry|) && Between(before, Contents(), range)
        invariant forall j | 0 <= j < |registry| && j != i :: registry[j] == old(registry)[j]
        invariant forall b | b in bases ::
                    b in registry[i].regions && b < range.end && range.base < registry[i].regions[b].end
        invariant forall b | b in registry[i].regions && b !in bases ::
                    !(b < range.end && range.base < registry[i].regions[b].end)
        invariant leases - multiset(more) == old(leases) - multiset(retired) && multiset(more) <= leases
        decreases bases
      {
        var base :| base in bases;
        bases := bases - {base};
        var r := TakeEntry(i, base);
        assert multiset(more + [r]) == multiset(more) + multiset{r};
        more := more + [r];
      }
    }

    /** No lookup finds an overlapping extent any more, whatever its domain; transfers already posted keep theirs
        open. */
    method Invalidate(range: Extent)
      requires Valid()
      modifies `registry, `strong, `leases, `closes
      ensures Valid() && Contents() == Unaffected(old(Contents()), range)
      ensures leases == old(leases) && pinned == old(pinned)
    {
      hide Sound, ViewOf;
      var retired: seq<RegId> := [];
      var i := 0;
      while i < |registry|
        invariant Valid() && i <= |registry| && pinned == old(pinned)
        invariant Between(old(Contents()), Contents(), range)
        invariant forall j | 0 <= j < i :: Cleared(registry[j].regions, range)
        invariant leases - multiset(retired) == old(leases) && multiset(retired) <= leases
      {
        retired := RetireIn(i, range, retired, old(Contents()));
        i := i + 1;
      }
      ClearedEverywhere(registry, old(Contents()), range);
      DropAll(retired);
    }

    /** One domain's entries all leave. */
    method ClearDomain(domain: DomainId)
      requires Valid()
      modifies `registry, `strong, `leases, `closes
      ensures Valid() && Contents() == Elsewhere(old(Contents()), domain)
      ensures leases == old(leases) && pinned == old(pinned)
    {
      hide Valid, ViewOf, Elsewhere;
      var found := Position(domain);
      if found.None? {
        NothingHere(registry, domain);
        NothingElsewhere(Contents(), Contents(), domain);
        return;
      }
      var retired := EmptyDomain(found.value);
      ForgetDomain(found.value);
      NothingElsewhere(old(Contents()), Contents(), domain);
      DropAll(retired);
    }

    /** Take out every entry of one domain. */
    method EmptyDomain(i: nat) returns (retired: seq<RegId>)
      requires Valid() && i < |registry|
      modifies `registry, `leases
      ensures Valid() && i < |registry| && registry[i] == DomainRegions(old(registry)[i].domain, map[])
      ensures forall p | p in Contents() :: p in old(Contents()) && Contents()[p] == old(Contents())[p]
      ensures forall p | p in old(Contents()) && p.domain != registry[i].domain :: p in Contents()
      ensures leases - multiset(retired) == old(leases) && multiset(retired) <= leases
    {
      hide Sound, ViewOf;
      retired := [];
      while registry[i].regions != map[]
        invariant Valid() && i < |registry| && registry[i].domain == old(registry)[i].domain
        invariant forall p | p in Contents() :: p in old(Contents()) && Contents()[p] == old(Contents())[p]
        invariant forall p | p in old(Contents()) && p.domain != registry[i].domain :: p in Contents()
        invariant leases - multiset(retired) == old(leases) && multiset(retired) <= leases
        decreases registry[i].regions.Keys
      {
        var base :| base in registry[i].regions;
        var r := TakeEntry(i, base);
        assert multiset(retired + [r]) == multiset(retired) + multiset{r};
        retired := retired + [r];
      }
    }

    method ForgetDomain(i: nat)
      requires Valid() && i < |registry| && registry[i].regions == map[]
      modifies `registry
      ensures Valid() && Contents() == old(Contents())
      ensures forall p | p in Contents() :: p.domain != old(registry)[i].domain
    {
      hide Sound, ViewOf;
      DroppingEmptyDomain(registry, i);
      RegionsAreIn(registry, i);
      assert forall p | p in Contents() && p.domain == registry[i].domain ::
        p.base in RegionsIn(Contents(), registry[i].domain);
      registry := registry[..i] + registry[i + 1..];
    }
  }

  lemma TakenThenPut(view: View, p: Place, entry: Entry)
    ensures (view - {p})[p := entry] == view[p := entry]
  {}

  lemma ReturnedAfterTaking(leases: multiset<RegId>, taken: RegId, put: RegId)
    requires put in leases
    ensures leases + multiset{taken} - multiset{put} - multiset{taken} == leases - multiset{put}
  {}

  lemma LookupInNothing(operand: Extent)
    ensures Lookup(map[], operand) == None
  {}

  lemma LookupIsAtNearest(regions: Regions, operand: Extent, nearest: Option<nat>)
    requires nearest.Some? ==> IsNearest(regions, operand.base, nearest.value)
    requires nearest.None? ==> forall b | b in regions :: operand.base < b
    ensures Lookup(regions, operand)
            == if nearest.Some? && operand.end <= regions[nearest.value].end
              then Some(regions[nearest.value].registration) else None
  {}

  lemma LeasedIsOpen(view: View, strong: map<RegId, nat>, leases: multiset<RegId>, pinned: map<RegId, Pinned>,
                     closes: seq<RegId>, next: RegId, r: RegId)
    requires Sound(view, strong, leases, pinned, closes, next) && r in leases
    ensures r in strong
  {}

  lemma CachedIsOpen(view: View, strong: map<RegId, nat>, leases: multiset<RegId>, pinned: map<RegId, Pinned>,
                     closes: seq<RegId>, next: RegId, p: Place)
    requires Sound(view, strong, leases, pinned, closes, next) && p in view
    ensures view[p].registration in strong
  {
    assert Clones(view)[p] == view[p].registration;
  }

  /** A registration is open exactly while somebody holds a clone, and closed exactly once after the last. */
  lemma OpenExactlyWhileHeld(view: View, strong: map<RegId, nat>, leases: multiset<RegId>, pinned: map<RegId, Pinned>,
                             closes: seq<RegId>, next: RegId, r: RegId)
    requires Sound(view, strong, leases, pinned, closes, next) && r < next
    ensures r in closes <==> r !in leases && forall p | p in view :: view[p].registration != r
    ensures multiset(closes)[r] <= 1
  {
    if r in strong {
      if r !in leases {
        assert Holders(Clones(view), r) != {};
        var p :| p in Holders(Clones(view), r);
        assert view[p].registration == r;
      }
    } else {
      forall p | p in view
        ensures view[p].registration != r
      {
        CachedIsOpen(view, strong, leases, pinned, closes, next, p);
      }
    }
    OccursOnce(closes, r);
  }

  lemma {:induction false} OccursOnce(closes: seq<RegId>, r: RegId)
    requires forall i, j | 0 <= i < j < |closes| :: closes[i] != closes[j]
    ensures multiset(closes)[r] <= 1
  {
    if closes != [] {
      var n := |closes| - 1;
      OccursOnce(closes[..n], r);
      assert closes == closes[..n] + [closes[n]];
      if closes[n] == r {
        assert forall i | 0 <= i < n :: closes[..n][i] != r;
      }
    }
  }

  lemma EmptyDomainAddsNothing(registry: seq<DomainRegions>, domain: DomainId)
    requires Distinct(registry) && forall i | 0 <= i < |registry| :: registry[i].domain != domain
    ensures var after := registry + [DomainRegions(domain, map[])]; Distinct(after) && ViewOf(after) == ViewOf(registry)
  {
    var after := registry + [DomainRegions(domain, map[])];
    forall p: Place
      ensures p in ViewOf(after) <==> p in ViewOf(registry)
      ensures p in ViewOf(after) ==> ViewOf(after)[p] == ViewOf(registry)[p]
    {
      if p in ViewOf(after) {
        var i: nat :| IsAt(after, p, i);
        assert IsAt(registry, p, i);
        ViewAt(registry, p, i);
        ViewAt(after, p, i);
      }
      if p in ViewOf(registry) {
        var i: nat :| IsAt(registry, p, i);
        assert IsAt(after, p, i);
      }
    }
  }

  lemma DroppingEmptyDomain(registry: seq<DomainRegions>, i: nat)
    requires Distinct(registry) && i < |registry| && registry[i].regions == map[]
    ensures var after := registry[..i] + registry[i + 1..]; Distinct(after) && ViewOf(after) == ViewOf(registry)
  {
    hide ViewOf;
    var after := registry[..i] + registry[i + 1..];
    forall p: Place
      ensures p in ViewOf(after) <==> p in ViewOf(registry)
      ensures p in ViewOf(after) ==> ViewOf(after)[p] == ViewOf(registry)[p]
    {
      PlaceMovesDown(registry, i, p);
    }
  }

  lemma PlaceMovesDown(registry: seq<DomainRegions>, i: nat, p: Place)
    requires Distinct(registry) && i < |registry| && registry[i].regions == map[]
    requires Distinct(registry[..i] + registry[i + 1..])
    ensures var after := registry[..i] + registry[i + 1..];
            && (p in ViewOf(after) <==> p in ViewOf(registry))
            && (p in ViewOf(after) ==> ViewOf(after)[p] == ViewOf(registry)[p])
  {
    hide ViewOf, PlacesOf, EntryOf;
    var after := registry[..i] + registry[i + 1..];
    InView(registry, p);
    InView(after, p);
    if p in ViewOf(after) {
      var j: nat :| IsAt(after, p, j);
      var k := if j < i then j else j + 1;
      assert IsAt(registry, p, k);
      ViewAt(registry, p, k);
      ViewAt(after, p, j);
    }
    if p in ViewOf(registry) {
      var j: nat :| IsAt(registry, p, j);
      assert IsAt(after, p, if j < i then j else j - 1);
    }
  }

  lemma InView(registry: seq<DomainRegions>, p: Place)
    ensures p in ViewOf(registry) <==> exists i: nat :: IsAt(registry, p, i)
  {}

  lemma FreshIsUnpinned(view: View, strong: map<RegId, nat>, leases: multiset<RegId>, pinned: map<RegId, Pinned>,
                        closes: seq<RegId>, next: RegId)
    requires Sound(view, strong, leases, pinned, closes, next)
    ensures next !in pinned
  {}
}
