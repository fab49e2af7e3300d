/** One endpoint's local operands: a lease on a registration that covers the operand, cached or fresh. */
module LocalRegions {
  import opened Basics
  import opened RegionMaps
  import opened RegionCache

  datatype LocalOperand = Leased(lease: RegId) | Overflows | Unregistered

  datatype Pinning = PinnedAs(registration: RegId) | PinOverflows | NotPinned

  class LocalRegions {
    const domain: DomainId
    const cache: RegionCache

    constructor (domain: DomainId, cache: RegionCache)
      ensures this.domain == domain && this.cache == cache
    {
      this.domain, this.cache := domain, cache;
    }

    /** What was asked of `fi_mr_reg` since, with its answers: the wide extent first, then, if that was refused and is
        another, the operand's own; the last answer is what came of it. */
    ghost predicate Tries(
      before: seq<Asking>, after: seq<Asking>, wide: Extent, operand: Extent, taken: Option<(RegId, Extent)>)
    {
      if taken.Some? && taken.value.1 == wide then after == before + [Asking(domain, wide, Some(taken.value.0))]
      else if taken.Some? then
        && taken.value.1 == operand
        && after == before + [Asking(domain, wide, None), Asking(domain, operand, Some(taken.value.0))]
      else if wide == operand then after == before + [Asking(domain, operand, None)]
      else after == before + [Asking(domain, wide, None), Asking(domain, operand, None)]
    }

    /** A fresh registration: a context that answers for a span has all of it registered, and any other, or one
        whose span is refused, just its operand. */
    method RegisterFor(operand: Extent, span: Option<Extent>) returns (taken: Option<(RegId, Extent)>)
      requires cache.Valid()
      modifies cache
      ensures cache.Valid() && cache.Contents() == old(cache.Contents())
      ensures Tries(old(cache.asked), cache.asked, if span.Some? then span.value else operand, operand, taken)
      ensures taken.None? ==> cache.leases == old(cache.leases)
      ensures taken.Some? ==>
                && taken.value.0 !in old(cache.pinned) && cache.leases == old(cache.leases) + multiset{taken.value.0}
                && cache.pinned == old(cache.pinned)[taken.value.0 := Pinned(domain, taken.value.1)]
                && (taken.value.1 == operand || (span.Some? && taken.value.1 == span.value))
    {
      hide Sound, ViewOf;
      var wanted := if span.Some? then span.value else operand;
      var r := cache.Register(domain, wanted);
      if r.Some? {
        return Some((r.value, wanted));
      }
      if wanted == operand {
        return None;
      }
      r := cache.Register(domain, operand);
      return if r.Some? then Some((r.value, operand)) else None;
    }

    /** The registration an operand posts with. A hit reuses a cached one; a miss takes a fresh one, cached
        only under a span the caller answers for. Either way it covers the operand, on this domain. */
    method Operand(start: nat, length: nat, cacheable: Option<Extent>) returns (outcome: LocalOperand)
      requires cache.Valid()
      modifies cache
      ensures cache.Valid() && (outcome.Overflows? <==> U64 <= start + length)
      ensures !outcome.Leased? ==> cache.Contents() == old(cache.Contents()) && cache.leases == old(cache.leases)
      ensures outcome.Leased? ==>
                && cache.leases == old(cache.leases) + multiset{outcome.lease}
                && outcome.lease in cache.pinned && cache.pinned[outcome.lease].domain == domain
                && Within(Extent(start, start + length), cache.pinned[outcome.lease].extent)
      ensures var hit := Lookup(RegionsIn(old(cache.Contents()), domain), Extent(start, start + length));
              start + length < U64 && hit.Some? ==> outcome == Leased(hit.value) && cache.asked == old(cache.asked)
      ensures var operand := Extent(start, start + length);
              start + length < U64 && Lookup(RegionsIn(old(cache.Contents()), domain), operand).None? ==>
                Tries(old(cache.asked), cache.asked,
                      if cacheable.Some? && cacheable.value.base <= start && start + length <= cacheable.value.end
                      then cacheable.value else operand,
                      operand,
                      if outcome.Leased? then Some((outcome.lease, cache.pinned[outcome.lease].extent)) else None)
      ensures var hit := Lookup(RegionsIn(old(cache.Contents()), domain), Extent(start, start + length));
              outcome.Leased? && hit.Some? ==> outcome.lease == hit.value && cache.Contents() == old(cache.Contents())
      ensures var operand := Extent(start, start + length);
              outcome.Leased? && Lookup(RegionsIn(old(cache.Contents()), domain), operand).None? ==>
                && outcome.lease !in old(cache.pinned)
                && var extent := cache.pinned[outcome.lease].extent;
                   if cacheable.Some? && Within(operand, cacheable.value)
                   then (extent == operand || extent == cacheable.value)
                        && cache.Contents()
                           == old(cache.Contents())[Place(domain, extent.base) := Entry(extent.end, outcome.lease)]
                   else extent == operand && cache.Contents() == old(cache.Contents()) && SoleHolder(outcome.lease)
    {
      hide Sound, ViewOf, Lookup, RegionsIn;
      if U64 <= start + length {
        return Overflows;
      }
      var operand := Extent(start, start + length);
      var found := cache.Covering(operand, domain);
      if found.Some? {
        HitCovers(cache, old(cache.Contents()), domain, operand);
        return Leased(found.value);
      }
      var span := if cacheable.Some? && Within(operand, cacheable.value) then cacheable else None;
      var taken := RegisterFor(operand, span);
      if taken.None? {
        return Unregistered;
      }
      var (lease, extent) := taken.value;
      FreshHasOneHolder(old(cache.Contents()), old(cache.strong), old(cache.leases), old(cache.pinned),
                        old(cache.closes), old(cache.next), lease);
      if span.Some? {
        cache.Track(extent.base, extent.end, domain, lease);
      }
      return Leased(lease);
    }

    /** Nobody but one caller holds this registration: dropping that clone closes it. */
    ghost predicate SoleHolder(r: RegId)
      reads cache
    {
      cache.leases[r] == 1 && forall p | p in cache.Contents() :: cache.Contents()[p].registration != r
    }

    /** A span registered ahead of its operands, held by the registry alone. */
    method Pin(base: nat, length: nat) returns (outcome: Pinning)
      requires cache.Valid()
      modifies cache
      ensures cache.Valid() && (outcome.PinOverflows? <==> U64 <= base + length) && cache.leases == old(cache.leases)
      ensures !outcome.PinnedAs? ==> cache.Contents() == old(cache.Contents())
      ensures base + length < U64 ==>
                cache.asked == old(cache.asked) + [
                  Asking(domain, Extent(base, base + length),
                         if outcome.PinnedAs? then Some(outcome.registration) else None)]
      ensures outcome.PinnedAs? ==>
                && outcome.registration !in old(cache.pinned)
                && cache.Contents()
                   == old(cache.Contents())[Place(domain, base) := Entry(base + length, outcome.registration)]
    {
      hide Sound, ViewOf;
      if U64 <= base + length {
        return PinOverflows;
      }
      var r := cache.Register(domain, Extent(base, base + length));
      if r.None? {
        return NotPinned;
      }
      cache.Track(base, base + length, domain, r.value);
      cache.Drop(r.value);
      return PinnedAs(r.value);
    }

    /** The endpoint is going: nothing of its domain stays cached. */
    method Clear()
      requires cache.Valid()
      modifies cache
      ensures cache.Valid() && cache.Contents() == Elsewhere(old(cache.Contents()), domain)
              && cache.leases == old(cache.leases)
    {
      cache.ClearDomain(domain);
    }
  }

  lemma HitCovers(cache: RegionCache, view: View, domain: DomainId, operand: Extent)
    requires cache.Valid() && cache.Contents() == view && Lookup(RegionsIn(view, domain), operand).Some?
    ensures var r := Lookup(RegionsIn(view, domain), operand).value;
            r in cache.pinned && cache.pinned[r].domain == domain && Within(operand, cache.pinned[r].extent)
  {
    hide ViewOf, Lookup, RegionsIn, Counted, ClosedOnce, Clones;
    LookupIsSound(RegionsIn(view, domain), operand);
    var regions := RegionsIn(view, domain);
    var b :| b in regions && Within(operand, Extent(b, regions[b].end))
      && regions[b].registration == Lookup(regions, operand).value;
    assert Place(domain, b) in view;
  }

  lemma FreshHasOneHolder(view: View, strong: map<RegId, nat>, leases: multiset<RegId>, pinned: map<RegId, Pinned>,
                          closes: seq<RegId>, next: RegId, r: RegId)
    requires Sound(view, strong, leases, pinned, closes, next) && r !in pinned
    ensures r !in leases && forall p | p in view :: view[p].registration != r
  {}
}
