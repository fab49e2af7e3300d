/** The cached extents of one domain, keyed by base, and what looking one up or retiring a range means. */
module RegionMaps {
  import opened Basics

  type RegId = nat

  datatype Extent = Extent(base: nat, end: nat)

  datatype Entry = Entry(end: nat, registration: RegId)

  type Regions = map<nat, Entry>

  predicate Holds(e: Extent, address: nat) {
    e.base <= address < e.end
  }

  predicate Within(inner: Extent, outer: Extent) {
    outer.base <= inner.base && inner.end <= outer.end
  }

  /** The two share an address, or one is empty and strictly inside the other. */
  predicate Overlaps(a: Extent, b: Extent) {
    a.base < b.end && b.base < a.end
  }

  /** The greatest tracked base at or below `start`. */
  ghost predicate IsNearest(regions: Regions, start: nat, base: nat) {
    base in regions && base <= start && forall b | b in regions && b <= start :: b <= base
  }

  /** A linear scan: some tracked extent contains the operand. */
  ghost predicate Covered(regions: Regions, operand: Extent) {
    exists b :: b in regions && Within(operand, Extent(b, regions[b].end))
  }

  /** What the lookup answers: it inspects only the nearest base. */
  ghost function Lookup(regions: Regions, operand: Extent): Option<RegId> {
    if exists b :: IsNearest(regions, operand.base, b) && operand.end <= regions[b].end then
      var b :| IsNearest(regions, operand.base, b) && operand.end <= regions[b].end;
      Some(regions[b].registration)
    else None
  }

  /** The extents an invalidation over `range` leaves. */
  function Surviving(regions: Regions, range: Extent): Regions {
    map b | b in regions && !(b < range.end && range.base < regions[b].end) :: regions[b]
  }

  ghost predicate NoNesting(regions: Regions) {
    forall b, c | b in regions && c in regions && b < c :: regions[b].end <= regions[c].end
  }

  ghost predicate Proper(regions: Regions) {
    forall b | b in regions :: b <= regions[b].end
  }

  // ----- Lookup against the scan -----

  /** A hit is always an extent that contains the operand. */
  lemma LookupIsSound(regions: Regions, operand: Extent)
    requires Lookup(regions, operand).Some?
    ensures exists b :: b in regions && Within(operand, Extent(b, regions[b].end))
                        && regions[b].registration == Lookup(regions, operand).value
  {
    var b :| IsNearest(regions, operand.base, b) && operand.end <= regions[b].end
             && Some(regions[b].registration) == Lookup(regions, operand);
    assert Within(operand, Extent(b, regions[b].end));
  }

  lemma {:induction false} NearestExists(regions: Regions, start: nat, below: set<nat>) returns (base: nat)
    requires below <= regions.Keys && below != {} && forall b | b in below :: b <= start
    requires forall b | b in regions && b <= start :: b in below
    ensures IsNearest(regions, start, base)
  {
    base := Greatest(below);
  }

  lemma {:induction false} Greatest(s: set<nat>) returns (m: nat)
    requires s != {}
    ensures m in s && forall x | x in s :: x <= m
    decreases |s|
  {
    var x :| x in s;
    if s == {x} {
      m := x;
    } else {
      var rest := s - {x};
      assert s == rest + {x};
      var n := Greatest(rest);
      m := if n < x then x else n;
    }
  }

  /** Where no extent is strictly nested in another, the lookup finds what a scan would. */
  lemma UnnestedLookupIsComplete(regions: Regions, operand: Extent)
    requires NoNesting(regions) && Covered(regions, operand)
    ensures Lookup(regions, operand).Some?
  {
    var c :| c in regions && Within(operand, Extent(c, regions[c].end));
    var below := set b | b in regions && b <= operand.base;
    assert c in below;
    var b := NearestExists(regions, operand.base, below);
  }

  /** A nested extent hides the wider one from an operand that starts at it and runs past it. */
  lemma NestingHides(regions: Regions, outer: nat, inner: nat)
    requires outer in regions && inner in regions && outer < inner && regions[inner].end < regions[outer].end
    ensures var operand := Extent(inner, regions[outer].end);
            Covered(regions, operand) && Lookup(regions, operand).None?
  {
    var operand := Extent(inner, regions[outer].end);
    assert Within(operand, Extent(outer, regions[outer].end));
    assert forall b | IsNearest(regions, inner, b) :: b == inner;
  }

  /** The lookup finds everything a scan would exactly when no tracked extent is strictly nested in another. */
  lemma LookupIsCompleteExactlyWhen(regions: Regions)
    requires Proper(regions)
    ensures (forall operand: Extent ::
            operand.base <= operand.end && Covered(regions, operand) ==> Lookup(regions, operand).Some?)
            <==> NoNesting(regions)
  {
    if NoNesting(regions) {
      forall operand: Extent | Covered(regions, operand)
        ensures Lookup(regions, operand).Some?
      {
        UnnestedLookupIsComplete(regions, operand);
      }
    } else {
      var b, c :| b in regions && c in regions && b < c && regions[c].end < regions[b].end;
      NestingHides(regions, b, c);
      var operand := Extent(c, regions[b].end);
      assert operand.base <= operand.end && Covered(regions, operand) && Lookup(regions, operand).None?;
    }
  }

  // ----- Retiring -----

  /** An invalidation takes exactly the extents overlapping its range and leaves the rest as they were, so
      none of its addresses is covered afterwards. */
  lemma InvalidationIsExact(regions: Regions, range: Extent)
    ensures var left := Surviving(regions, range);
            && (forall b :: b in left <==> b in regions && !Overlaps(range, Extent(b, regions[b].end)))
            && (forall b | b in left :: left[b] == regions[b])
    ensures forall operand: Extent | Overlaps(operand, range) && operand.base < operand.end && range.base < range.end ::
              Lookup(Surviving(regions, range), operand).None?
  {
    var left := Surviving(regions, range);
    forall operand: Extent | Overlaps(operand, range) && operand.base < operand.end && range.base < range.end
      ensures Lookup(left, operand).None?
    {
      forall b | b in left
        ensures !Within(operand, Extent(b, left[b].end))
      {}
    }
  }
}
