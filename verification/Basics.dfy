/** Vocabulary shared by every module: optional values, wire-level identifiers, and the counting
    lemmas behind every reference count in the model. */
module Basics {

  datatype Option<+T> = None | Some(value: T)

  newtype byte = x: int | 0 <= x < 256

  /** The bytes of a fabric address, or the part of them that names an endpoint slot. */
  datatype Address = Address(bytes: seq<byte>)

  type Client = nat
  type Handle = nat

  const U64: nat := 0x1_0000_0000_0000_0000

  function Max(a: nat, b: nat): nat {
    if a < b then b else a
  }

  /** The keys of `m` that hold `v`: the owners of one reference-counted value. */
  ghost function Holders<K, V>(m: map<K, V>, v: V): set<K> {
    set k | k in m && m[k] == v
  }

  lemma HoldersAfterInsert<K, V>(m: map<K, V>, k: K, v: V, w: V)
    ensures Holders(m[k := v], w) ==
            if w == v then Holders(m, w) + {k} else Holders(m, w) - {k}
  {}

  lemma HoldersAfterRemove<K, V>(m: map<K, V>, k: K, w: V)
    ensures Holders(m - {k}, w) == Holders(m, w) - {k}
  {}

  /** `counts` is exactly the number of holders of each value, plus the loose clones in `extra`, and a
      value is counted only while somebody holds it. */
  ghost predicate Counted<K, V>(m: map<K, V>, counts: map<V, nat>, extra: multiset<V>) {
    && (forall k | k in m :: m[k] in counts)
    && (forall v | v in extra :: v in counts)
    && (forall v | v in counts :: counts[v] == |Holders(m, v)| + extra[v] && 0 < counts[v])
  }

  /** Dropping one of a map's clones, as assignment or removal does: the clone becomes loose. */
  lemma CountedAfterRemove<K, V>(m: map<K, V>, counts: map<V, nat>, extra: multiset<V>, k: K)
    requires k in m && Counted(m, counts, extra)
    ensures m[k] in counts
    ensures Counted(m - {k}, counts, extra + multiset{m[k]})
  {
    forall v | v in counts
      ensures counts[v] == |Holders(m - {k}, v)| + (extra + multiset{m[k]})[v]
    {
      HoldersAfterRemove(m, k, v);
    }
  }

  lemma CountedAfterClone<K, V>(m: map<K, V>, counts: map<V, nat>, extra: multiset<V>, v: V)
    requires v in counts && Counted(m, counts, extra)
    ensures Counted(m, counts[v := counts[v] + 1], extra + multiset{v})
  {}

  /** Dropping a loose clone: the value goes with its last one. */
  lemma CountedAfterDrop<K, V>(m: map<K, V>, counts: map<V, nat>, extra: multiset<V>, v: V)
    requires v in extra && Counted(m, counts, extra)
    ensures v in counts && 0 < counts[v]
    ensures 1 < counts[v] ==> Counted(m, counts[v := counts[v] - 1], extra - multiset{v})
    ensures counts[v] == 1 ==> (forall k | k in m :: m[k] != v) && Counted(m, counts - {v}, extra - multiset{v})
  {
    if counts[v] == 1 {
      assert Holders(m, v) == {};
      forall k | k in m
        ensures m[k] != v
      {
        assert k !in Holders(m, v);
      }
    }
  }

  /** Moving a loose clone into a map slot nobody occupies. */
  lemma CountedAfterInsert<K, V>(m: map<K, V>, counts: map<V, nat>, extra: multiset<V>, k: K, v: V)
    requires k !in m && v in extra && Counted(m, counts, extra)
    ensures Counted(m[k := v], counts, extra - multiset{v})
  {
    forall w | w in counts
      ensures counts[w] == |Holders(m[k := v], w)| + (extra - multiset{v})[w]
    {
      HoldersAfterInsert(m, k, v, w);
    }
  }
}
