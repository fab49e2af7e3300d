/** The structures behind an address table as one value, the invariant tying them together, and how
    each elementary change keeps it. */
module AddressBooks {
  import opened Basics
  import opened AddressTable

  const MINIMUM_SWEEP: nat := 64

  type EntryId = nat

  /** What the index knows of a slot: the bytes last inserted for it and a weak reference. */
  datatype Known = Known(bytes: Address, entry: EntryId)

  /** `strong` and `peer` hold the entries still alive; `owner` names the entry each handle was last
      inserted for. The last four count successful inserts, index entries visited by sweeps, the index
      size the last sweep left, and the most clients ever held. */
  datatype Books = Books(
    byAddress: map<Address, Known>,
    byClient: map<Client, EntryId>,
    strong: map<EntryId, nat>,
    peer: map<EntryId, Handle>,
    owner: map<Handle, EntryId>,
    vector: map<Handle, Address>,
    nextEntry: EntryId,
    sweepAt: nat,
    inserts: nat, visited: nat, base: nat, peak: nat)

  const EMPTY: Books := Books(map[], map[], map[], map[], map[], map[], 0, MINIMUM_SWEEP, 0, 0, 0, 0)

  /** Live entries and the vector are in bijection. */
  ghost predicate Mirrored(
    peer: map<EntryId, Handle>, owner: map<Handle, EntryId>, vector: map<Handle, Address>, nextEntry: EntryId)
  {
    && (forall e | e in peer :: e < nextEntry && peer[e] in vector && peer[e] in owner && owner[peer[e]] == e)
    && (forall h | h in vector :: h in owner && owner[h] in peer && peer[owner[h]] == h)
  }

  /** Every live entry but those in `unindexed` is found under its slot, with its own bytes. */
  ghost predicate Indexed(format: AddressFormat, byAddress: map<Address, Known>, peer: map<EntryId, Handle>,
                          vector: map<Handle, Address>, nextEntry: EntryId, unindexed: set<EntryId>)
    requires forall e | e in peer :: peer[e] in vector
  {
    && (forall e | e in peer :: Usable(format, vector[peer[e]]))
    && (forall e | e in peer && e !in unindexed ::
          Slot(format, vector[peer[e]]) in byAddress
            && byAddress[Slot(format, vector[peer[e]])] == Known(vector[peer[e]], e))
    && (forall s | s in byAddress :: byAddress[s].entry < nextEntry && byAddress[s].entry !in unindexed)
    && (forall s | s in byAddress && byAddress[s].entry in peer ::
          vector[peer[byAddress[s].entry]] == byAddress[s].bytes && Slot(format, byAddress[s].bytes) == s)
  }

  /** The sweep budget: the index stays within the peak population, and sweeps are paid by inserts. */
  ghost predicate Amortised(b: Books) {
    && b.sweepAt == Max(MINIMUM_SWEEP, 2 * b.base)
    && b.base <= b.peak
    && |b.byClient| <= b.peak
    && |b.byAddress| <= b.sweepAt
    && b.visited <= 2 * b.inserts
    && b.visited + 2 * |b.byAddress| <= 2 * b.inserts + 2 * b.base
  }

  /** `extra` holds the loose clones and `unindexed` an entry not yet in the index. */
  ghost predicate Consistent(format: AddressFormat, b: Books, extra: multiset<EntryId>, unindexed: set<EntryId>) {
    && Counted(b.byClient, b.strong, extra)
    && b.peer.Keys == b.strong.Keys
    && Mirrored(b.peer, b.owner, b.vector, b.nextEntry)
    && Indexed(format, b.byAddress, b.peer, b.vector, b.nextEntry, unindexed)
    && Amortised(b)
  }

  /** The table the structures implement. */
  ghost function View(b: Books): Table {
    map c | c in b.byClient && b.byClient[c] in b.peer && b.peer[b.byClient[c]] in b.vector ::
      Binding(b.peer[b.byClient[c]], b.vector[b.peer[b.byClient[c]]])
  }

  lemma EmptyIsConsistent(format: AddressFormat)
    ensures Consistent(format, EMPTY, multiset{}, {}) && View(EMPTY) == map[]
  {}

  lemma ViewCoversClients(format: AddressFormat, b: Books, extra: multiset<EntryId>, unindexed: set<EntryId>)
    requires Consistent(format, b, extra, unindexed)
    ensures View(b).Keys == b.byClient.Keys
  {}

  ghost function Clone(b: Books, e: EntryId): Books
    requires e in b.strong
  {
    b.(strong := b.strong[e := b.strong[e] + 1])
  }

  /** One clone of `e` dropped: the last one takes the entry out of the vector. */
  ghost function Drop(b: Books, e: EntryId): Books
    requires e in b.strong && 0 < b.strong[e] && e in b.peer
  {
    if b.strong[e] == 1
    then b.(strong := b.strong - {e}, peer := b.peer - {e}, vector := b.vector - {b.peer[e]})
    else b.(strong := b.strong[e := b.strong[e] - 1])
  }

  ghost function Registered(b: Books, handle: Handle, bytes: Address): Books {
    b.(strong := b.strong[b.nextEntry := 1], peer := b.peer[b.nextEntry := handle],
       owner := b.owner[handle := b.nextEntry], vector := b.vector[handle := bytes],
       nextEntry := b.nextEntry + 1, inserts := b.inserts + 1)
  }

  /** The part of that which follows the vector's answer. */
  ghost function Entered(b: Books, handle: Handle): Books {
    b.(strong := b.strong[b.nextEntry := 1], peer := b.peer[b.nextEntry := handle],
       owner := b.owner[handle := b.nextEntry], nextEntry := b.nextEntry + 1, inserts := b.inserts + 1)
  }

  lemma RegisteredInSteps(b: Books, answered: Books, handle: Handle, bytes: Address)
    requires answered == b.(vector := b.vector[handle := bytes])
    ensures Entered(answered, handle) == Registered(b, handle, bytes)
  {}

  lemma EnteredHolds(b: Books, handle: Handle)
    ensures var t := Entered(b, handle); var e := b.nextEntry;
            e in t.peer && t.peer[e] == handle && t.vector == b.vector && t.inserts == b.inserts + 1
            && t.visited == b.visited && t.byAddress == b.byAddress && t.base == b.base
  {}

  function Living(byAddress: map<Address, Known>, strong: map<EntryId, nat>): map<Address, Known> {
    map s | s in byAddress && byAddress[s].entry in strong :: byAddress[s]
  }

  ghost function Swept(b: Books): Books {
    if |b.byAddress| < b.sweepAt then b
    else
      var living := Living(b.byAddress, b.strong);
      b.(byAddress := living, sweepAt := Max(MINIMUM_SWEEP, |living| * 2),
         visited := b.visited + |b.byAddress|, base := |living|)
  }

  /** No other live entry has this one's slot. */
  ghost predicate SoleInSlot(format: AddressFormat, b: Books, e: EntryId) {
    && e in b.peer && b.peer[e] in b.vector && Usable(format, b.vector[b.peer[e]])
    && forall f | f in b.peer && f != e ::
         && b.peer[f] in b.vector && Usable(format, b.vector[b.peer[f]])
         && Slot(format, b.vector[b.peer[f]]) != Slot(format, b.vector[b.peer[e]])
  }

  lemma CloneKeeps(format: AddressFormat, b: Books, e: EntryId, extra: multiset<EntryId>, unindexed: set<EntryId>)
    requires e in b.strong && Consistent(format, b, extra, unindexed)
    ensures Consistent(format, Clone(b, e), extra + multiset{e}, unindexed)
    ensures View(Clone(b, e)) == View(b)
  {
    hide Counted, Mirrored, Indexed, View;
    SameView(b, Clone(b, e));
    CountedAfterClone(b.byClient, b.strong, extra, e);
    assert Clone(b, e).strong.Keys == b.strong.Keys;
  }

  lemma {:induction false} DropKeeps(
    format: AddressFormat, b: Books, e: EntryId, extra: multiset<EntryId>, unindexed: set<EntryId>)
    requires e in extra && Consistent(format, b, extra, unindexed)
    ensures e in b.strong && 0 < b.strong[e] && e in b.peer && b.peer[e] in b.vector
    ensures Consistent(format, Drop(b, e), extra - multiset{e}, unindexed)
    ensures View(Drop(b, e)) == View(b)
  {
    hide Counted, Mirrored, Indexed, View;
    CountedAfterDrop(b.byClient, b.strong, extra, e);
    LiveHasHandle(b, e);
    if b.strong[e] == 1 {
      DropLastKeeps(format, b, e, extra, unindexed);
      DropLastKeepsView(format, b, e, extra, unindexed);
    } else {
      assert Drop(b, e).strong.Keys == b.strong.Keys;
      SameView(b, Drop(b, e));
    }
  }

  lemma DropLastKeeps(format: AddressFormat, b: Books, e: EntryId, extra: multiset<EntryId>, unindexed: set<EntryId>)
    requires e in extra && Consistent(format, b, extra, unindexed)
    requires e in b.strong && e in b.peer && b.strong[e] == 1
    ensures Consistent(format, Drop(b, e), extra - multiset{e}, unindexed)
  {
    hide Counted, Mirrored, Indexed, View, Drop;
    DropsLast(b, e);
    CountedAfterDrop(b.byClient, b.strong, extra, e);
    MirroredAfterDrop(b, e);
    IndexedAfterDrop(format, b, e, unindexed);
  }

  lemma DropsLast(b: Books, e: EntryId)
    requires e in b.strong && e in b.peer && b.strong[e] == 1
    ensures Drop(b, e) == b.(strong := b.strong - {e}, peer := b.peer - {e}, vector := b.vector - {b.peer[e]})
    ensures b.peer.Keys == b.strong.Keys ==> Drop(b, e).peer.Keys == Drop(b, e).strong.Keys
  {}

  lemma DropLastKeepsView(
    format: AddressFormat, b: Books, e: EntryId, extra: multiset<EntryId>, unindexed: set<EntryId>)
    requires e in extra && Consistent(format, b, extra, unindexed)
    requires e in b.strong && e in b.peer && b.strong[e] == 1
    ensures View(Drop(b, e)) == View(b)
  {
    hide Mirrored, Indexed, View, Amortised;
    CountedAfterDrop(b.byClient, b.strong, extra, e);
    ViewAfterDrop(b, e);
    SameView(b.(peer := b.peer - {e}, vector := b.vector - {b.peer[e]}), Drop(b, e));
  }

  lemma LiveHasHandle(b: Books, e: EntryId)
    requires e in b.peer && Mirrored(b.peer, b.owner, b.vector, b.nextEntry)
    ensures b.peer[e] in b.vector
  {}

  lemma SameView(b: Books, after: Books)
    requires b.byClient == after.byClient && b.peer == after.peer && b.vector == after.vector
    ensures View(after) == View(b)
  {}

  lemma MirroredAfterDrop(b: Books, e: EntryId)
    requires e in b.peer && Mirrored(b.peer, b.owner, b.vector, b.nextEntry)
    ensures Mirrored(b.peer - {e}, b.owner, b.vector - {b.peer[e]}, b.nextEntry)
  {}

  lemma IndexedAfterDrop(format: AddressFormat, b: Books, e: EntryId, unindexed: set<EntryId>)
    requires e in b.peer && Mirrored(b.peer, b.owner, b.vector, b.nextEntry)
    requires Mirrored(b.peer - {e}, b.owner, b.vector - {b.peer[e]}, b.nextEntry)
    requires Indexed(format, b.byAddress, b.peer, b.vector, b.nextEntry, unindexed)
    ensures Indexed(format, b.byAddress, b.peer - {e}, b.vector - {b.peer[e]}, b.nextEntry, unindexed)
  {}

  lemma ViewAfterDrop(b: Books, e: EntryId)
    requires e in b.peer && Mirrored(b.peer, b.owner, b.vector, b.nextEntry)
    requires forall c | c in b.byClient :: b.byClient[c] != e
    ensures View(b.(peer := b.peer - {e}, vector := b.vector - {b.peer[e]})) == View(b)
  {
    var before, after := View(b), View(b.(peer := b.peer - {e}, vector := b.vector - {b.peer[e]}));
    assert forall c | c in before :: c in after && after[c] == before[c];
    assert forall c | c in after :: c in before;
  }

  /** A client's slot in the owning map reassigned: its old clone becomes loose, the new one is spent. */
  lemma {:induction false} UnbindKeeps(
    format: AddressFormat, b: Books, c: Client, extra: multiset<EntryId>, unindexed: set<EntryId>)
    requires c in b.byClient && Consistent(format, b, extra, unindexed)
    ensures Consistent(format, b.(byClient := b.byClient - {c}), extra + multiset{b.byClient[c]}, unindexed)
    ensures View(b.(byClient := b.byClient - {c})) == View(b) - {c}
  {
    hide Counted, Mirrored, Indexed, View;
    CountedAfterRemove(b.byClient, b.strong, extra, c);
    FewerKeys(b.byClient - {c}, b.byClient);
    UnbindView(b, c);
  }

  lemma UnbindView(b: Books, c: Client)
    ensures View(b.(byClient := b.byClient - {c})) == View(b) - {c}
  {}

  lemma {:induction false} BindKeeps(
    format: AddressFormat, b: Books, c: Client, e: EntryId, extra: multiset<EntryId>, unindexed: set<EntryId>)
    requires c !in b.byClient && e in extra && Consistent(format, b, extra, unindexed)
    ensures e in b.peer && b.peer[e] in b.vector
    ensures var bound := b.(byClient := b.byClient[c := e], peak := Max(b.peak, |b.byClient[c := e]|));
            && Consistent(format, bound, extra - multiset{e}, unindexed)
            && View(bound) == View(b)[c := Binding(b.peer[e], b.vector[b.peer[e]])]
  {
    hide Counted, Mirrored, Indexed, View;
    BindView(format, b, c, e, extra, unindexed);
    SameView(b.(byClient := b.byClient[c := e]),
             b.(byClient := b.byClient[c := e], peak := Max(b.peak, |b.byClient[c := e]|)));
    CountedAfterInsert(b.byClient, b.strong, extra, c, e);
  }

  /** The new clone is stored before the old one is dropped. */
  lemma RebindKeeps(format: AddressFormat, b: Books, c: Client, e: EntryId, extra: multiset<EntryId>)
    requires c in b.byClient && e in extra && Consistent(format, b, extra, {})
    ensures e in b.peer && b.peer[e] in b.vector
    ensures var bound := b.(byClient := b.byClient[c := e], peak := Max(b.peak, |b.byClient[c := e]|));
            && Consistent(format, bound, extra - multiset{e} + multiset{b.byClient[c]}, {})
            && View(bound) == View(b)[c := Binding(b.peer[e], b.vector[b.peer[e]])]
  {
    hide Consistent, View;
    var previous := b.byClient[c];
    var unbound := b.(byClient := b.byClient - {c});
    UnbindKeeps(format, b, c, extra, {});
    BindKeeps(format, unbound, c, e, extra + multiset{previous}, {});
    Rebound(b.byClient, c, e);
    Rebound(View(b), c, Binding(b.peer[e], b.vector[b.peer[e]]));
    Exchanged(extra, e, previous);
  }

  lemma Rebound<K, V>(m: map<K, V>, k: K, v: V)
    ensures (m - {k})[k := v] == m[k := v]
  {}

  lemma Exchanged<T>(m: multiset<T>, a: T, b: T)
    requires a in m
    ensures m + multiset{b} - multiset{a} == m - multiset{a} + multiset{b}
  {}

  lemma BindView(
    format: AddressFormat, b: Books, c: Client, e: EntryId, extra: multiset<EntryId>, unindexed: set<EntryId>)
    requires c !in b.byClient && e in extra && Consistent(format, b, extra, unindexed)
    ensures e in b.peer && b.peer[e] in b.vector
    ensures View(b.(byClient := b.byClient[c := e])) == View(b)[c := Binding(b.peer[e], b.vector[b.peer[e]])]
  {}

  /** Forgetting an index key whose entry is dead. */
  lemma ForgetKeeps(format: AddressFormat, b: Books, slot: Address, extra: multiset<EntryId>, unindexed: set<EntryId>)
    requires Consistent(format, b, extra, unindexed)
    requires slot in b.byAddress ==> b.byAddress[slot].entry !in b.peer
    ensures Consistent(format, b.(byAddress := b.byAddress - {slot}), extra, unindexed)
    ensures View(b.(byAddress := b.byAddress - {slot})) == View(b)
  {
    hide Counted, Mirrored, View;
    FewerKeys(b.byAddress - {slot}, b.byAddress);
    SameView(b, b.(byAddress := b.byAddress - {slot}));
    ForgetIndexes(format, b, slot, unindexed);
    hide Indexed;
  }

  lemma ForgetIndexes(format: AddressFormat, b: Books, slot: Address, unindexed: set<EntryId>)
    requires Mirrored(b.peer, b.owner, b.vector, b.nextEntry)
    requires Indexed(format, b.byAddress, b.peer, b.vector, b.nextEntry, unindexed)
    requires slot in b.byAddress ==> b.byAddress[slot].entry !in b.peer
    ensures Indexed(format, b.byAddress - {slot}, b.peer, b.vector, b.nextEntry, unindexed)
  {}

  /** A slot the index no longer names has no address in the vector. */
  lemma UnnamedSlotIsFree(format: AddressFormat, b: Books, slot: Address)
    requires Consistent(format, b, multiset{}, {}) && slot !in b.byAddress
    ensures forall h | h in b.vector :: Usable(format, b.vector[h]) && Slot(format, b.vector[h]) != slot
  {}

  lemma FewerKeys<K, V>(a: map<K, V>, b: map<K, V>)
    requires a.Keys <= b.Keys
    ensures |a| <= |b|
  {
    assert b.Keys == a.Keys + (b.Keys - a.Keys);
    assert |a| == |a.Keys| && |b| == |b.Keys|;
  }

  /** A new insert: alive, loose, and not yet indexed. */
  lemma {:induction false} RegisterKeeps(format: AddressFormat, b: Books, handle: Handle, bytes: Address)
    requires Consistent(format, b, multiset{}, {}) && Usable(format, bytes) && handle !in b.vector
    ensures Consistent(format, Registered(b, handle, bytes), multiset{b.nextEntry}, {b.nextEntry})
    ensures View(Registered(b, handle, bytes)) == View(b)
  {
    var after := Registered(b, handle, bytes);
    hide Counted, Mirrored, Indexed, View;
    RegisterIsNew(b, handle);
    RegisterView(b, handle, bytes);
    RegisterCounts(b);
    RegisterMirrors(b, handle, bytes);
    RegisterIndexes(format, b, handle, bytes);
    assert after.peer.Keys == after.strong.Keys;
  }

  lemma RegisterIsNew(b: Books, handle: Handle)
    requires Counted(b.byClient, b.strong, multiset{}) && b.peer.Keys == b.strong.Keys
    requires Mirrored(b.peer, b.owner, b.vector, b.nextEntry) && handle !in b.vector
    ensures forall c | c in b.byClient ::
              b.byClient[c] in b.peer && b.byClient[c] != b.nextEntry && b.peer[b.byClient[c]] in b.vector
                && b.peer[b.byClient[c]] != handle
  {}

  lemma RegisterView(b: Books, handle: Handle, bytes: Address)
    requires forall c | c in b.byClient ::
               b.byClient[c] in b.peer && b.byClient[c] != b.nextEntry && b.peer[b.byClient[c]] in b.vector
                 && b.peer[b.byClient[c]] != handle
    ensures View(Registered(b, handle, bytes)) == View(b)
  {
    var before, r := View(b), Registered(b, handle, bytes);
    var after := View(r);
    forall c | c in b.byClient
      ensures c in after && c in before && after[c] == before[c]
    {
      assert r.peer[b.byClient[c]] == b.peer[b.byClient[c]];
      assert r.vector[b.peer[b.byClient[c]]] == b.vector[b.peer[b.byClient[c]]];
    }
    assert before.Keys == b.byClient.Keys;
    assert after.Keys == b.byClient.Keys;
  }

  lemma RegisterIsSole(format: AddressFormat, b: Books, handle: Handle, bytes: Address)
    requires Consistent(format, b, multiset{}, {}) && handle !in b.vector && Usable(format, bytes)
    requires forall h | h in b.vector :: Usable(format, b.vector[h]) && Slot(format, b.vector[h]) != Slot(format, bytes)
    ensures SoleInSlot(format, Registered(b, handle, bytes), b.nextEntry)
  {}

  lemma RegisterCounts(b: Books)
    requires Counted(b.byClient, b.strong, multiset{})
    requires b.peer.Keys == b.strong.Keys && Mirrored(b.peer, b.owner, b.vector, b.nextEntry)
    ensures Counted(b.byClient, b.strong[b.nextEntry := 1], multiset{b.nextEntry})
  {
    assert b.nextEntry !in b.strong;
    assert Holders(b.byClient, b.nextEntry) == {};
  }

  lemma RegisterMirrors(b: Books, handle: Handle, bytes: Address)
    requires Mirrored(b.peer, b.owner, b.vector, b.nextEntry) && handle !in b.vector
    ensures Mirrored(b.peer[b.nextEntry := handle], b.owner[handle := b.nextEntry], b.vector[handle := bytes],
                     b.nextEntry + 1)
  {
    assert b.nextEntry !in b.peer;
  }

  lemma RegisterIndexes(format: AddressFormat, b: Books, handle: Handle, bytes: Address)
    requires Mirrored(b.peer, b.owner, b.vector, b.nextEntry) && handle !in b.vector && Usable(format, bytes)
    requires Indexed(format, b.byAddress, b.peer, b.vector, b.nextEntry, {})
    ensures Mirrored(b.peer[b.nextEntry := handle], b.owner[handle := b.nextEntry], b.vector[handle := bytes],
                     b.nextEntry + 1)
    ensures Indexed(format, b.byAddress, b.peer[b.nextEntry := handle], b.vector[handle := bytes], b.nextEntry + 1,
                    {b.nextEntry})
  {
    RegisterMirrors(b, handle, bytes);
  }

  /** A sweep forgets only dead keys, and leaves room below the next threshold. */
  lemma {:induction false} SweepKeeps(format: AddressFormat, b: Books, newest: EntryId)
    requires Consistent(format, b, multiset{newest}, {newest})
    requires 2 <= 2 * b.inserts - b.visited - 2 * |b.byAddress| + 2 * b.base
    ensures Consistent(format, Swept(b), multiset{newest}, {newest})
    ensures View(Swept(b)) == View(b)
    ensures |Swept(b).byAddress| < Swept(b).sweepAt
    ensures Swept(b).visited + 2 * |Swept(b).byAddress| + 2 <= 2 * b.inserts + 2 * Swept(b).base
    ensures Swept(b).byAddress.Keys <= b.byAddress.Keys
  {
    if b.sweepAt <= |b.byAddress| {
      var living := Living(b.byAddress, b.strong);
      hide Counted, Mirrored, Indexed, View;
      LivingAreHeld(format, b, newest);
      FewerKeys(living, b.byAddress);
      LivingStayIndexed(format, b, newest);
      SameView(b, Swept(b));
    }
  }

  lemma LivingStayIndexed(format: AddressFormat, b: Books, newest: EntryId)
    requires Consistent(format, b, multiset{newest}, {newest})
    ensures Indexed(format, Living(b.byAddress, b.strong), b.peer, b.vector, b.nextEntry, {newest})
  {}

  /** Every key a sweep keeps stands for a distinct entry some client holds. */
  lemma {:induction false} LivingAreHeld(format: AddressFormat, b: Books, newest: EntryId)
    requires Consistent(format, b, multiset{newest}, {newest})
    ensures |Living(b.byAddress, b.strong)| <= |b.byClient|
  {
    hide Consistent, Living;
    var living := Living(b.byAddress, b.strong);
    var entryOf := map s | s in living :: living[s].entry;
    forall s | s in living
      ensures entryOf[s] in b.byClient.Values
    {
      LivingHasHolder(format, b, newest, s);
    }
    LivingAreDistinct(format, b, newest);
    FewerHeldThanHolders(living.Keys, entryOf, b.byClient);
    assert |living| == |living.Keys|;
  }

  lemma LivingHasHolder(format: AddressFormat, b: Books, newest: EntryId, s: Address)
    requires Consistent(format, b, multiset{newest}, {newest}) && s in Living(b.byAddress, b.strong)
    ensures Living(b.byAddress, b.strong)[s].entry in b.byClient.Values
  {
    var e := Living(b.byAddress, b.strong)[s].entry;
    assert e != newest && b.strong[e] == |Holders(b.byClient, e)|;
    assert Holders(b.byClient, e) != {};
    var c :| c in Holders(b.byClient, e);
    assert b.byClient[c] == e;
  }

  lemma LivingAreDistinct(format: AddressFormat, b: Books, newest: EntryId)
    requires Consistent(format, b, multiset{newest}, {newest})
    ensures var living := Living(b.byAddress, b.strong);
            forall s, t | s in living && t in living && living[s].entry == living[t].entry :: s == t
  {
    hide Counted, Mirrored;
  }

  /** At least as many clients as entries they hold. */
  lemma {:induction false} FewerHeldThanHolders<K, V>(keys: set<K>, entryOf: map<K, V>, byClient: map<Client, V>)
    requires forall k | k in keys :: k in entryOf && entryOf[k] in byClient.Values
    requires forall j, k | j in keys && k in keys && entryOf[j] == entryOf[k] :: j == k
    ensures |keys| <= |byClient|
    decreases keys
  {
    if keys != {} {
      var k :| k in keys;
      var c :| c in byClient && byClient[c] == entryOf[k];
      var rest := byClient - {c};
      assert rest.Keys == byClient.Keys - {c} && |rest.Keys| == |rest|;
      forall j | j in keys - {k}
        ensures entryOf[j] in rest.Values
      {
        var d :| d in byClient && byClient[d] == entryOf[j];
        assert d in rest && rest[d] == entryOf[j];
      }
      FewerHeldThanHolders(keys - {k}, entryOf, rest);
    }
  }

  /** Indexing the newest entry completes the books. */
  lemma {:induction false} IndexKeeps(format: AddressFormat, b: Books, e: EntryId)
    requires Consistent(format, b, multiset{e}, {e}) && SoleInSlot(format, b, e)
    requires Slot(format, b.vector[b.peer[e]]) !in b.byAddress
    requires |b.byAddress| < b.sweepAt && b.visited + 2 * |b.byAddress| + 2 <= 2 * b.inserts + 2 * b.base
    ensures e in b.strong
    ensures var bytes := b.vector[b.peer[e]];
            && Consistent(format, b.(byAddress := b.byAddress[Slot(format, bytes) := Known(bytes, e)]), multiset{e}, {})
            && View(b.(byAddress := b.byAddress[Slot(format, bytes) := Known(bytes, e)])) == View(b)
  {
    var bytes := b.vector[b.peer[e]];
    var index := b.byAddress[Slot(format, bytes) := Known(bytes, e)];
    assert |index| == |b.byAddress| + 1;
    IndexIsComplete(format, b, e, bytes);
    hide Counted, Mirrored, Indexed;
  }

  lemma IndexIsComplete(format: AddressFormat, b: Books, e: EntryId, bytes: Address)
    requires Mirrored(b.peer, b.owner, b.vector, b.nextEntry)
    requires Indexed(format, b.byAddress, b.peer, b.vector, b.nextEntry, {e})
    requires e in b.peer && b.vector[b.peer[e]] == bytes
    requires SoleInSlot(format, b, e)
    ensures Indexed(format, b.byAddress[Slot(format, bytes) := Known(bytes, e)], b.peer, b.vector, b.nextEntry, {})
  {}

  /** The vector holds exactly what some client is bound to, each slot once. */
  lemma {:induction false} VectorIsExactlyHeld(format: AddressFormat, b: Books)
    requires Consistent(format, b, multiset{}, {})
    ensures forall h, bytes :: h in b.vector && b.vector[h] == bytes <==> HandleLive(View(b), Binding(h, bytes))
    ensures WellFormed(format, View(b))
  {
    forall h | h in b.vector
      ensures HandleLive(View(b), Binding(h, b.vector[h]))
    {
      EveryHandleIsHeld(format, b, h);
    }
    ViewIsWellFormed(format, b);
    hide Counted, Indexed;
  }

  lemma EveryHandleIsHeld(format: AddressFormat, b: Books, h: Handle)
    requires Consistent(format, b, multiset{}, {}) && h in b.vector
    ensures HandleLive(View(b), Binding(h, b.vector[h]))
  {
    var e := b.owner[h];
    assert b.strong[e] == |Holders(b.byClient, e)|;
    assert Holders(b.byClient, e) != {};
    var c :| c in Holders(b.byClient, e);
    assert View(b)[c] == Binding(h, b.vector[h]);
  }

  lemma ViewIsWellFormed(format: AddressFormat, b: Books)
    requires Consistent(format, b, multiset{}, {})
    ensures WellFormed(format, View(b))
  {}

  /** The entry count is the number of clients on it, whatever they call it. */
  lemma CountIsSharers(format: AddressFormat, b: Books, e: EntryId)
    requires Consistent(format, b, multiset{}, {}) && e in b.strong
    ensures b.strong[e] == |set c | c in b.byClient && b.byClient[c] == e|
  {
    assert Holders(b.byClient, e) == set c | c in b.byClient && b.byClient[c] == e;
  }

  /** The index is bounded by the most clients ever served at once, and sweeping by the inserts made. */
  lemma SweepingIsAmortised(format: AddressFormat, b: Books)
    requires Consistent(format, b, multiset{}, {})
    ensures |b.byAddress| <= Max(MINIMUM_SWEEP, 2 * b.peak)
    ensures b.visited <= 2 * b.inserts
  {}

  /** Holding the slot's entry is the same as advertising an address of that slot. */
  lemma SharersAreTheSlot(format: AddressFormat, b: Books, slot: Address)
    requires Consistent(format, b, multiset{}, {}) && slot in b.byAddress && b.byAddress[slot].entry in b.strong
    ensures forall c | c in View(b) ::
              && Usable(format, View(b)[c].address)
              && (c in (set d | d in b.byClient && b.byClient[d] == b.byAddress[slot].entry) <==>
                    Slot(format, View(b)[c].address) == slot)
  {}

  lemma LiveKeys(format: AddressFormat, b: Books)
    requires Consistent(format, b, multiset{}, {})
    ensures b.peer.Keys == b.strong.Keys
  {}

  lemma HandlesAreInVector(format: AddressFormat, b: Books)
    requires Consistent(format, b, multiset{}, {})
    ensures forall c | c in View(b) :: View(b)[c].handle in b.vector
  {}

  /** The slot is found, alive, under the advertised bytes: the advertisement shares that entry. */
  lemma HitShares(format: AddressFormat, b: Books, client: Client, address: Address, answer: Option<Handle>)
    requires Consistent(format, b, multiset{}, {}) && Usable(format, address)
    requires var slot := Slot(format, address);
             slot in b.byAddress && b.byAddress[slot].entry in b.strong && b.byAddress[slot].bytes == address
    ensures var e := b.byAddress[Slot(format, address)].entry;
            && e in b.peer && b.peer[e] in b.vector && b.vector[b.peer[e]] == address
            && Held(View(b), address)
            && Advertise(format, View(b), client, address, answer) == View(b)[client := Binding(b.peer[e], address)]
  {
    var e := b.byAddress[Slot(format, address)].entry;
    EveryHandleIsHeld(format, b, b.peer[e]);
    ViewIsWellFormed(format, b);
    HitSharesBinding(format, View(b), client, address, Binding(b.peer[e], address), answer);
  }

  lemma HitSharesBinding(
    format: AddressFormat, t: Table, client: Client, address: Address, binding: Binding, answer: Option<Handle>)
    requires WellFormed(format, t) && HandleLive(t, binding) && binding.address == address
    ensures Held(t, address)
    ensures Usable(format, address) ==> Advertise(format, t, client, address, answer) == t[client := binding]
  {
    var d :| d in t && t[d] == binding;
    if Usable(format, address) {
      var c :| c in t && t[c].address == address && Advertise(format, t, client, address, answer) == t[client := t[c]];
      assert Slot(format, t[c].address) == Slot(format, t[d].address);
    }
  }

  /** The slot is not alive under the advertised bytes: nobody holds them. */
  lemma MissIsUnheld(format: AddressFormat, b: Books, address: Address)
    requires Consistent(format, b, multiset{}, {}) && Usable(format, address)
    requires var slot := Slot(format, address);
             slot in b.byAddress && b.byAddress[slot].entry in b.strong ==> b.byAddress[slot].bytes != address
    ensures !Held(View(b), address)
  {
    forall c | c in View(b)
      ensures View(b)[c].address != address
    {
      assert b.byClient[c] in b.peer;
    }
  }

  /** The slot has no live entry: no client advertises an address of it. */
  lemma DeadSlotIsEmpty(format: AddressFormat, b: Books, slot: Address)
    requires Consistent(format, b, multiset{}, {})
    requires slot in b.byAddress ==> b.byAddress[slot].entry !in b.strong
    ensures forall c | c in View(b) :: Usable(format, View(b)[c].address) && Slot(format, View(b)[c].address) != slot
  {
    forall c | c in View(b)
      ensures Usable(format, View(b)[c].address) && Slot(format, View(b)[c].address) != slot
    {
      assert b.byClient[c] in b.peer;
    }
  }

  /** Nobody but the caller holds the entry, so its count is one. */
  lemma SoleHolder(format: AddressFormat, b: Books, e: EntryId)
    requires Consistent(format, b, multiset{e}, {}) && forall c | c in b.byClient :: b.byClient[c] != e
    ensures e in b.strong && b.strong[e] == 1
  {
    assert Holders(b.byClient, e) == {};
  }

  lemma HeldIsAlive(format: AddressFormat, b: Books, c: Client, extra: multiset<EntryId>)
    requires Consistent(format, b, extra, {}) && c in b.byClient
    ensures b.byClient[c] in b.strong && b.byClient[c] in b.peer
  {}

  /** With the slot's holders and the client itself gone, what is left is the vacated table. */
  lemma EvictedIsVacated(format: AddressFormat, b: Books, client: Client, address: Address, gone: set<Client>)
    requires Consistent(format, b, multiset{}, {}) && Usable(format, address)
    requires forall c | c in View(b) ::
               Usable(format, View(b)[c].address)
                 && (c in gone <==> Slot(format, View(b)[c].address) == Slot(format, address))
    ensures View(b) - gone - {client} == Vacated(format, View(b), client, address)
  {
    hide Consistent, View, Slot, IdentityLen;
  }

  /** With nothing alive in the slot, only the client itself is in the way. */
  lemma DeadSlotIsVacated(format: AddressFormat, b: Books, client: Client, address: Address)
    requires Consistent(format, b, multiset{}, {}) && Usable(format, address)
    requires var slot := Slot(format, address); slot in b.byAddress ==> b.byAddress[slot].entry !in b.strong
    ensures View(b) - {client} == Vacated(format, View(b), client, address)
  {
    hide Consistent, Slot, Usable, Vacated;
    DeadSlotIsEmpty(format, b, Slot(format, address));
    EvictedIsVacated(format, b, client, address, {});
    var nobody: set<Client> := {};
    assert View(b) - nobody == View(b);
  }

  /** What the vector may answer, once room is made. */
  lemma NewHandleIsPossible(
    format: AddressFormat, t: Table, client: Client, address: Address, room: Books, answer: Option<Handle>)
    requires Consistent(format, room, multiset{}, {}) && Usable(format, address)
    requires View(room) == Vacated(format, t, client, address)
    requires answer.Some? ==> answer.value !in room.vector
    ensures AnswerPossible(format, t, client, address, answer)
  {
    HandlesAreInVector(format, room);
  }

  /** An insert pays for its own index key. */
  lemma RegisterHasRoom(format: AddressFormat, b: Books)
    requires Consistent(format, b, multiset{}, {})
    ensures 2 <= 2 * (b.inserts + 1) - b.visited - 2 * |b.byAddress| + 2 * b.base
  {}

  lemma SoleUnswept(format: AddressFormat, b: Books, after: Books, e: EntryId)
    requires SoleInSlot(format, b, e) && after.peer == b.peer && after.vector == b.vector
    ensures SoleInSlot(format, after, e)
    ensures e in after.peer && after.peer[e] in after.vector
  {}

  /** With no clients left the vector is empty, and the index may go too. */
  lemma NobodyHoldsNothing(format: AddressFormat, b: Books)
    requires Consistent(format, b, multiset{}, {}) && b.byClient == map[]
    ensures View(b) == map[] && b.vector == map[]
    ensures Consistent(format, b.(byAddress := map[]), multiset{}, {}) && View(b.(byAddress := map[])) == map[]
  {
    hide Counted, Mirrored, Indexed, View;
    NoEntryLives(b.byClient, b.strong);
    NothingMirrored(b);
    NothingIndexed(format, b);
    NothingViewed(b);
    NothingViewed(b.(byAddress := map[]));
  }

  lemma NothingMirrored(b: Books)
    requires b.peer.Keys == {} && Mirrored(b.peer, b.owner, b.vector, b.nextEntry)
    ensures b.vector == map[]
  {
    assert forall h | h in b.vector :: b.owner[h] in b.peer;
  }

  lemma NothingIndexed(format: AddressFormat, b: Books)
    requires b.peer.Keys == {}
    ensures Indexed(format, map[], b.peer, b.vector, b.nextEntry, {})
  {}

  lemma NothingViewed(b: Books)
    requires b.byClient == map[]
    ensures View(b) == map[]
  {}

  lemma NoEntryLives(byClient: map<Client, EntryId>, strong: map<EntryId, nat>)
    requires Counted(byClient, strong, multiset{}) && byClient == map[]
    ensures strong == map[]
  {
    forall e: EntryId
      ensures e !in strong
    {
      assert Holders(byClient, e) == {};
    }
  }
}
