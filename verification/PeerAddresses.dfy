/** What one endpoint knows of its peers: an owning map from client to entry, a non-owning index
    from slot to entry, reference counts, and the provider's vector, kept in step. Between calls it
    implements the table of `AddressTable`. */
module PeerAddresses {
  import opened Basics
  import opened AddressTable
  import opened AddressBooks

  /** A hash-map insert: an equal key already present is kept, so its bytes are too. */
  function IndexInsert(index: map<Address, Known>, slot: Address, known: Known): map<Address, Known> {
    index[slot := if slot in index then Known(index[slot].bytes, known.entry) else known]
  }

  /** One `fi_av_insert`: the bytes, and the handle it gave, or none if it refused. */
  datatype Insertion = Insertion(bytes: Address, answer: Option<Handle>)

  class PeerAddresses {
    const format: AddressFormat
    /** The provider's address vector. */
    var vector: map<Handle, Address>
    var byAddress: map<Address, Known>
    var byClient: map<Client, EntryId>
    /** Strong counts and handles of the entries still alive; an entry dies at count zero. */
    var strong: map<EntryId, nat>
    var peer: map<EntryId, Handle>
    var nextEntry: EntryId
    var sweepAt: nat
    ghost var owner: map<Handle, EntryId>
    ghost var inserts: nat
    ghost var visited: nat
    ghost var base: nat
    ghost var peak: nat
    /** Every `fi_av_insert`, in order. */
    ghost var asked: seq<Insertion>

    ghost function Books(): Books
      reads `byAddress, `byClient, `strong, `peer, `owner, `vector, `nextEntry, `sweepAt, `inserts, `visited, `base,
        `peak
    {
      AddressBooks.Books(byAddress, byClient, strong, peer, owner, vector, nextEntry, sweepAt, inserts, visited, base,
                         peak)
    }

    /** Between calls nobody but the clients holds an entry. */
    ghost predicate Valid()
      reads `byAddress, `byClient, `strong, `peer, `owner, `vector, `nextEntry, `sweepAt, `inserts, `visited, `base,
        `peak
    {
      Consistent(format, Books(), multiset{}, {})
    }

    /** The caller still holds the clone `Handle` returned. */
    ghost predicate Lent(e: EntryId)
      reads `byAddress, `byClient, `strong, `peer, `owner, `vector, `nextEntry, `sweepAt, `inserts, `visited, `base,
        `peak
    {
      Consistent(format, Books(), multiset{e}, {})
    }

    ghost function Table(): Table
      reads `byAddress, `byClient, `strong, `peer, `owner, `vector, `nextEntry, `sweepAt, `inserts, `visited, `base,
        `peak
    {
      View(Books())
    }

    constructor (format: AddressFormat)
      ensures Valid() && Table() == map[] && this.format == format && Books() == EMPTY && asked == []
    {
      hide Consistent, View;
      this.format := format;
      vector, byAddress, byClient, strong, peer, owner := map[], map[], map[], map[], map[], map[];
      nextEntry, sweepAt, inserts, visited, base, peak := 0, MINIMUM_SWEEP, 0, 0, 0, 0;
      asked := [];
      new;
      EmptyIsConsistent(format);
    }

    /** `fi_av_insert`: it may refuse, and it cannot hold two addresses of one slot. */
    method InsertAddress(bytes: Address) returns (answer: Option<Handle>)
      requires Usable(format, bytes)
      requires forall h | h in vector :: Usable(format, vector[h]) && Slot(format, vector[h]) != Slot(format, bytes)
      modifies this`vector, this`asked
      ensures asked == old(asked) + [Insertion(bytes, answer)]
      ensures answer.None? ==> vector == old(vector)
      ensures answer.Some? ==> answer.value !in old(vector) && vector == old(vector)[answer.value := bytes]
    {
      if * {
        asked := asked + [Insertion(bytes, None)];
        return None;
      }
      var h: nat, rest := 0, vector.Keys;
      while h in rest
        invariant forall k | k in vector && h <= k :: k in rest
        decreases rest
      {
        rest := rest - {h};
        h := h + 1;
      }
      vector := vector[h := bytes];
      asked := asked + [Insertion(bytes, Some(h))];
      return Some(h);
    }

    /** `fi_av_remove`. */
    method RemoveAddress(handle: Handle)
      requires handle in vector
      modifies this`vector
      ensures vector == old(vector) - {handle}
    {
      vector := vector - {handle};
    }

    /** Drop one loose clone of an entry; the last one removes its address. */
    method DropClone(e: EntryId, ghost extra: multiset<EntryId>, ghost unindexed: set<EntryId>)
      requires e in extra && Consistent(format, Books(), extra, unindexed)
      modifies this`strong, this`peer, this`vector
      ensures Consistent(format, Books(), extra - multiset{e}, unindexed)
      ensures Table() == old(Table())
      ensures e in old(strong) && 0 < old(strong[e]) && e in old(peer) && Books() == Drop(old(Books()), e)
    {
      hide Consistent, View;
      DropKeeps(format, Books(), e, extra, unindexed);
      if strong[e] == 1 {
        RemoveAddress(peer[e]);
        strong, peer := strong - {e}, peer - {e};
      } else {
        strong := strong[e := strong[e] - 1];
      }
    }

    method CloneEntry(e: EntryId, ghost extra: multiset<EntryId>, ghost unindexed: set<EntryId>)
      requires e in strong && Consistent(format, Books(), extra, unindexed)
      modifies this`strong
      ensures Consistent(format, Books(), extra + multiset{e}, unindexed)
      ensures Table() == old(Table())
      ensures Books() == Clone(old(Books()), e)
    {
      hide Consistent, View;
      CloneKeeps(format, Books(), e, extra, unindexed);
      strong := strong[e := strong[e] + 1];
    }

    /** Take a client out of the owning map and drop the clone it held. */
    method RemoveClient(client: Client, ghost extra: multiset<EntryId>)
      requires Consistent(format, Books(), extra, {})
      modifies this`byClient, this`strong, this`peer, this`vector
      ensures Consistent(format, Books(), extra, {})
      ensures Table() == old(Table()) - {client} && byClient == old(byClient) - {client}
      ensures peer.Keys <= old(peer.Keys)
    {
      hide Consistent, View;
      if client in byClient {
        UnbindKeeps(format, Books(), client, extra, {});
        var e := byClient[client];
        byClient := byClient - {client};
        DropClone(e, extra + multiset{e}, {});
        assert extra + multiset{e} - multiset{e} == extra;
      } else {
        ViewCoversClients(format, Books(), extra, {});
        assert Table() - {client} == Table();
      }
    }

    /** Give a client a loose clone; whatever it held before is dropped after. */
    method PutClient(client: Client, e: EntryId, ghost extra: multiset<EntryId>)
      requires e in extra && Consistent(format, Books(), extra, {})
      requires e in peer && peer[e] in vector
      modifies this`byClient, this`strong, this`peer, this`vector, this`peak
      ensures Consistent(format, Books(), extra - multiset{e}, {})
      ensures e in peer && peer[e] == old(peer[e])
      ensures Table() == old(Table())[client := Binding(old(peer[e]), old(vector[peer[e]]))]
    {
      hide Consistent, View;
      if client in byClient {
        RebindKeeps(format, Books(), client, e, extra);
        var previous := byClient[client];
        byClient := byClient[client := e];
        peak := Max(peak, |byClient|);
        DropClone(previous, extra - multiset{e} + multiset{previous}, {});
        assert extra - multiset{e} + multiset{previous} - multiset{previous} == extra - multiset{e};
      } else {
        BindKeeps(format, Books(), client, e, extra, {});
        byClient := byClient[client := e];
        peak := Max(peak, |byClient|);
      }
      HeldIsAlive(format, Books(), client, extra - multiset{e});
    }

    /** Take every client of a stale entry out of the owning map, dropping its clone. */
    method Evict(e: EntryId)
      requires e in strong && Consistent(format, Books(), multiset{e}, {})
      modifies this`byClient, this`strong, this`peer, this`vector
      ensures Consistent(format, Books(), multiset{e}, {})
      ensures Table() == old(Table()) - (set c | c in old(byClient) && old(byClient)[c] == e)
      ensures byClient == old(byClient) - (set c | c in old(byClient) && old(byClient)[c] == e)
    {
      hide Consistent, View;
      var holders := set c | c in byClient && byClient[c] == e;
      var todo := holders;
      assert byClient - (holders - todo) == byClient && Table() - (holders - todo) == Table();
      while todo != {}
        invariant Consistent(format, Books(), multiset{e}, {})
        invariant todo <= holders
        invariant Table() == old(Table()) - (holders - todo)
        invariant byClient == old(byClient) - (holders - todo)
        decreases todo
      {
        var c :| c in todo;
        RemoveClient(c, multiset{e});
        assert holders - (todo - {c}) == (holders - todo) + {c};
        todo := todo - {c};
      }
      assert holders - todo == holders;
    }

    /** Drop dead index keys once the index has reached its threshold. */
    method Sweep(ghost newest: EntryId)
      requires Consistent(format, Books(), multiset{newest}, {newest})
      requires 2 <= 2 * inserts - visited - 2 * |byAddress| + 2 * base
      modifies this`byAddress, this`sweepAt, this`visited, this`base
      ensures Consistent(format, Books(), multiset{newest}, {newest})
      ensures Table() == old(Table())
      ensures byAddress.Keys <= old(byAddress.Keys)
      ensures |byAddress| < sweepAt && visited + 2 * |byAddress| + 2 <= 2 * inserts + 2 * base
    {
      hide Consistent, View, Living;
      SweepKeeps(format, Books(), newest);
      if |byAddress| < sweepAt {
        return;
      }
      visited := visited + |byAddress|;
      byAddress := Living(byAddress, strong);
      sweepAt, base := Max(MINIMUM_SWEEP, |byAddress| * 2), |byAddress|;
      assert Books() == Swept(old(Books()));
    }
  
    /** Release a slot's entry from every client of it, and so from the vector. */
    method EvictSlot(slot: Address)
      requires Valid() && slot in byAddress && byAddress[slot].entry in strong
      modifies this`byClient, this`strong, this`peer, this`vector
      ensures Valid() && byAddress[slot].entry !in peer
      ensures Table() == old(Table()) - (set c | c in old(byClient) && old(byClient)[c] == byAddress[slot].entry)
    {
      hide Consistent, View;
      var stale := byAddress[slot].entry;
      CloneEntry(stale, multiset{}, {});
      assert multiset{} + multiset{stale} == multiset{stale};
      Evict(stale);
      SoleHolder(format, Books(), stale);
      DropClone(stale, multiset{stale}, {});
      assert multiset{stale} - multiset{stale} == multiset{};
      LiveKeys(format, Books());
    }

    /** Release the slot of `address` if it is alive, so that only `client` may still stand in its way. */
    method VacateSlot(client: Client, address: Address)
      requires Valid() && Usable(format, address)
      modifies this`byClient, this`strong, this`peer, this`vector
      ensures Valid() && (Slot(format, address) in byAddress ==> byAddress[Slot(format, address)].entry !in peer)
      ensures Table() - {client} == Vacated(format, old(Table()), client, address)
    {
      hide Consistent, View, Vacated, Slot, Usable;
      var slot := Slot(format, address);
      LiveKeys(format, Books());
      if slot in byAddress && byAddress[slot].entry in strong {
        SharersAreTheSlot(format, Books(), slot);
        EvictedIsVacated(format, Books(), client, address,
                         set c | c in byClient && byClient[c] == byAddress[slot].entry);
        EvictSlot(slot);
      } else {
        DeadSlotIsVacated(format, Books(), client, address);
      }
    }

    /** Let go of whatever stands in the way of inserting `address` for `client`: the slot's stale entry
        with all its clients, the client's own entry, and the slot's index key. */
    method MakeRoom(client: Client, address: Address)
      requires Valid() && Usable(format, address)
      modifies this`byClient, this`strong, this`peer, this`vector, this`byAddress
      ensures Valid() && Slot(format, address) !in byAddress
      ensures Table() == Vacated(format, old(Table()), client, address)
    {
      hide Consistent, View, Vacated, Slot, Usable;
      VacateSlot(client, address);
      RemoveClient(client, multiset{});
      var slot := Slot(format, address);
      ForgetKeeps(format, Books(), slot, multiset{}, {});
      byAddress := byAddress - {slot};
    }

    /** Ask the vector for the address; on success the new entry is alive, held only by the caller and not
        yet indexed. */
    method Register(address: Address) returns (e: Option<EntryId>, ghost answer: Option<Handle>)
      requires Valid() && Usable(format, address) && Slot(format, address) !in byAddress
      modifies this`vector, this`strong, this`peer, this`owner, this`nextEntry, this`inserts, this`asked
      ensures asked == old(asked) + [Insertion(address, answer)]
      ensures Table() == old(Table())
      ensures answer.Some? ==> answer.value !in old(vector)
      ensures if e.None? then answer.None? && Valid() else
                && answer.Some? && Consistent(format, Books(), multiset{e.value}, {e.value})
                && SoleInSlot(format, Books(), e.value)
                && e.value in peer && peer[e.value] == answer.value && answer.value in vector
                && vector[answer.value] == address
                && 2 <= 2 * inserts - visited - 2 * |byAddress| + 2 * base
    {
      hide Consistent, View, Slot, Usable, SoleInSlot, Entered, Registered;
      UnnamedSlotIsFree(format, Books(), Slot(format, address));
      var inserted := InsertAddress(address);
      answer := inserted;
      if inserted.None? {
        return None, answer;
      }
      RegisterKeeps(format, old(Books()), inserted.value, address);
      RegisterIsSole(format, old(Books()), inserted.value, address);
      RegisterHasRoom(format, old(Books()));
      RegisteredInSteps(old(Books()), Books(), inserted.value, address);
      EnteredHolds(Books(), inserted.value);
      e := Some(nextEntry);
      Enter(inserted.value);
    }

    /** A new entry for a handle the vector has just given out, held only by the caller. */
    method Enter(handle: Handle)
      modifies this`strong, this`peer, this`owner, this`nextEntry, this`inserts
      ensures Books() == Entered(old(Books()), handle)
    {
      hide Consistent, View;
      strong, peer, owner := strong[nextEntry := 1], peer[nextEntry := handle], owner[handle := nextEntry];
      nextEntry, inserts := nextEntry + 1, inserts + 1;
    }

    /** Insert the address for a client nothing stands in the way of, lending the caller a clone. */
    method Admit(client: Client, address: Address) returns (held: Option<EntryId>, ghost answer: Option<Handle>)
      requires Valid() && Usable(format, address) && Slot(format, address) !in byAddress
      modifies this
      ensures asked == old(asked) + [Insertion(address, answer)]
      ensures answer.Some? ==> answer.value !in old(vector)
      ensures held.None? ==> answer.None? && Valid() && Table() == old(Table())
      ensures held.Some? ==> answer.Some? && Lent(held.value)
      ensures held.Some? ==> held.value in peer && peer[held.value] == answer.value
                             && Table() == old(Table())[client := Binding(answer.value, address)]
    {
      hide Consistent, View, Slot, Usable, SoleInSlot;
      var registered;
      registered, answer := Register(address);
      if registered.None? {
        return None, answer;
      }
      IndexEntry(registered.value, address);
      BindEntry(client, registered.value);
      return registered, answer;
    }

    /** Sweep if it is time, then index the new entry under its slot. */
    method IndexEntry(e: EntryId, address: Address)
      requires Consistent(format, Books(), multiset{e}, {e}) && SoleInSlot(format, Books(), e)
      requires e in peer && peer[e] in vector && vector[peer[e]] == address && Usable(format, address)
      requires Slot(format, address) !in byAddress && 2 <= 2 * inserts - visited - 2 * |byAddress| + 2 * base
      modifies this`byAddress, this`sweepAt, this`visited, this`base
      ensures Consistent(format, Books(), multiset{e}, {}) && Table() == old(Table()) && e in strong
    {
      hide Consistent, View, Slot, Usable, SoleInSlot;
      ghost var before := Books();
      Sweep(e);
      SoleUnswept(format, before, Books(), e);
      IndexKeeps(format, Books(), e);
      byAddress := IndexInsert(byAddress, Slot(format, address), Known(address, e));
    }

    /** The client holds the new entry, and the caller a clone. */
    method BindEntry(client: Client, e: EntryId)
      requires Consistent(format, Books(), multiset{e}, {}) && e in strong && e in peer && peer[e] in vector
      modifies this`byClient, this`strong, this`peer, this`vector, this`peak
      ensures Lent(e) && e in peer && peer[e] == old(peer[e])
      ensures Table() == old(Table())[client := Binding(old(peer[e]), old(vector[peer[e]]))]
    {
      hide Consistent, View;
      CloneEntry(e, multiset{e}, {});
      PutClient(client, e, multiset{e} + multiset{e});
      assert multiset{e} + multiset{e} - multiset{e} == multiset{e};
    }

    /** Bind the client to its address and answer the entry to post against; the vector is asked only for bytes
        nobody holds. The caller gets a clone of its own and drops it before the next call. */
    method Handle(client: Client, address: Address) returns (held: Option<EntryId>, ghost answer: Option<Handle>)
      requires Valid()
      modifies this
      ensures (format.Efa? ==> |address.bytes| == 32) && !Held(old(Table()), address) ==>
                asked == old(asked) + [Insertion(address, answer)]
      ensures !((format.Efa? ==> |address.bytes| == 32) && !Held(old(Table()), address)) ==>
                asked == old(asked) && answer == None
      ensures AnswerPossible(format, old(Table()), client, address, answer)
      ensures Table() == Advertise(format, old(Table()), client, address, answer)
      ensures held.None? ==> Valid() && Resolved(format, old(Table()), client, address, answer).None?
      ensures held.Some? ==> Lent(held.value) && held.value in peer
                             && Resolved(format, old(Table()), client, address, answer) == Some(peer[held.value])
    {
      hide Consistent, View, Vacated, Slot;
      answer := None;
      if IdentityLen(format, address).None? {
        return None, answer;
      }
      var slot := Slot(format, address);
      if slot in byAddress && byAddress[slot].entry in strong && byAddress[slot].bytes == address {
        HitShares(format, Books(), client, address, None);
        var e := byAddress[slot].entry;
        CloneEntry(e, multiset{}, {});
        CloneEntry(e, multiset{} + multiset{e}, {});
        PutClient(client, e, multiset{} + multiset{e} + multiset{e});
        assert multiset{} + multiset{e} + multiset{e} - multiset{e} == multiset{e};
        return Some(e), answer;
      }
      MissIsUnheld(format, Books(), address);
      MakeRoom(client, address);
      ghost var room := Books();
      held, answer := Admit(client, address);
      NewHandleIsPossible(format, old(Table()), client, address, room, answer);
    }

    /** The client is unbound; its address stays in the vector while anyone shares it. */
    method Release(client: Client)
      requires Valid()
      modifies this`byClient, this`strong, this`peer, this`vector
      ensures Valid() && Table() == old(Table()) - {client}
    {
      RemoveClient(client, multiset{});
    }

    /** Return the clone `Handle` lent. */
    method Return(e: EntryId)
      requires Lent(e)
      modifies this`strong, this`peer, this`vector
      ensures Valid() && Table() == old(Table())
    {
      hide Consistent, View;
      DropClone(e, multiset{e}, {});
      assert multiset{e} - multiset{e} == multiset{};
    }

    /** Release every entry, emptying the vector before the endpoint closes it. */
    method Clear()
      requires Valid()
      modifies this`byClient, this`strong, this`peer, this`vector, this`byAddress
      ensures Valid() && Table() == map[] && vector == map[]
    {
      hide Consistent, View;
      while byClient != map[]
        invariant Valid()
        decreases byClient.Keys
      {
        var client :| client in byClient;
        RemoveClient(client, multiset{});
      }
      NobodyHoldsNothing(format, Books());
      byAddress := map[];
    }
  }
}
