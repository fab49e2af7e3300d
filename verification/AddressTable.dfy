/** What the address table of one endpoint means: each client is bound to one address-vector handle
    and the bytes that handle was inserted for. The vector itself is whatever some client is bound to. */
module AddressTable {
  import opened Basics

  const EFA_ADDRESS_LEN: nat := 32
  const EFA_IDENTITY_LEN: nat := 18

  datatype AddressFormat = Efa | Opaque

  datatype Binding = Binding(handle: Handle, address: Address)

  type Table = map<Client, Binding>

  /** The length of the slot's name, a prefix of the address; `None` for an address the provider cannot take. */
  function IdentityLen(format: AddressFormat, address: Address): Option<nat> {
    match format
    case Efa => if |address.bytes| != EFA_ADDRESS_LEN then None else Some(EFA_IDENTITY_LEN)
    case Opaque => Some(|address.bytes|)
  }

  predicate Usable(format: AddressFormat, address: Address) {
    IdentityLen(format, address).Some?
  }

  function Slot(format: AddressFormat, address: Address): Address
    requires Usable(format, address)
  {
    Address(address.bytes[..IdentityLen(format, address).value])
  }

  /** What the provider takes, and which addresses it cannot hold together: on efa the 32 bytes of an endpoint's
      address, the same endpoint slot when the GID and the queue pair number agree, whatever the rest says; elsewhere
      any bytes, the same only when equal. */
  lemma SameSlotExactlyWhen(format: AddressFormat, a: Address, b: Address)
    ensures Usable(format, a) <==> (format.Efa? ==> |a.bytes| == 32)
    ensures Usable(format, a) && Usable(format, b) ==>
              (Slot(format, a) == Slot(format, b) <==>
                if format.Efa? then (forall i | 0 <= i < 18 :: a.bytes[i] == b.bytes[i]) else a == b)
  {
    if Usable(format, a) && Usable(format, b) {
      if format.Efa? {
        assert Slot(format, a) == Slot(format, b) <==> a.bytes[..18] == b.bytes[..18];
        if a.bytes[..18] == b.bytes[..18] {
          assert forall i | 0 <= i < 18 :: a.bytes[i] == a.bytes[..18][i] && b.bytes[i] == b.bytes[..18][i];
        }
      } else {
        assert a.bytes[..|a.bytes|] == a.bytes && b.bytes[..|b.bytes|] == b.bytes;
      }
    }
  }

  /** One live entry per slot and per handle, and only addresses the provider takes. */
  ghost predicate WellFormed(format: AddressFormat, t: Table) {
    && (forall c | c in t :: Usable(format, t[c].address))
    && (forall c, d | c in t && d in t && Slot(format, t[c].address) == Slot(format, t[d].address) :: t[c] == t[d])
    && (forall c, d | c in t && d in t && t[c].handle == t[d].handle :: t[c] == t[d])
  }

  ghost predicate Held(t: Table, address: Address) {
    exists c :: c in t && t[c].address == address
  }

  ghost predicate HandleLive(t: Table, binding: Binding) {
    exists c :: c in t && t[c] == binding
  }

  /** The table with the slot of `address` and the place of `client` vacated. */
  ghost function Vacated(format: AddressFormat, t: Table, client: Client, address: Address): Table
    requires Usable(format, address)
  {
    map c | c in t && c != client
            && !(Usable(format, t[c].address) && Slot(format, t[c].address) == Slot(format, address)) :: t[c]
  }

  /** What the vector may answer an insert with: a failure, or a handle nobody holds by then. */
  ghost predicate AnswerPossible(
    format: AddressFormat, t: Table, client: Client, address: Address, answer: Option<Handle>)
  {
    Usable(format, address) && answer.Some? ==>
      forall c | c in Vacated(format, t, client, address) :: t[c].handle != answer.value
  }

  /** The table after `client` advertises `address`, the vector having answered `answer` if it was asked. */
  ghost function Advertise(
    format: AddressFormat, t: Table, client: Client, address: Address, answer: Option<Handle>): Table
  {
    if !Usable(format, address) then t
    else if Held(t, address) then
      var c :| c in t && t[c].address == address;
      t[client := t[c]]
    else if answer.Some? then
      Vacated(format, t, client, address)[client := Binding(answer.value, address)]
    else
      Vacated(format, t, client, address)
  }

  /** The handle `client` may post against afterwards, if the advertisement succeeded. */
  ghost function Resolved(
    format: AddressFormat, t: Table, client: Client, address: Address, answer: Option<Handle>): (r: Option<Handle>)
    ensures r.Some? ==> client in Advertise(format, t, client, address, answer)
  {
    if Usable(format, address) && (Held(t, address) || answer.Some?)
    then Some(Advertise(format, t, client, address, answer)[client].handle)
    else None
  }

  lemma AdvertiseKeepsWellFormed(
    format: AddressFormat, t: Table, client: Client, address: Address, answer: Option<Handle>)
    requires WellFormed(format, t)
    requires AnswerPossible(format, t, client, address, answer)
    ensures WellFormed(format, Advertise(format, t, client, address, answer))
  {
    if Usable(format, address) {
      if Held(t, address) {
        var c :| c in t && t[c].address == address
          && Advertise(format, t, client, address, answer) == t[client := t[c]];
        WellFormedAfterShare(format, t, client, c);
      } else {
        var vacated := Vacated(format, t, client, address);
        assert WellFormed(format, vacated);
        if answer.Some? {
          WellFormedAfterBind(format, vacated, client, Binding(answer.value, address));
        }
      }
    }
  }

  lemma WellFormedAfterShare(format: AddressFormat, t: Table, client: Client, c: Client)
    requires WellFormed(format, t) && c in t
    ensures WellFormed(format, t[client := t[c]])
  {}

  lemma WellFormedAfterBind(format: AddressFormat, t: Table, client: Client, b: Binding)
    requires WellFormed(format, t) && client !in t && Usable(format, b.address)
    requires forall c | c in t :: t[c].handle != b.handle && Slot(format, t[c].address) != Slot(format, b.address)
    ensures WellFormed(format, t[client := b])
  {
    var after := t[client := b];
    forall c, d | c in after && d in after
      ensures Slot(format, after[c].address) == Slot(format, after[d].address) ==> after[c] == after[d]
      ensures after[c].handle == after[d].handle ==> after[c] == after[d]
    {
      if c != client && d == client {
        assert t[c].handle != b.handle;
      } else if c == client && d != client {
        assert t[d].handle != b.handle;
      }
    }
  }

  /** A successful advertisement binds exactly the advertised bytes, whatever the client held before. */
  lemma AdvertiseBinds(format: AddressFormat, t: Table, client: Client, address: Address, answer: Option<Handle>)
    requires Resolved(format, t, client, address, answer).Some?
    ensures var after := Advertise(format, t, client, address, answer);
            client in after && after[client] == Binding(Resolved(format, t, client, address, answer).value, address)
  {}

  ghost predicate HeldBesides(t: Table, client: Client, entry: Binding) {
    exists d :: d in t && d != client && t[d] == entry
  }

  /** Exactly when a live entry survives an advertisement: the bytes are refused, or are the entry's
      own, or name another slot while somebody else still holds the entry. */
  lemma EntrySurvivesExactlyWhen(
    format: AddressFormat, t: Table, client: Client, address: Address, answer: Option<Handle>, entry: Binding)
    requires WellFormed(format, t) && HandleLive(t, entry)
    requires AnswerPossible(format, t, client, address, answer)
    ensures HandleLive(Advertise(format, t, client, address, answer), entry) <==>
            || !Usable(format, address)
            || address == entry.address
            || (Slot(format, address) != Slot(format, entry.address) && HeldBesides(t, client, entry))
  {
    if Usable(format, address) {
      if Held(t, address) {
        var c :| c in t && t[c].address == address
          && Advertise(format, t, client, address, answer) == t[client := t[c]];
        SharingKeepsExactly(format, t, client, c, entry);
      } else {
        VacatingKeepsExactly(format, t, client, address, answer, entry);
      }
    }
  }

  lemma SharingKeepsExactly(format: AddressFormat, t: Table, client: Client, c: Client, entry: Binding)
    requires WellFormed(format, t) && HandleLive(t, entry) && c in t
    ensures HandleLive(t[client := t[c]], entry) <==>
            t[c].address == entry.address
            || (Slot(format, t[c].address) != Slot(format, entry.address) && HeldBesides(t, client, entry))
  {
    var after := t[client := t[c]];
    var e :| e in t && t[e] == entry;
    if t[c].address == entry.address {
      assert after[client] == entry;
    } else if HeldBesides(t, client, entry) {
      var d :| d in t && d != client && t[d] == entry;
      assert after[d] == entry;
    } else {
      assert forall k | k in after && k != client :: t[k] != entry;
    }
  }

  lemma VacatingKeepsExactly(
    format: AddressFormat, t: Table, client: Client, address: Address, answer: Option<Handle>, entry: Binding)
    requires WellFormed(format, t) && HandleLive(t, entry) && Usable(format, address) && !Held(t, address)
    ensures HandleLive(Advertise(format, t, client, address, answer), entry) <==>
            Slot(format, address) != Slot(format, entry.address) && HeldBesides(t, client, entry)
  {
    hide Slot, Usable, IdentityLen;
    var after := Advertise(format, t, client, address, answer);
    var e :| e in t && t[e] == entry;
    assert entry.address != address;
    if Slot(format, address) != Slot(format, entry.address) && HeldBesides(t, client, entry) {
      var d :| d in t && d != client && t[d] == entry;
      assert after[d] == entry;
    } else {
      assert forall k | k in after && k != client ::
        k in t && t[k] == after[k] && Slot(format, t[k].address) != Slot(format, address);
    }
  }

  /** Nobody's entry moves when every holder of the slot agrees on its bytes. */
  lemma AdvertiseKeepsOthers(
    format: AddressFormat, t: Table, client: Client, address: Address, answer: Option<Handle>, other: Client)
    requires WellFormed(format, t) && other in t
    requires other == client ==> t[other].address == address
    requires Usable(format, address) && Slot(format, t[other].address) == Slot(format, address) ==>
               t[other].address == address
    ensures var after := Advertise(format, t, client, address, answer); other in after && after[other] == t[other]
  {}

  /** Re-advertising what a client already holds changes nothing and asks the vector for nothing. */
  lemma AdvertiseIsIdempotent(
    format: AddressFormat, t: Table, client: Client, address: Address, first: Option<Handle>, second: Option<Handle>)
    requires WellFormed(format, t) && AnswerPossible(format, t, client, address, first)
    requires Resolved(format, t, client, address, first).Some?
    ensures var once := Advertise(format, t, client, address, first);
            && Advertise(format, once, client, address, second) == once
            && Resolved(format, once, client, address, second) == Resolved(format, t, client, address, first)
  {
    hide Slot, IdentityLen, Vacated, AnswerPossible;
    var once := Advertise(format, t, client, address, first);
    AdvertiseKeepsWellFormed(format, t, client, address, first);
    AdvertiseBinds(format, t, client, address, first);
    assert Held(once, address);
    var c :| c in once && once[c].address == address
      && Advertise(format, once, client, address, second) == once[client := once[c]];
    assert once[c] == once[client];
    assert once[client := once[c]] == once;
  }
}
