/** How long the handle of an operation stays in the address vector: from its post on, exactly while every step
    leaves somebody holding it. */
module WorkerHandles {
  import opened Basics
  import opened AddressTable
  import opened WorkerModel
  import opened WorkerInvariant
  import opened WorkerSteps
  import opened WorkerTheorems
  import opened WorkerPeers

  // ----- One step -----

  /** The advertisement leaves the target with a holder: it advertises nothing, an address no provider takes, the
      target's own bytes, or another slot's bytes while another client holds the target. */
  ghost predicate Spared(format: AddressFormat, peers: Table, asked: Question, target: Binding) {
    asked.About? ==>
      || !Usable(format, asked.address)
      || asked.address == target.address
      || (Usable(format, target.address) && Slot(format, asked.address) != Slot(format, target.address)
          && HeldBesides(peers, asked.client, target))
  }

  /** Nor does a release: somebody besides the released client holds the target. */
  ghost predicate Stays(s: State, step: Step, target: Binding)
    requires CanTake(s, step)
  {
    && Spared(s.cfg.format, s.accounts.peers, Asked(s, step), target)
    && (Released(s, step).Some? ==> HeldBesides(s.accounts.peers, Released(s, step).value, target))
  }

  lemma LiveIsUsable(format: AddressFormat, peers: Table, target: Binding)
    requires WellFormed(format, peers) && HandleLive(peers, target)
    ensures Usable(format, target.address)
  {}

  /** After a release the target is live exactly if somebody else holds it. */
  lemma LiveAfterRelease(told: Table, c: Client, target: Binding)
    ensures HandleLive(told - {c}, target) <==> HeldBesides(told, c, target)
  {
    if HeldBesides(told, c, target) {
      var d :| d in told && d != c && told[d] == target;
      assert d in told - {c} && (told - {c})[d] == target;
    }
    if HandleLive(told - {c}, target) {
      var d :| d in told - {c} && (told - {c})[d] == target;
      assert d in told && d != c && told[d] == target;
    }
  }

  /** Advertising moves only its own client among a spared target's holders. */
  lemma OthersAfterAdvertising(format: AddressFormat, peers: Table, asked: Question, target: Binding)
    requires WellFormed(format, peers) && HandleLive(peers, target) && asked.About?
    requires Spared(format, peers, asked, target)
    ensures var told := Advertise(format, peers, asked.client, asked.address, asked.answer);
            HeldBesides(told, asked.client, target) <==> HeldBesides(peers, asked.client, target)
  {
    hide HandleLive, WellFormed;
    LiveIsUsable(format, peers, target);
    hide Slot, Usable;
    var told := Advertise(format, peers, asked.client, asked.address, asked.answer);
    forall d | d != asked.client
      ensures d in told && told[d] == target <==> d in peers && peers[d] == target
    {
      OtherAfterAdvertising(format, peers, asked, target, d);
    }
  }

  lemma OtherAfterAdvertising(format: AddressFormat, peers: Table, asked: Question, target: Binding, d: Client)
    requires WellFormed(format, peers) && HandleLive(peers, target) && asked.About? && d != asked.client
    requires Spared(format, peers, asked, target) && Usable(format, target.address)
    ensures var told := Advertise(format, peers, asked.client, asked.address, asked.answer);
            d in told && told[d] == target <==> d in peers && peers[d] == target
  {
    hide Slot, IdentityLen;
    if Usable(format, asked.address) && asked.address == target.address {
      var e :| e in peers && peers[e] == target;
      assert Held(peers, asked.address);
    }
  }

  /** A live handle is live after a step exactly when the step spares it: whoever advertises or leaves, somebody
      still holds it. */
  lemma {:induction false} HandleSurvivesExactlyWhen(s: State, step: Step, target: Binding)
    requires Enabled(s, step) && WellFormed(s.cfg.format, s.accounts.peers) && HandleLive(s.accounts.peers, target)
    ensures HandleLive(Next(s, step).accounts.peers, target) <==> Stays(s, step, target)
  {
    hide Next, Advertise, AnswerPossible, CanTake, WellFormed, Usable, Slot, OutstandingFor, Released, HandleLive,
      HeldBesides, Asked;
    var format, peers, asked, released := s.cfg.format, s.accounts.peers, Asked(s, step), Released(s, step);
    PeersMoveExactly(s, step);
    AsksForTheReleased(s, step);
    LiveIsUsable(format, peers, target);
    if asked.About? {
      EntrySurvivesExactlyWhen(format, peers, asked.client, asked.address, asked.answer, target);
    }
    if released.Some? {
      LiveAfterRelease(Told(s, step), released.value, target);
      ReleasedIsLive(Told(s, step), released.value, target);
      if asked.About? && Spared(format, peers, asked, target) {
        OthersAfterAdvertising(format, peers, asked, target);
      }
    }
  }

  lemma ReleasedIsLive(told: Table, c: Client, target: Binding)
    ensures HeldBesides(told, c, target) ==> HandleLive(told, target)
  {}

  // ----- Whole runs -----

  lemma {:induction false} LivesExactlyWhile(
    cfg: Config, states: seq<State>, steps: seq<Step>, i: nat, j: nat, target: Binding)
    requires FromStart(cfg, states, steps) && i <= j < |states| && HandleLive(states[i].accounts.peers, target)
    ensures (forall k | i <= k <= j :: HandleLive(states[k].accounts.peers, target))
            <==> (forall k | i <= k < j :: Stays(states[k], steps[k], target))
    decreases j - i
  {
    hide Next, CanTake, Answerable, HandleLive, Stays, Invariant, WellFormed;
    if i < j {
      var n := j - 1;
      LivesExactlyWhile(cfg, states, steps, i, n, target);
      RunKeepsInvariant(cfg, states, steps, n);
      PartsOf(states[n]);
      assert Enabled(states[n], steps[n]);
      if HandleLive(states[n].accounts.peers, target) {
        HandleSurvivesExactlyWhen(states[n], steps[n], target);
      }
      assert (forall k | i <= k <= j :: HandleLive(states[k].accounts.peers, target)) <==>
        (forall k | i <= k <= n :: HandleLive(states[k].accounts.peers, target))
        && HandleLive(states[j].accounts.peers, target);
      assert (forall k | i <= k < j :: Stays(states[k], steps[k], target))
        <==> (forall k | i <= k < n :: Stays(states[k], steps[k], target)) && Stays(states[n], steps[n], target);
    }
  }

  /** The step that put the operation on the wire. */
  ghost predicate PostedAt(states: seq<State>, p: nat, x: Item) {
    p + 1 < |states| && InFlight(states[p + 1].queues, x) && !InFlight(states[p].queues, x)
  }

  /** From its post on, through its reap and as long as one cares to look, the handle an operation was posted
      against is in the address vector exactly while every step spares it. */
  lemma {:induction false} HandleStaysExactlyWhile(
    cfg: Config, states: seq<State>, steps: seq<Step>, p: nat, j: nat, x: Item)
    requires FromStart(cfg, states, steps) && PostedAt(states, p, x) && p < j < |states|
    ensures OnWire(x) && HandleLive(states[p + 1].accounts.peers, Target(x))
    ensures (forall k | p < k <= j :: HandleLive(states[k].accounts.peers, Target(x)))
            <==> (forall k | p < k < j :: Stays(states[k], steps[k], Target(x)))
  {
    hide Next, CanTake, Answerable, HandleLive, Stays, InFlight, OnWire, Target;
    assert Enabled(states[p], steps[p]);
    NewlyPostedIsPinned(states[p], steps[p], x);
    PinnedIsLive(states[p + 1].accounts.peers, x);
    LivesExactlyWhile(cfg, states, steps, p + 1, j, Target(x));
  }

  lemma PinnedIsLive(peers: Table, x: Item)
    requires PinnedBy(peers, x)
    ensures OnWire(x) && HandleLive(peers, Target(x))
  {}
}
