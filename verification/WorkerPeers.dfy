/** The addresses operations in flight were posted against: how long the address vector keeps them. */
module WorkerPeers {
  import opened Basics
  import opened AddressTable
  import opened WorkerModel
  import opened WorkerQueues
  import opened WorkerInvariant
  import opened WorkerFlow
  import opened WorkerSteps
  import opened WorkerAccounts
  import opened WorkerTraces
  import opened WorkerTheorems

  predicate InFlight(q: Queues, x: Item) {
    x in q.first || x in q.readBacks
  }

  predicate OnWire(x: Item) {
    x.trail != [] && x.trail[|x.trail| - 1].Posted?
  }

  /** The table entry an operation libfabric holds was posted against. */
  function Target(x: Item): Binding
    requires OnWire(x)
  {
    x.trail[|x.trail| - 1].peer
  }

  /** Its client is still bound to that very entry. */
  ghost predicate PinnedBy(peers: Table, x: Item) {
    OnWire(x) && x.request.client in peers && peers[x.request.client] == Target(x)
  }

  ghost predicate Pinned(s: State) {
    forall x | InFlight(s.queues, x) :: PinnedBy(s.accounts.peers, x)
  }

  predicate SameSlot(format: AddressFormat, a: Address, b: Address) {
    Usable(format, a) && Usable(format, b) && Slot(format, a) == Slot(format, b)
  }

  /** The advertisement leaves this operation's bytes alone: its client repeats them, and whoever names
      their slot does too. */
  predicate Agrees(format: AddressFormat, x: Item, asked: Question) {
    asked.About? ==>
      && (asked.client == x.request.client ==> asked.address == x.request.address)
      && (SameSlot(format, asked.address, x.request.address) ==> asked.address == x.request.address)
  }

  ghost predicate Stable(s: State, step: Step) {
    forall x | InFlight(s.queues, x) :: Agrees(s.cfg.format, x, Asked(s, step))
  }

  // ----- What a step does to the peers -----

  /** The client a step releases: a removal with nothing of its client outstanding, or the last operation of a
      client whose removal waits. */
  ghost function Released(s: State, step: Step): Option<Client>
    requires CanTake(s, step)
  {
    if step.Receive? || step.ParkedReceive? then
      var m := s.inbox.channel[0];
      if m.RemovePeer? && OutstandingFor(s.accounts, m.client) == 0 then Some(m.client) else None
    else
      var finished := Finished(s, step);
      if finished.Some? && finished.value in s.accounts.removal && OutstandingFor(s.accounts, finished.value) <= 1
      then finished else None
  }

  ghost function Told(s: State, step: Step): Table {
    var asked := Asked(s, step);
    if asked.About? then Advertise(s.cfg.format, s.accounts.peers, asked.client, asked.address, asked.answer)
      else s.accounts.peers
  }

  /** The last operation of a client whose removal waits takes its entry. */
  lemma FinishingReleases(a: Accounts, c: Client)
    ensures FinishOp(a, c).peers == if c in a.removal && OutstandingFor(a, c) <= 1 then a.peers - {c} else a.peers
  {}

  lemma PostMovesPeers(s: State, r: PostReply)
    requires CanTake(s, PostNext(r))
    ensures var released := Released(s, PostNext(r));
            Next(s, PostNext(r)).accounts.peers == if released.Some? then Told(s, PostNext(r)) - {released.value}
              else Told(s, PostNext(r))
  {
    hide Advertise, Judge, WriteOut, Retried, FinishOp;
    var item := s.queues.pending[0];
    FinishingReleases(Asking(s, item.request.client, item.address, r).accounts, item.request.client);
  }

  lemma QuiesceMovesPeers(s: State, r: PostReply)
    requires CanTake(s, QuiesceNext(r))
    ensures var step := QuiesceNext(r); var released := Released(s, step);
            Next(s, step).accounts.peers == if released.Some? then Told(s, step) - {released.value} else Told(s, step)
  {
    hide Advertise, Judge, ReadBack, Retried, FinishOp;
    var item := s.queues.quiescing[0];
    FinishingReleases(Asking(s, item.request.client, item.read.value.address.value, r).accounts, item.request.client);
  }

  /** A step advertises what it asks about and releases whom it releases, and nothing else moves the peers. */
  lemma PeersMoveExactly(s: State, step: Step)
    requires CanTake(s, step)
    ensures var released := Released(s, step);
            Next(s, step).accounts.peers == if released.Some? then Told(s, step) - {released.value} else Told(s, step)
  {
    hide Advertise, Prepare, Sorted, Reap, PoolDone, Complete, PostAttempt, QuiesceAttempt, FinishOp, NeedsRead, Judge;
    match step
    case PostNext(r) => PostMovesPeers(s, r);
    case QuiesceNext(r) => QuiesceMovesPeers(s, r);
    case Dispatch => FinishingReleases(s.accounts, s.queues.reaped[0].request.client);
    case _ =>
  }

  /** Whoever is released has nothing outstanding left. */
  lemma ReleasedHasNothingLeft(s: State, step: Step)
    requires CanTake(s, step)
    ensures Released(s, step).Some? ==>
              || OutstandingFor(s.accounts, Released(s, step).value) == 0
              || Released(s, step).value !in Next(s, step).accounts.byClient
  {
    hide Next, Finished, Joined;
    StepCounts(s, step);
    FinishersJoinNobody(s, step);
  }

  lemma FinishersJoinNobody(s: State, step: Step)
    requires CanTake(s, step)
    ensures Finished(s, step).Some? ==> Joined(s, step).None?
  {
    hide Judge;
  }

  /** A step that both asks and releases does both for one client. */
  lemma AsksForTheReleased(s: State, step: Step)
    requires CanTake(s, step)
    ensures Asked(s, step).About? && Released(s, step).Some? ==> Asked(s, step).client == Released(s, step).value
  {
    hide Judge;
  }

  // ----- One operation -----

  lemma InFlightIsCounted(s: State, x: Item)
    requires ClientsAgree(s.accounts.byClient, s.queues) && InFlight(s.queues, x)
    ensures x.request.client in s.accounts.byClient && 0 < OutstandingFor(s.accounts, x.request.client)
  {
    hide OpsOf;
    MemberIsOutstanding(s.queues, x);
  }

  lemma TargetIsUsable(format: AddressFormat, peers: Table, x: Item)
    requires PinnedBy(peers, x) && WellFormed(format, peers)
    ensures Usable(format, Target(x).address)
  {}

  lemma PartsOf(s: State)
    requires Invariant(s)
    ensures ClientsAgree(s.accounts.byClient, s.queues) && WellFormed(s.cfg.format, s.accounts.peers)
    ensures Traced(s.cfg, s.inbox.requests, s.queues)
  {
    hide ClientsAgree, WellFormed, Traced;
  }

  // ----- Whole runs -----

  lemma PostingPins(s: State, r: PostReply, x: Item)
    requires s.queues.pending != []
    requires InFlight(PostAttempt(s, r).queues, x) && !InFlight(s.queues, x)
    ensures var item := s.queues.pending[0];
            var told := Advertise(s.cfg.format, s.accounts.peers, item.request.client, item.address, r.answer);
            x.request == item.request && PinnedBy(told, x) && PostAttempt(s, r).accounts.peers == told
  {
    hide Advertise, Resolved, FinishOp;
    var item := s.queues.pending[0];
    if Judge(s.cfg, s.accounts.peers, item, item.address, r).Goes? {
      AdvertiseBinds(s.cfg.format, s.accounts.peers, item.request.client, item.address, r.answer);
    }
  }

  lemma QuiescingPins(s: State, r: PostReply, x: Item)
    requires s.queues.quiescing != [] && HasRead(s.queues.quiescing[0])
    requires InFlight(QuiesceAttempt(s, r).queues, x) && !InFlight(s.queues, x)
    ensures var item := s.queues.quiescing[0];
            var told := Advertise(s.cfg.format, s.accounts.peers, item.request.client, item.read.value.address.value,
                                  r.answer);
            x.request == item.request && PinnedBy(told, x) && QuiesceAttempt(s, r).accounts.peers == told
  {
    hide Advertise, Resolved, FinishOp;
    var item := s.queues.quiescing[0];
    if Judge(s.cfg, s.accounts.peers, item, item.read.value.address.value, r).Goes? {
      AdvertiseBinds(s.cfg.format, s.accounts.peers, item.request.client, item.read.value.address.value, r.answer);
    }
  }

  lemma OnlyPostingAdds(s: State, step: Step, x: Item)
    requires CanTake(s, step) && !step.PostNext? && !step.QuiesceNext? && InFlight(Next(s, step).queues, x)
    ensures InFlight(s.queues, x)
  {
    hide Advertise, Prepare, FinishOp, Introduced, RemoveOrDefer, Landed, IntoCompletion, NeedsRead;
  }

  /** An operation posted in this step was just resolved: its client is bound to the entry it was posted against. */
  lemma NewlyPostedIsPinned(s: State, step: Step, x: Item)
    requires CanTake(s, step) && InFlight(Next(s, step).queues, x) && !InFlight(s.queues, x)
    ensures PinnedBy(Next(s, step).accounts.peers, x)
  {
    hide Advertise, PostAttempt, QuiesceAttempt, Handled, Sorted, Reap, PoolDone, PinnedBy;
    match step
    case PostNext(r) => PostingPins(s.(phase := Posting(s.phase.attempts - 1)), r, x);
    case QuiesceNext(r) => QuiescingPins(s.(phase := Quiescing(s.phase.attempts - 1)), r, x);
    case _ => OnlyPostingAdds(s, step, x);
  }

  /** While nobody readvertises over an operation in flight, every one keeps the entry it was posted against. */
  lemma {:induction false} StepKeepsPinned(s: State, step: Step)
    requires Enabled(s, step) && Invariant(s) && Pinned(s) && Stable(s, step)
    ensures Pinned(Next(s, step))
  {
    hide Invariant, Next, Advertise, Answerable, PinnedBy, CanTake, InFlight, Agrees, Asked;
    forall x | InFlight(Next(s, step).queues, x)
      ensures PinnedBy(Next(s, step).accounts.peers, x)
    {
      if InFlight(s.queues, x) {
        StepKeepsOnePinned(s, step, x);
      } else {
        NewlyPostedIsPinned(s, step, x);
      }
    }
  }

  lemma StepKeepsOnePinned(s: State, step: Step, x: Item)
    requires Enabled(s, step) && Invariant(s) && PinnedBy(s.accounts.peers, x)
             && Agrees(s.cfg.format, x, Asked(s, step))
    requires InFlight(s.queues, x) && InFlight(Next(s, step).queues, x)
    ensures PinnedBy(Next(s, step).accounts.peers, x)
  {
    hide Invariant, Next, Advertise, AnswerPossible, OnWire, Target, CanTake, InFlight, WellFormed, Usable, Slot,
      OutstandingFor, ClientsAgree, Asked, Released;
    var asked := Asked(s, step);
    StepKeepsInvariant(s, step);
    PartsOf(s);
    PartsOf(Next(s, step));
    InFlightIsCounted(s, x);
    InFlightIsCounted(Next(s, step), x);
    PeersMoveExactly(s, step);
    ReleasedHasNothingLeft(s, step);
    TargetIsUsable(s.cfg.format, s.accounts.peers, x);
    PostedForItsAddress(s, x);
    if asked.About? {
      AdvertiseKeepsOthers(s.cfg.format, s.accounts.peers, asked.client, asked.address, asked.answer, x.request.client);
    }
  }

  /** Operations are posted against the bytes their request names. */
  lemma PostedForItsAddress(s: State, x: Item)
    requires Traced(s.cfg, s.inbox.requests, s.queues) && InFlight(s.queues, x)
    ensures OnWire(x) && Target(x).address == x.request.address
  {
    hide Genuine, Quiesces, PlannedRead;
  }

  /** In a run where every advertisement leaves the bytes of operations in flight alone, the handle each
      write or quiesce read was posted against stays in the address vector until the operation is reaped,
      however many clients share it and whenever removals arrive. */
  lemma {:induction false} InFlightHandlesStay(cfg: Config, states: seq<State>, steps: seq<Step>, i: nat)
    requires FromStart(cfg, states, steps) && i < |states|
    requires forall k | 0 <= k < |steps| :: Stable(states[k], steps[k])
    ensures Pinned(states[i])
    ensures forall x | InFlight(states[i].queues, x) :: OnWire(x) && HandleLive(states[i].accounts.peers, Target(x))
  {
    hide Next, Stable, Invariant, OnWire, Target;
    if 0 < i {
      InFlightHandlesStay(cfg, states, steps, i - 1);
      RunKeepsInvariant(cfg, states, steps, i - 1);
      StepKeepsPinned(states[i - 1], steps[i - 1]);
    }
  }

  // ----- What the hypothesis asks of callers -----

  /** Every client has one address, and clients whose addresses name one slot have the same one. */
  ghost predicate OneHome(format: AddressFormat, home: Client -> Address) {
    forall c: Client, d: Client :: SameSlot(format, home(c), home(d)) ==> home(c) == home(d)
  }

  predicate Homed(home: Client -> Address, m: Message) {
    match m
    case Transfer(request) => request.address == home(request.client)
    case AddPeer(c, address) => address == home(c)
    case RemovePeer(_) => true
  }

  ghost predicate AllHomed(home: Client -> Address, s: State) {
    && (forall m | m in s.inbox.channel :: Homed(home, m))
    && (forall r | r in s.inbox.requests :: r.address == home(r.client))
  }

  lemma ReceivingKeepsHomed(home: Client -> Address, s: State, answer: Option<Handle>)
    requires AllHomed(home, s) && s.inbox.channel != []
    ensures AllHomed(home, Handled(Popped(s), s.inbox.channel[0], answer))
  {
    hide Prepare, Introduced, RemoveOrDefer, Complete;
    var m := s.inbox.channel[0];
    assert m in s.inbox.channel;
    assert forall k | k in s.inbox.channel[1..] :: k in s.inbox.channel;
  }

  lemma StepKeepsHomed(home: Client -> Address, s: State, step: Step)
    requires CanTake(s, step) && AllHomed(home, s) && (step.Send? ==> Homed(home, step.message))
    ensures AllHomed(home, Next(s, step))
  {
    hide Handled, Advertise, Judge, FinishOp, Sorted, Reap, PoolDone, Homed;
    if step.Receive? {
      ReceivingKeepsHomed(home, s, step.answer);
    } else if step.ParkedReceive? {
      ReceivingKeepsHomed(home, s.(phase := Intake), step.answer);
    }
  }

  /** What the loop asks about is what some request or message named. */
  lemma AskedForHome(home: Client -> Address, s: State, step: Step)
    requires CanTake(s, step) && AllHomed(home, s) && Traced(s.cfg, s.inbox.requests, s.queues)
    ensures Asked(s, step).About? ==> Asked(s, step).address == home(Asked(s, step).client)
  {
    hide Prepare, OnFirst, OnRead, Back, Hashing, Honest, Begun, AwaitingRead;
    if step.PostNext? {
      assert Unposted(s.cfg, s.inbox.requests, s.queues.pending[0]);
    } else if step.QuiesceNext? {
      var item := s.queues.quiescing[0];
      assert item in s.queues.quiescing;
      ReadIsForTheRequest(s.cfg, s.inbox.requests, item);
    } else if s.inbox.channel != [] {
      assert Homed(home, s.inbox.channel[0]);
    }
  }

  lemma ReadIsForTheRequest(cfg: Config, requests: seq<Request>, item: Item)
    requires AwaitingRead(cfg, requests, item)
    ensures item.id < |requests| && item.request == requests[item.id]
    ensures item.read.Some? && item.read.value.address == Some(item.request.address)
  {}

  lemma InFlightIsHomed(home: Client -> Address, s: State, x: Item)
    requires AllHomed(home, s) && Traced(s.cfg, s.inbox.requests, s.queues) && InFlight(s.queues, x)
    ensures x.request.address == home(x.request.client)
  {
    hide Quiesces, Prepare, PlannedRead;
    assert Genuine(s.cfg, s.inbox.requests, x);
  }

  lemma HomesAreStable(home: Client -> Address, s: State, step: Step)
    requires Enabled(s, step) && Invariant(s) && AllHomed(home, s) && OneHome(s.cfg.format, home)
    ensures Stable(s, step)
  {
    hide Invariant, AllHomed, Answerable, CanTake, InFlight, Usable, Slot, Asked;
    PartsOf(s);
    AskedForHome(home, s, step);
    forall x | InFlight(s.queues, x)
      ensures Agrees(s.cfg.format, x, Asked(s, step))
    {
      InFlightIsHomed(home, s, x);
    }
  }

  lemma {:induction false} RunStaysHomed(
    cfg: Config, home: Client -> Address, states: seq<State>, steps: seq<Step>, i: nat)
    requires FromStart(cfg, states, steps) && i < |states|
    requires forall k | 0 <= k < |steps| :: steps[k].Send? ==> Homed(home, steps[k].message)
    ensures AllHomed(home, states[i])
  {
    hide Next, Homed;
    if 0 < i {
      RunStaysHomed(cfg, home, states, steps, i - 1);
      StepKeepsHomed(home, states[i - 1], steps[i - 1]);
    }
  }

  /** Callers that give every client one address, and one address to a slot, never pull a handle from under
      an operation in flight. */
  lemma {:induction false} OneAddressPerClientSuffices(
    cfg: Config, home: Client -> Address, states: seq<State>, steps: seq<Step>, i: nat)
    requires FromStart(cfg, states, steps) && i < |states| && OneHome(cfg.format, home)
    requires forall k | 0 <= k < |steps| :: steps[k].Send? ==> Homed(home, steps[k].message)
    ensures forall x | InFlight(states[i].queues, x) :: OnWire(x) && HandleLive(states[i].accounts.peers, Target(x))
  {
    hide Next, Stable, Invariant, OnWire, Target, Homed, OneHome, AllHomed;
    forall k | 0 <= k < |steps|
      ensures Stable(states[k], steps[k])
    {
      RunKeepsInvariant(cfg, states, steps, k);
      RunStaysHomed(cfg, home, states, steps, k);
      HomesAreStable(home, states[k], steps[k]);
    }
    InFlightHandlesStay(cfg, states, steps, i);
  }
}
