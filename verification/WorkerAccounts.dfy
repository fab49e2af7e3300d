/** The per-client tallies, the deferred removals and the peers through every step. */
module WorkerAccounts {
  import opened Basics
  import opened AddressTable
  import opened WorkerModel
  import opened WorkerQueues
  import opened WorkerInvariant
  import opened WorkerFlow
  import opened WorkerSteps

  function Raised(m: map<Client, nat>, c: Client): map<Client, nat> {
    m[c := (if c in m then m[c] else 0) + 1]
  }

  function Lowered(m: map<Client, nat>, c: Client): map<Client, nat> {
    var remaining := Saturating(if c in m then m[c] else 0, 1);
    if 0 < remaining then m[c := remaining] else m - {c}
  }

  /** Only intake and finishing touch the per-client counts. */
  lemma StepCounts(s: State, step: Step)
    requires CanTake(s, step)
    ensures var m, m' := s.accounts.byClient, Next(s, step).accounts.byClient;
            m' == if Joined(s, step).Some? then Raised(m, Joined(s, step).value)
                  else if Finished(s, step).Some? then Lowered(m, Finished(s, step).value) else m
  {
    hide Judge, Prepare, Reap, Sorted, PoolDone, Advertise, Retried, WriteOut, ReadBack, Complete, FinishOp, Raised,
      Lowered,
      Introduced, RemoveOrDefer, NeedsRead, Accept;
    match step
    case Receive(_) => HandlingCounts(Popped(s), s.inbox.channel[0], step.answer);
    case ParkedReceive(_) => HandlingCounts(Popped(s).(phase := Intake), s.inbox.channel[0], step.answer);
    case PostNext(r) =>
      FinishingLowers(Asking(s, s.queues.pending[0].request.client, s.queues.pending[0].address, r).accounts,
                      s.queues.pending[0].request.client);
    case QuiesceNext(r) =>
      var item := s.queues.quiescing[0];
      FinishingLowers(Asking(s, item.request.client, item.read.value.address.value, r).accounts, item.request.client);
    case Dispatch => FinishingLowers(s.accounts, s.queues.reaped[0].request.client);
    case _ =>
  }

  lemma FinishingLowers(a: Accounts, c: Client)
    ensures FinishOp(a, c).byClient == Lowered(a.byClient, c)
  {}

  lemma HandlingCounts(s: State, m: Message, answer: Option<Handle>)
    ensures Handled(s, m, answer).accounts.byClient
            == if m.Transfer? && Prepare(s.cfg, |s.inbox.requests|, m.request).Ready?
              then Raised(s.accounts.byClient, m.request.client)
               else s.accounts.byClient
  {
    hide Prepare, Complete, Advertise;
  }

  lemma CountsStayExact(m: map<Client, nat>, q: Queues, t: Queues, joined: Option<Client>, finished: Option<Client>)
    requires ClientsAgree(m, q) && (joined.Some? ==> finished.None?)
    requires forall c: Client :: OpsOf(t, c) + One(finished == Some(c)) == OpsOf(q, c) + One(joined == Some(c))
    ensures ClientsAgree(if joined.Some? then Raised(m, joined.value)
                         else if finished.Some? then Lowered(m, finished.value) else m, t)
  {
    hide OpsOf;
  }

  /** Advertising for a client adds at most that client. */
  lemma AdvertiseAddsOnly(format: AddressFormat, t: Table, c: Client, address: Address, answer: Option<Handle>)
    ensures Advertise(format, t, c, address, answer).Keys <= t.Keys + {c}
  {}

  lemma AskingKeepsRemovals(format: AddressFormat, a: Accounts, c: Client, address: Address, answer: Option<Handle>)
    requires RemovalsWait(a) && c in a.byClient
    ensures RemovalsWait(a.(peers := Advertise(format, a.peers, c, address, answer)))
  {
    hide Advertise;
    AdvertiseAddsOnly(format, a.peers, c, address, answer);
  }

  lemma FinishingKeepsRemovals(a: Accounts, c: Client)
    requires RemovalsWait(a) && c in a.byClient
    ensures RemovalsWait(FinishOp(a, c))
  {}

  lemma IntroducingKeepsRemovals(
    format: AddressFormat, a: Accounts, c: Client, address: Address, answer: Option<Handle>)
    requires RemovalsWait(a)
    ensures RemovalsWait(Introduced(format, a, c, address, answer))
  {
    hide Advertise;
    AdvertiseAddsOnly(format, a.peers, c, address, answer);
  }

  lemma RemovingKeepsRemovals(a: Accounts, c: Client)
    requires RemovalsWait(a) && (c in a.byClient ==> 0 < a.byClient[c])
    ensures RemovalsWait(RemoveOrDefer(a, c))
  {}

  lemma AcceptingKeepsRemovals(s: State, request: Request)
    requires RemovalsWait(s.accounts)
    ensures RemovalsWait(Accept(s, request).accounts)
  {
    hide Prepare, Complete;
  }

  /** An item in a queue is one of its client's operations. */
  lemma MemberIsOutstanding(q: Queues, x: Item)
    requires x in q.pending || x in q.quiescing || x in q.first || x in q.readBacks || x in q.reaped
    ensures 0 < OpsOf(q, x.request.client)
  {
    hide OpsOf;
    if x in q.pending { MemberIsBagged(q.pending, x); }
    else if x in q.quiescing { MemberIsBagged(q.quiescing, x); }
    else if x in q.first { MemberIsBagged(q.first, x); }
    else if x in q.readBacks { MemberIsBagged(q.readBacks, x); }
    else { MemberIsBagged(q.reaped, x); }
    BaggedIsOutstanding(q, x.request.client);
  }

  lemma MemberIsBagged(l: seq<Item>, x: Item)
    requires x in l
    ensures x.request.client in ClientBag(l)
  {
    var i :| 0 <= i < |l| && l[i] == x;
    assert Clients(l)[i] == x.request.client;
  }

  lemma BaggedIsOutstanding(q: Queues, c: Client)
    requires c in ClientBag(q.pending) || c in ClientBag(q.first) || c in ClientBag(q.quiescing)
             || c in ClientBag(q.readBacks) || c in ClientBag(q.reaped)
    ensures 0 < OpsOf(q, c)
  {
    hide ClientBag;
  }

  lemma StepKeepsRemovals(s: State, step: Step)
    requires CanTake(s, step) && ClientsAgree(s.accounts.byClient, s.queues) && RemovalsWait(s.accounts)
    ensures RemovalsWait(Next(s, step).accounts)
  {
    hide RemovalsWait, OpsOf, FinishOp, Advertise, Accept, RemoveOrDefer, Judge, Sorted, Reap, PoolDone, Complete;
    match step
    case BeginSubmit =>
      OutstandingIsNoRemoval(s.accounts, s.accounts.outstanding + 1);
    case Receive(answer) => HandlingKeepsRemovals(Popped(s), s.inbox.channel[0], answer);
    case ParkedReceive(answer) => HandlingKeepsRemovals(Popped(s).(phase := Intake), s.inbox.channel[0], answer);
    case PostNext(r) =>
      var item := s.queues.pending[0];
      MemberIsOutstanding(s.queues, item);
      AskingKeepsRemovals(s.cfg.format, s.accounts, item.request.client, item.address, r.answer);
      FinishingKeepsRemovals(s.accounts.(peers := Advertise(s.cfg.format, s.accounts.peers, item.request.client,
                                                            item.address, r.answer)),
                             item.request.client);
    case QuiesceNext(r) =>
      var item := s.queues.quiescing[0];
      MemberIsOutstanding(s.queues, item);
      AskingKeepsRemovals(s.cfg.format, s.accounts, item.request.client, item.read.value.address.value, r.answer);
      FinishingKeepsRemovals(s.accounts.(peers := Advertise(s.cfg.format, s.accounts.peers, item.request.client,
                                                            item.read.value.address.value, r.answer)),
                             item.request.client);
    case Dispatch =>
      MemberIsOutstanding(s.queues, s.queues.reaped[0]);
      FinishingKeepsRemovals(s.accounts, s.queues.reaped[0].request.client);
    case _ =>
  }

  lemma OutstandingIsNoRemoval(a: Accounts, n: nat)
    requires RemovalsWait(a)
    ensures RemovalsWait(a.(outstanding := n))
  {}

  lemma HandlingKeepsRemovals(s: State, message: Message, answer: Option<Handle>)
    requires ClientsAgree(s.accounts.byClient, s.queues) && RemovalsWait(s.accounts)
    ensures RemovalsWait(Handled(s, message, answer).accounts)
  {
    hide RemovalsWait, OpsOf, FinishOp, Advertise, Accept, RemoveOrDefer, Introduced;
    match message
    case Transfer(request) => AcceptingKeepsRemovals(s, request);
    case AddPeer(c, address) => IntroducingKeepsRemovals(s.cfg.format, s.accounts, c, address, answer);
    case RemovePeer(c) => RemovingKeepsRemovals(s.accounts, c);
  }

  // ----- The peers -----

  lemma FewerPeersStayWellFormed(format: AddressFormat, t: Table, gone: set<Client>)
    requires WellFormed(format, t)
    ensures WellFormed(format, t - gone)
  {}

  lemma FinishingKeepsPeers(format: AddressFormat, a: Accounts, c: Client)
    requires WellFormed(format, a.peers)
    ensures WellFormed(format, FinishOp(a, c).peers)
  {
    hide WellFormed;
    FewerPeersStayWellFormed(format, a.peers, {c});
  }

  lemma StepKeepsPeers(s: State, step: Step)
    requires Enabled(s, step) && WellFormed(s.cfg.format, s.accounts.peers)
    ensures WellFormed(s.cfg.format, Next(s, step).accounts.peers)
  {
    hide WellFormed, FinishOp, Advertise, AnswerPossible, Accept, Judge, Sorted, Reap, PoolDone, Complete;
    var format, peers := s.cfg.format, s.accounts.peers;
    var asked := Asked(s, step);
    if asked.About? {
      AdvertiseKeepsWellFormed(format, peers, asked.client, asked.address, asked.answer);
    }
    match step
    case Receive(_) => HandlingKeepsPeers(Popped(s), s.inbox.channel[0], asked);
    case ParkedReceive(_) => HandlingKeepsPeers(Popped(s).(phase := Intake), s.inbox.channel[0], asked);
    case PostNext(r) =>
      FinishingKeepsPeers(format, s.accounts.(peers := Advertise(format, peers, asked.client, asked.address,
                                                                 asked.answer)), asked.client);
    case QuiesceNext(r) =>
      FinishingKeepsPeers(format, s.accounts.(peers := Advertise(format, peers, asked.client, asked.address,
                                                                 asked.answer)), asked.client);
    case Dispatch => FinishingKeepsPeers(format, s.accounts, s.queues.reaped[0].request.client);
    case _ =>
  }

  lemma HandlingKeepsPeers(s: State, message: Message, asked: Question)
    requires WellFormed(s.cfg.format, s.accounts.peers)
    requires var format := s.cfg.format;
             asked.About? ==>
               WellFormed(format, Advertise(format, s.accounts.peers, asked.client, asked.address, asked.answer))
    requires message.AddPeer? ==> asked.About? && asked.client == message.client && asked.address == message.address
    ensures WellFormed(s.cfg.format, Handled(s, message, if asked.About? then asked.answer else None).accounts.peers)
  {
    hide WellFormed, Advertise, Prepare, Complete;
    match message
    case Transfer(request) =>
    case AddPeer(_, _) =>
    case RemovePeer(c) => FewerPeersStayWellFormed(s.cfg.format, s.accounts.peers, {c});
  }
}
