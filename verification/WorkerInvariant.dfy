/** What holds between any two steps of any run of the worker. */
module WorkerInvariant {
  import opened Basics
  import opened AddressTable
  import opened WorkerModel
  import opened WorkerQueues

  // ----- Where transfers are -----

  /** How many places hold a transfer, counting each time. */
  ghost function PlacesOf(q: Queues, id: nat): nat {
    IdBag(q.pending)[id] + IdBag(q.first)[id] + IdBag(q.quiescing)[id] + IdBag(q.readBacks)[id] + IdBag(q.reaped)[id]
    + IdBag(q.crc)[id] + IdBag(q.pool)[id] + CompletedBag(q.completions)[id] + CompletedBag(q.delivered)[id]
  }

  /** How many of a client's operations are still outstanding. */
  ghost function OpsOf(q: Queues, c: Client): nat {
    ClientBag(q.pending)[c] + ClientBag(q.first)[c] + ClientBag(q.quiescing)[c] + ClientBag(q.readBacks)[c]
      + ClientBag(q.reaped)[c]
  }

  /** Every received transfer is in exactly one place, exactly once. */
  ghost predicate Tallied(q: Queues, received: nat) {
    forall id: nat :: PlacesOf(q, id) == if id < received then 1 else 0
  }

  // ----- Counters -----

  function OutstandingOps(q: Queues): nat {
    |q.pending| + |q.first| + |q.quiescing| + |q.readBacks| + |q.reaped|
  }

  function TransfersIn(channel: seq<Message>): nat {
    if channel == [] then 0 else (if channel[0].Transfer? then 1 else 0) + TransfersIn(channel[1..])
  }

  /** `in_flight` is what libfabric holds: operations posted and not yet reaped. */
  ghost predicate InFlightAgrees(s: State) {
    s.loop.inFlight == |s.queues.first| + |s.queues.readBacks| + (if s.phase.Reaping? then |s.queues.reaped| else 0)
  }

  /** What is ready to be read names operations in flight, each once. */
  ghost predicate ReadyAgrees(entries: seq<CqEntry>, q: Queues) {
    ReadyBag(entries) <= IdBag(q.first) + IdBag(q.readBacks)
  }

  /** The shared tally is every transfer handed over and not yet finished. */
  ghost predicate OutstandingAgrees(s: State) {
    s.accounts.outstanding == s.inbox.submitting + TransfersIn(s.inbox.channel) + OutstandingOps(s.queues)
  }

  ghost predicate ClientsAgree(byClient: map<Client, nat>, q: Queues) {
    forall c: Client :: (c in byClient <==> 0 < OpsOf(q, c)) && (c in byClient ==> byClient[c] == OpsOf(q, c))
  }

  // ----- Removal -----

  /** A removal waits only for outstanding operations, and a departed client's entry only for its removal. */
  ghost predicate RemovalsWait(a: Accounts) {
    && a.removal <= a.byClient.Keys
    && (forall c | c in a.departed && c in a.byClient :: c in a.removal)
    && (forall c | c in a.departed && c in a.peers :: c in a.byClient)
  }

  // ----- Control -----

  /** Each pass covers what its queue held, and what it found at its end still holds. */
  ghost predicate Scheduled(s: State) {
    && (s.queues.reaped != [] ==> s.phase.Reaping? || s.phase.Dispatching?)
    && |s.queues.reaped| <= TARGET_COMPLETIONS
    && (s.phase.Posting? ==> s.phase.attempts <= |s.queues.pending|)
    && (s.phase.Quiescing? ==> s.phase.attempts <= |s.queues.quiescing|)
    && (s.phase.Batching? || s.phase.Deciding? ==> s.phase.idle == Idle(s) && (s.phase.idle ==> s.queues.crc == []))
  }

  /** Nothing is held back at a park or at the end, and completions wait at most so many passes. */
  ghost predicate Settled(s: State) {
    && s.loop.spins <= MAX_SPINS
    && (s.queues.completions == [] ==> s.loop.spins == 0)
    && (s.phase.Deciding? ==> s.queues.completions == [])
    && (s.phase.Parked? || s.phase.Stopped? ==> Idle(s) && s.queues.completions == [] && s.queues.crc == [])
    && (s.inbox.closed ==> s.inbox.submitting == 0)
    && (s.loop.disconnected ==> s.inbox.closed && s.inbox.channel == [])
    && (s.phase.Stopped? ==> s.inbox.closed && s.inbox.channel == [])
  }

  /** The checksummed batch stays short of the target outside the stretch from dispatch to flush. */
  ghost predicate BatchBounded(s: State) {
    if s.phase.Dispatching? then |s.queues.crc| + |s.queues.reaped| < 2 * TARGET_COMPLETIONS
    else if s.phase.Quiescing? || s.phase.Flushing? then |s.queues.crc| < 2 * TARGET_COMPLETIONS
    else |s.queues.crc| < TARGET_COMPLETIONS
  }

  ghost predicate PipelineBounded(s: State) {
    && |s.queues.first| <= s.cfg.cap
    && (!s.cfg.quiesceWrites ==> s.queues.quiescing == [] && s.queues.readBacks == [] && s.loop.inFlight <= s.cfg.cap)
  }

  /** With room for one operation, a pass that leaves anything unfinished moved, retried or polled something. */
  ghost predicate Productive(s: State) {
    0 < s.cfg.cap && !s.loop.progress ==>
      match s.phase
      case Posting(attempts) => attempts == |s.queues.pending|
      case Reaping => (s.queues.pending == [] || 0 < s.loop.inFlight) && s.queues.reaped == []
      case Dispatching => s.queues.pending == [] && s.loop.inFlight == 0 && s.queues.reaped == []
      case Quiescing(attempts) => s.queues.pending == [] && s.loop.inFlight == 0 && attempts == |s.queues.quiescing|
      case Flushing => Idle(s)
      case Batching(_) => Idle(s)
      case Deciding(_) => Idle(s)
      case _ => true
  }

  // ----- Work -----

  /** A weight that falls with every operation posted, reaped or failed, and rises only at intake. */
  function Work(q: Queues): nat {
    8 * |q.pending| + 7 * |q.first| + Load(q.reaped) + 5 * |q.quiescing| + 4 * |q.readBacks|
    + 2 * |q.crc| + 2 * |q.completions| + |q.pool|
  }

  ghost predicate WorkBounded(s: State) {
    s.loop.moves + Work(s.queues) <= 8 * |s.inbox.requests|
  }

  // ----- What libfabric saw -----

  /** The item is the transfer it claims to be, prepared as intake prepares it. */
  ghost predicate Genuine(cfg: Config, requests: seq<Request>, item: Item) {
    && item.id < |requests|
    && item.request == requests[item.id]
    && Prepare(cfg, item.id, item.request).Ready?
    && item.length == Prepare(cfg, item.id, item.request).item.length
  }

  predicate IsFirstPost(item: Item, e: Event) {
    && e.Posted? && e.peer.address == item.request.address
    && e == FirstPost(item, e.peer)
  }

  predicate IsReadBack(item: Item, e: Event) {
    && e.Posted? && e.verb.Read? && e.peer.address == item.request.address && e.key == item.request.key
    && e.remote == item.request.remote + item.length - 1 && e.length == 1
  }

  ghost predicate Unposted(cfg: Config, requests: seq<Request>, item: Item) {
    && Genuine(cfg, requests, item) && item.trail == [] && item.address == item.request.address
    && item.read == PlannedRead(cfg, item.request, item.length, None)
  }

  ghost predicate Begun(cfg: Config, requests: seq<Request>, item: Item) {
    && Genuine(cfg, requests, item) && item.trail != [] && IsFirstPost(item, item.trail[0])
  }

  ghost predicate OnFirst(cfg: Config, requests: seq<Request>, item: Item) {
    && Begun(cfg, requests, item) && |item.trail| == 1
    && item.read == PlannedRead(cfg, item.request, item.length, Some(item.request.address))
  }

  ghost predicate AwaitingRead(cfg: Config, requests: seq<Request>, item: Item) {
    && Begun(cfg, requests, item) && |item.trail| == 2 && item.trail[1] == Reaped(true)
    && item.read.Some? && item.read == PlannedRead(cfg, item.request, item.length, Some(item.request.address))
  }

  ghost predicate OnRead(cfg: Config, requests: seq<Request>, item: Item) {
    && Begun(cfg, requests, item) && |item.trail| == 3 && item.trail[1] == Reaped(true)
    && IsReadBack(item, item.trail[2])
    && item.read.None? && Quiesces(cfg, item.request, item.length)
  }

  ghost predicate Back(cfg: Config, requests: seq<Request>, item: Item) {
    || (Begun(cfg, requests, item) && |item.trail| == 2 && item.trail[1] == Reaped(item.ok)
        && item.read == PlannedRead(cfg, item.request, item.length, Some(item.request.address)))
    || (Begun(cfg, requests, item) && |item.trail| == 4 && item.trail[1] == Reaped(true)
          && IsReadBack(item, item.trail[2])
        && item.trail[3] == Reaped(item.ok) && item.read.None? && Quiesces(cfg, item.request, item.length))
  }

  ghost predicate Hashing(cfg: Config, requests: seq<Request>, item: Item) {
    Back(cfg, requests, item) && item.request.wantChecksum && !(item.ok && item.read.Some?)
  }

  /** The history a successful transfer must have: its own operation completed and, for a quiesced write,
      the read of its last byte posted after that and completed too. */
  ghost predicate Proven(cfg: Config, id: nat, request: Request, length: nat, trail: seq<Event>) {
    var item := Item(id, request, length, request.address, None, None, true, trail);
    if Quiesces(cfg, request, length) then
      && |trail| == 4 && IsFirstPost(item, trail[0]) && trail[1] == Reaped(true)
      && IsReadBack(item, trail[2]) && request.remote + length - 1 < U64 && trail[3] == Reaped(true)
    else
      && |trail| == 2 && IsFirstPost(item, trail[0]) && trail[1] == Reaped(true)
  }

  /** A write to a peer's memory that is done only once it has been read back. */
  predicate ReadsBack(cfg: Config, request: Request) {
    cfg.quiesceWrites && request.direction.ToPeer? && request.operand.Some? && 0 < request.operand.value
  }

  /** Why a transfer is refused at intake: its context has no operand for it, or a shorter one than was asked for, or
      its last byte, which would be read back, lies past the address space. */
  predicate RefusedFor(cfg: Config, request: Request, reason: Reason) {
    match reason
    case NoOperand => request.operand.None?
    case ShortBuffer =>
      request.direction.FromPeer? && request.operand.Some? && request.operand.value < request.direction.length
    case RangeOverflows => ReadsBack(cfg, request) && U64 < request.remote + request.operand.value
    case _ => false
  }

  predicate OfIntake(reason: Reason) {
    reason in {NoOperand, ShortBuffer, RangeOverflows}
  }

  /** The outcome is what libfabric's events say: a success is a transfer whose last event is a good completion, its
      read back's if it has to be read back; a completion error is one whose last event is a bad completion; and a
      reason of intake's is the answer exactly when it applies, before anything was posted. */
  ghost predicate Reports(cfg: Config, c: Completion) {
    var n := |c.trail|;
    && (c.outcome.Done? <==> 0 < n && c.trail[n - 1] == Reaped(true) && (ReadsBack(cfg, c.request) ==> n == 4))
    && (c.outcome == Failed(CompletionError) <==> 0 < n && c.trail[n - 1] == Reaped(false))
    && (forall r: Reason | OfIntake(r) :: c.outcome == Failed(r) <==> RefusedFor(cfg, c.request, r))
    && (c.outcome.Failed? && OfIntake(c.outcome.reason) ==> n == 0)
    && c.outcome != Failed(WorkerGone)
  }

  /** A completion tells the truth about its transfer. */
  ghost predicate Honest(cfg: Config, requests: seq<Request>, c: Completion) {
    && c.id < |requests|
    && c.request == requests[c.id]
    && Reports(cfg, c)
    && (c.outcome.Done? ==>
          && Prepare(cfg, c.id, c.request).Ready?
          && c.outcome.bytes == Prepare(cfg, c.id, c.request).item.length
          && c.outcome.checksum == (if c.request.wantChecksum then Some(cfg.digest(c.id)) else None)
          && Proven(cfg, c.id, c.request, c.outcome.bytes, c.trail))
  }

  ghost predicate Traced(cfg: Config, requests: seq<Request>, q: Queues) {
    && (forall x | x in q.pending :: Unposted(cfg, requests, x))
    && (forall x | x in q.first :: OnFirst(cfg, requests, x))
    && (forall x | x in q.quiescing :: AwaitingRead(cfg, requests, x))
    && (forall x | x in q.readBacks :: OnRead(cfg, requests, x))
    && (forall x | x in q.reaped :: Back(cfg, requests, x))
    && (forall x | x in q.crc :: Hashing(cfg, requests, x))
    && (forall x | x in q.pool :: Hashing(cfg, requests, x))
    && (forall c | c in q.completions :: Honest(cfg, requests, c))
    && (forall c | c in q.delivered :: Honest(cfg, requests, c))
  }

  ghost predicate Invariant(s: State) {
    && Tallied(s.queues, |s.inbox.requests|)
    && InFlightAgrees(s) && ReadyAgrees(s.cq.entries, s.queues)
    && OutstandingAgrees(s) && ClientsAgree(s.accounts.byClient, s.queues)
    && RemovalsWait(s.accounts) && WellFormed(s.cfg.format, s.accounts.peers)
    && Scheduled(s) && Settled(s) && BatchBounded(s) && PipelineBounded(s) && Productive(s) && WorkBounded(s)
    && Traced(s.cfg, s.inbox.requests, s.queues)
  }

  lemma InitiallyHolds(cfg: Config)
    ensures Invariant(Initial(cfg))
  {
    BagsOfEmpty();
    assert ReadyIds([]) == [];
  }
}
