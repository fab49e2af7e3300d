/** What libfabric saw of each transfer, through every step. */
module WorkerTraces {
  import opened Basics
  import opened AddressTable
  import opened WorkerModel
  import opened WorkerInvariant

  // ----- One transfer at a time -----

  lemma PreparedIsUnposted(cfg: Config, requests: seq<Request>, request: Request)
    requires Prepare(cfg, |requests|, request).Ready?
    ensures Unposted(cfg, requests + [request], Prepare(cfg, |requests|, request).item)
  {}

  lemma RetryChangesNothing(cfg: Config, requests: seq<Request>, item: Item, at: nat)
    ensures Unposted(cfg, requests, item) ==> Unposted(cfg, requests, Retried(item, at))
    ensures AwaitingRead(cfg, requests, item) ==> AwaitingRead(cfg, requests, Retried(item, at))
  {}

  lemma PostedIsOnFirst(cfg: Config, requests: seq<Request>, item: Item, peer: Binding)
    requires Unposted(cfg, requests, item) && peer.address == item.address
    ensures OnFirst(cfg, requests, WriteOut(item, peer))
  {}

  lemma QuiescedIsOnRead(cfg: Config, requests: seq<Request>, item: Item, peer: Binding)
    requires AwaitingRead(cfg, requests, item) && HasRead(item) && peer.address == item.read.value.address.value
    ensures OnRead(cfg, requests, ReadBack(item, item.read.value, peer))
  {}

  lemma LandedIsBack(cfg: Config, requests: seq<Request>, item: Item, ok: bool)
    requires OnFirst(cfg, requests, item) || OnRead(cfg, requests, item)
    ensures Back(cfg, requests, Landed(item, ok))
  {}

  lemma BackNeedsRead(cfg: Config, requests: seq<Request>, item: Item)
    requires Back(cfg, requests, item) && NeedsRead(item)
    ensures AwaitingRead(cfg, requests, item.(stalled := None))
  {}

  /** A completion built from a reaped transfer is honest: success was earned by its whole history. */
  lemma BackIsHonest(cfg: Config, requests: seq<Request>, item: Item)
    requires Back(cfg, requests, item) && !NeedsRead(item)
    ensures Honest(cfg, requests, IntoCompletion(cfg, item))
  {
    LengthIsTheOperands(cfg, requests, item);
    if item.ok {
      var bare := Item(item.id, item.request, item.length, item.request.address, None, None, true, item.trail);
      assert IsFirstPost(item, item.trail[0]) <==> IsFirstPost(bare, item.trail[0]);
    }
  }

  lemma LengthIsTheOperands(cfg: Config, requests: seq<Request>, item: Item)
    requires Genuine(cfg, requests, item)
    ensures item.request.operand.Some?
    ensures item.request.direction.ToPeer? ==> item.length == item.request.operand.value
    ensures Quiesces(cfg, item.request, item.length) <==> ReadsBack(cfg, item.request)
    ensures forall r: Reason :: !RefusedFor(cfg, item.request, r)
  {}

  /** Reasons an attempt to post fails for. */
  predicate OfAPost(reason: Reason) {
    reason in {NoPeer, NoRegistration, Refused, Stalled}
  }

  lemma FailureIsHonest(cfg: Config, requests: seq<Request>, item: Item, reason: Reason)
    requires Unposted(cfg, requests, item) || AwaitingRead(cfg, requests, item)
    requires OfAPost(reason)
    ensures Honest(cfg, requests, Completion(item.id, item.request, Failed(reason), item.trail))
  {
    LengthIsTheOperands(cfg, requests, item);
  }

  lemma JudgementsAreOfAPost(cfg: Config, peers: Table, item: Item, address: Address, r: PostReply)
    ensures var verdict := Judge(cfg, peers, item, address, r); verdict.Fails? ==> OfAPost(verdict.reason)
  {
    hide Resolved, Expired;
  }

  // ----- Whole queues -----

  lemma TracesOutliveRequests(cfg: Config, requests: seq<Request>, q: Queues, request: Request)
    requires Traced(cfg, requests, q)
    ensures Traced(cfg, requests + [request], q)
  {
    var more := requests + [request];
    forall x: Item
      ensures Genuine(cfg, requests, x) ==> Genuine(cfg, more, x)
    {}
    hide Genuine, IsFirstPost, IsReadBack, PlannedRead, Prepare, Proven;
  }

  lemma AcceptKeepsTraces(s: State, request: Request)
    requires Traced(s.cfg, s.inbox.requests, s.queues)
    ensures Traced(s.cfg, s.inbox.requests + [request], Accept(s, request).queues)
  {
    hide Unposted, OnFirst, AwaitingRead, OnRead, Back, Hashing, Honest, Prepare;
    TracesOutliveRequests(s.cfg, s.inbox.requests, s.queues, request);
    match Prepare(s.cfg, |s.inbox.requests|, request)
    case Ready(item) => PreparedIsUnposted(s.cfg, s.inbox.requests, request);
    case Unprepared(reason) => RejectionIsHonest(s.cfg, s.inbox.requests, request, reason);
  }

  /** Intake refuses a transfer exactly for its reasons. */
  lemma RefusedExactlyFor(cfg: Config, id: nat, request: Request, reason: Reason)
    ensures Prepare(cfg, id, request) == Unprepared(reason) <==> RefusedFor(cfg, request, reason)
  {}

  lemma IntakesReasons(cfg: Config, request: Request, reason: Reason)
    requires RefusedFor(cfg, request, reason)
    ensures OfIntake(reason)
  {}

  lemma RejectionIsHonest(cfg: Config, requests: seq<Request>, request: Request, reason: Reason)
    requires Prepare(cfg, |requests|, request) == Unprepared(reason)
    ensures Honest(cfg, requests + [request], Completion(|requests|, request, Failed(reason), []))
  {
    hide Prepare, ReadsBack, RefusedFor;
    forall r: Reason
      ensures RefusedFor(cfg, request, r) <==> r == reason
    {
      RefusedExactlyFor(cfg, |requests|, request, r);
    }
    IntakesReasons(cfg, request, reason);
  }

  lemma PostKeepsTraces(s: State, r: PostReply)
    requires Traced(s.cfg, s.inbox.requests, s.queues) && s.queues.pending != []
    ensures Traced(s.cfg, s.inbox.requests, PostAttempt(s, r).queues)
  {
    hide Unposted, OnFirst, AwaitingRead, OnRead, Back, Hashing, Honest, Advertise, Resolved, Expired, FinishOp,
      WriteOut, Retried;
    var cfg, requests, item := s.cfg, s.inbox.requests, s.queues.pending[0];
    JudgementsAreOfAPost(cfg, s.accounts.peers, item, item.address, r);
    match Judge(cfg, s.accounts.peers, item, item.address, r)
    case Fails(reason) => FailureIsHonest(cfg, requests, item, reason);
    case Retries => RetryChangesNothing(cfg, requests, item, r.at);
    case Goes(peer) => PostedIsOnFirst(cfg, requests, item, peer);
  }

  lemma QuiesceKeepsTraces(s: State, r: PostReply)
    requires Traced(s.cfg, s.inbox.requests, s.queues) && s.queues.quiescing != [] && HasRead(s.queues.quiescing[0])
    ensures Traced(s.cfg, s.inbox.requests, QuiesceAttempt(s, r).queues)
  {
    hide Unposted, OnFirst, AwaitingRead, OnRead, Back, Hashing, Honest, Advertise, Resolved, Expired, FinishOp,
      ReadBack, Retried;
    var cfg, requests, item := s.cfg, s.inbox.requests, s.queues.quiescing[0];
    JudgementsAreOfAPost(cfg, s.accounts.peers, item, item.read.value.address.value, r);
    match Judge(cfg, s.accounts.peers, item, item.read.value.address.value, r)
    case Fails(reason) => FailureIsHonest(cfg, requests, item, reason);
    case Retries => RetryChangesNothing(cfg, requests, item, r.at);
    case Goes(peer) => QuiescedIsOnRead(cfg, requests, item, peer);
  }

  lemma ReapKeepsTraces(cfg: Config, requests: seq<Request>, q: Queues, fromReads: bool, index: nat, ok: bool)
    requires Traced(cfg, requests, q) && index < |if fromReads then q.readBacks else q.first|
    ensures Traced(cfg, requests, Reap(q, fromReads, index, ok))
  {
    hide Unposted, OnFirst, AwaitingRead, OnRead, Back, Hashing, Honest, Landed;
    LandedIsBack(cfg, requests, if fromReads then q.readBacks[index] else q.first[index], ok);
  }

  lemma SortKeepsTraces(cfg: Config, requests: seq<Request>, q: Queues)
    requires Traced(cfg, requests, q) && q.reaped != []
    ensures Traced(cfg, requests, Sorted(cfg, q))
  {
    hide Unposted, OnFirst, AwaitingRead, OnRead, Back, Honest, IntoCompletion;
    var item := q.reaped[0];
    if NeedsRead(item) {
      BackNeedsRead(cfg, requests, item);
    } else {
      BackIsHonest(cfg, requests, item);
    }
  }

  lemma PoolKeepsTraces(cfg: Config, requests: seq<Request>, q: Queues, job: nat)
    requires Traced(cfg, requests, q) && job < |q.pool|
    ensures Traced(cfg, requests, PoolDone(cfg, q, job))
  {
    hide Unposted, OnFirst, AwaitingRead, OnRead, Back, Honest, IntoCompletion;
    assert Hashing(cfg, requests, q.pool[job]);
    BackIsHonest(cfg, requests, q.pool[job]);
  }

  lemma FlushKeepsTraces(cfg: Config, requests: seq<Request>, q: Queues)
    requires Traced(cfg, requests, q)
    ensures Traced(cfg, requests, q.(pool := q.pool + q.crc, crc := []))
    ensures Traced(cfg, requests, q.(delivered := q.delivered + q.completions, completions := []))
  {
    hide Unposted, OnFirst, AwaitingRead, OnRead, Back, Hashing, Honest;
  }

  lemma HandlingKeepsTraces(s: State, message: Message, answer: Option<Handle>)
    requires Traced(s.cfg, s.inbox.requests, s.queues)
    ensures var t := Handled(s, message, answer); Traced(t.cfg, t.inbox.requests, t.queues)
  {
    hide Traced, Introduced, RemoveOrDefer, Prepare;
    if message.Transfer? {
      AcceptKeepsTraces(s, message.request);
    }
  }

  lemma StepKeepsTraces(s: State, step: Step)
    requires CanTake(s, step) && Traced(s.cfg, s.inbox.requests, s.queues)
    ensures var t := Next(s, step); Traced(t.cfg, t.inbox.requests, t.queues)
  {
    hide Traced, Handled, Judge, Advertise, FinishOp, Sorted, Reap, PoolDone, PostAttempt, QuiesceAttempt;
    match step
    case PoolFinish(job) => PoolKeepsTraces(s.cfg, s.inbox.requests, s.queues, job);
    case Receive(answer) => ReceivingKeepsTraces(Popped(s), s.inbox.channel[0], answer);
    case ParkedReceive(answer) => ReceivingKeepsTraces(Popped(s).(phase := Intake), s.inbox.channel[0], answer);
    case PostNext(r) => PostingKeepsTraces(s.(phase := Posting(s.phase.attempts - 1)), r);
    case QuiesceNext(r) => QuiescingKeepsTraces(s.(phase := Quiescing(s.phase.attempts - 1)), r);
    case ReapOne(fromReads, index, ok) => ReapKeepsTraces(s.cfg, s.inbox.requests, s.queues, fromReads, index, ok);
    case Dispatch => SortKeepsTraces(s.cfg, s.inbox.requests, s.queues);
    case Flush => FlushKeepsTraces(s.cfg, s.inbox.requests, s.queues);
    case Batch => FlushKeepsTraces(s.cfg, s.inbox.requests, s.queues);
    case _ =>
  }

  lemma ReceivingKeepsTraces(s: State, message: Message, answer: Option<Handle>)
    requires Traced(s.cfg, s.inbox.requests, s.queues)
    ensures var t := Handled(s, message, answer); Traced(t.cfg, t.inbox.requests, t.queues)
  {
    hide Traced;
    HandlingKeepsTraces(s, message, answer);
  }

  lemma PostingKeepsTraces(s: State, r: PostReply)
    requires Traced(s.cfg, s.inbox.requests, s.queues) && s.queues.pending != []
    ensures var t := PostAttempt(s, r); Traced(t.cfg, t.inbox.requests, t.queues)
  {
    hide Traced, Judge, Advertise, FinishOp;
    PostKeepsTraces(s, r);
  }

  lemma QuiescingKeepsTraces(s: State, r: PostReply)
    requires Traced(s.cfg, s.inbox.requests, s.queues) && s.queues.quiescing != [] && HasRead(s.queues.quiescing[0])
    ensures var t := QuiesceAttempt(s, r); Traced(t.cfg, t.inbox.requests, t.queues)
  {
    hide Traced, Judge, Advertise, FinishOp;
    QuiesceKeepsTraces(s, r);
  }
}
