/** The effect of one whole step on the tallies: which transfer it receives, and which client gains or
    loses an outstanding operation. */
module WorkerSteps {
  import opened Basics
  import opened AddressTable
  import opened WorkerModel
  import opened WorkerQueues
  import opened WorkerInvariant
  import opened WorkerFlow

  /** The request the step takes off the channel. */
  function Arrival(s: State, step: Step): Option<Request> {
    if (step.Receive? || step.ParkedReceive?) && s.inbox.channel != [] && s.inbox.channel[0].Transfer?
    then Some(s.inbox.channel[0].request) else None
  }

  /** The client that gains an outstanding operation. */
  function Joined(s: State, step: Step): Option<Client> {
    var request := Arrival(s, step);
    if request.Some? && Prepare(s.cfg, |s.inbox.requests|, request.value).Ready? then Some(request.value.client)
      else None
  }

  /** The client one of whose operations finishes. */
  ghost function Finished(s: State, step: Step): Option<Client>
    requires CanTake(s, step)
  {
    match step
    case PostNext(r) =>
      var item := s.queues.pending[0];
      if Judge(s.cfg, s.accounts.peers, item, item.address, r).Fails? then Some(item.request.client) else None
    case QuiesceNext(r) =>
      var item := s.queues.quiescing[0];
      if Judge(s.cfg, s.accounts.peers, item, item.read.value.address.value, r).Fails? then Some(item.request.client)
        else None
    case Dispatch =>
      var item := s.queues.reaped[0];
      if NeedsRead(item) then None else Some(item.request.client)
    case _ => None
  }

  /** The tallies after `t` are those of `s`, with one request received or none, `joined` one operation up
      and `finished` one down, and no work made but what the request brought. */
  ghost predicate Tracks(
    s: State, t: State, arrived: bool, joined: Option<Client>, finished: Option<Client>, id: nat, c: Client)
  {
    && |t.inbox.requests| == |s.inbox.requests| + One(arrived)
    && PlacesOf(t.queues, id) == PlacesOf(s.queues, id) + One(arrived && id == |s.inbox.requests|)
    && OpsOf(t.queues, c) + One(finished == Some(c)) == OpsOf(s.queues, c) + One(joined == Some(c))
    && t.loop.moves + Work(t.queues) <= s.loop.moves + Work(s.queues) + 8 * One(arrived)
  }

  lemma AcceptTracks(s: State, request: Request, id: nat, c: Client)
    ensures var joined := if Prepare(s.cfg, |s.inbox.requests|, request).Ready? then Some(request.client) else None;
            Tracks(s, Accept(s, request), true, joined, None, id, c)
  {
    hide PlacesOf, OpsOf, Work, Prepare;
    match Prepare(s.cfg, |s.inbox.requests|, request)
    case Ready(item) =>
      PreparedKeepsName(s.cfg, |s.inbox.requests|, request);
      QueueFlow(s.queues, item, id, c);
    case Unprepared(reason) =>
      CompleteFlow(s.queues, Completion(|s.inbox.requests|, request, Failed(reason), []), id, c);
  }

  lemma PreparedKeepsName(cfg: Config, id: nat, request: Request)
    requires Prepare(cfg, id, request).Ready?
    ensures Prepare(cfg, id, request).item.id == id && Prepare(cfg, id, request).item.request == request
  {}

  lemma PostTracks(s: State, r: PostReply, id: nat, c: Client)
    requires s.queues.pending != []
    ensures var item := s.queues.pending[0];
            var finished := if Judge(s.cfg, s.accounts.peers, item, item.address, r).Fails?
              then Some(item.request.client) else None;
            Tracks(s, PostAttempt(s, r), false, None, finished, id, c)
  {
    hide PlacesOf, OpsOf, Work, Judge, FinishOp, Advertise;
    var item := s.queues.pending[0];
    var q := s.queues.(pending := s.queues.pending[1..]);
    PendingFlow(s.queues, id, c);
    match Judge(s.cfg, s.accounts.peers, item, item.address, r)
    case Fails(reason) => CompleteFlow(q, Completion(item.id, item.request, Failed(reason), item.trail), id, c);
    case Retries => QueueFlow(q, Retried(item, r.at), id, c);
    case Goes(peer) => FirstFlow(q, WriteOut(item, peer), id, c);
  }

  lemma QuiesceTracks(s: State, r: PostReply, id: nat, c: Client)
    requires s.queues.quiescing != [] && HasRead(s.queues.quiescing[0])
    ensures var item := s.queues.quiescing[0];
            var finished := if Judge(s.cfg, s.accounts.peers, item, item.read.value.address.value, r).Fails?
                            then Some(item.request.client) else None;
            Tracks(s, QuiesceAttempt(s, r), false, None, finished, id, c)
  {
    hide PlacesOf, OpsOf, Work, Judge, FinishOp, Advertise;
    var item := s.queues.quiescing[0];
    var q := s.queues.(quiescing := s.queues.quiescing[1..]);
    WaitingFlow(s.queues, id, c);
    match Judge(s.cfg, s.accounts.peers, item, item.read.value.address.value, r)
    case Fails(reason) => CompleteFlow(q, Completion(item.id, item.request, Failed(reason), item.trail), id, c);
    case Retries => AwaitFlow(q, Retried(item, r.at), id, c);
    case Goes(peer) => ReadBackFlow(q, ReadBack(item, item.read.value, peer), id, c);
  }

  lemma HandledTracks(s: State, message: Message, answer: Option<Handle>, id: nat, c: Client)
    ensures var request := if message.Transfer? then Some(message.request) else None;
            var joined := if request.Some? && Prepare(s.cfg, |s.inbox.requests|, request.value).Ready?
              then Some(request.value.client) else None;
            Tracks(s, Handled(s, message, answer), request.Some?, joined, None, id, c)
  {
    hide PlacesOf, OpsOf, Work, Prepare, Accept, Introduced, RemoveOrDefer;
    match message
    case Transfer(request) => AcceptTracks(s, request, id, c);
    case AddPeer(_, _) =>
    case RemovePeer(_) =>
  }

  /** Every step's effect on the tallies. */
  lemma StepTracks(s: State, step: Step, id: nat, c: Client)
    requires CanTake(s, step)
    requires step.ReapOne? && step.fromReads ==> s.queues.readBacks[step.index].read.None?
    ensures Tracks(s, Next(s, step), Arrival(s, step).Some?, Joined(s, step), Finished(s, step), id, c)
  {
    hide PlacesOf, OpsOf, Work, Judge, Prepare, Handled, PostAttempt, QuiesceAttempt, Reap, Sorted, FinishOp,
      PoolDone;
    match step
    case PoolFinish(job) => PoolFlow(s.cfg, s.queues, job, id, c);
    case Receive(answer) => HandledTracks(Popped(s), s.inbox.channel[0], answer, id, c);
    case ParkedReceive(answer) => HandledTracks(Popped(s).(phase := Intake), s.inbox.channel[0], answer, id, c);
    case PostNext(r) => PostTracks(s.(phase := Posting(s.phase.attempts - 1)), r, id, c);
    case QuiesceNext(r) => QuiesceTracks(s.(phase := Quiescing(s.phase.attempts - 1)), r, id, c);
    case ReapOne(fromReads, index, ok) => ReapFlow(s.queues, fromReads, index, ok, id, c);
    case Dispatch => SortFlow(s.cfg, s.queues, id, c);
    case Flush => FlushFlow(s.queues, id, c);
    case Batch => DeliverFlow(s.queues, id, c);
    case _ =>
  }
}
