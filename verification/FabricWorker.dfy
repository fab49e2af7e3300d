/** The fabric worker as it runs: one loop that owns every transfer, updating its queues, tallies and peers
    in place. Each of its moves is a step of `WorkerModel`, and the object keeps the run so far, so what
    every run keeps is what this loop keeps. */
module FabricWorker {
  import opened Basics
  import opened AddressTable
  import opened WorkerModel
  import opened WorkerQueues
  import opened WorkerInvariant
  import opened WorkerTheorems
  import opened WorkerBounds
  import opened WorkerPolls
  import PeerAddresses

  /** How a call of `Run` ended: the loop returned, is blocked on its channel, or used up its passes. */
  datatype Ending = Returned | Blocked | Unfinished

  /** How one time round the loop ends. */
  datatype Turn = Around | Parks | Leaves

  /** What libfabric was asked for one transfer's operation, and what it answered. */
  datatype Ask = Registers(id: nat, registered: bool) | Posts(id: nat, code: Code)

  class FabricWorker {
    const cfg: Config
    const peers: PeerAddresses.PeerAddresses

    // The channel, and the submitters between raising the tally and sending.
    var channel: seq<Message>
    var closed: bool
    var submitting: nat
    var outstanding: nat
    // The loop's own.
    var now: nat
    var outstandingByClient: map<Client, nat>
    var pendingRemoval: set<Client>
    var pending: seq<Item>
    var quiescing: seq<Item>
    var inFlight: nat
    var reaped: seq<Item>
    var disconnected: bool
    var completions: seq<Completion>
    var crcPending: seq<Item>
    var drainSpins: nat
    var posted: nat
    var reapedAny: bool
    // Libfabric's, until reaped.
    var first: seq<Item>
    var readBacks: seq<Item>
    /** The completion queue: what is ready, in order, and whether the next read of it fails. */
    var cq: seq<CqEntry>
    var cqFault: bool
    // The pool's, and what was handed to the completion hook.
    var pool: seq<Item>
    var delivered: seq<Completion>

    /** Every request received: a transfer's number is its place here. */
    var requests: seq<Request>

    ghost var departed: set<Client>
    ghost var phase: Phase
    ghost var moves: nat
    ghost var progress: bool
    /** What libfabric was asked for each operation, and its answers. */
    ghost var asked: seq<Ask>
    ghost var states: seq<State>
    ghost var steps: seq<Step>

    ghost function InboxNow(): Inbox
      reads `channel, `closed, `submitting, `requests
    {
      Inbox(channel, closed, submitting, requests)
    }

    ghost function QueuesNow(): Queues
      reads `pending, `first, `quiescing, `readBacks, `reaped, `crcPending, `pool, `completions, `delivered
    {
      Queues(pending, first, quiescing, readBacks, reaped, crcPending, pool, completions, delivered)
    }

    ghost function AccountsNow(): Accounts
      reads `outstanding, `outstandingByClient, `pendingRemoval, `departed, peers
    {
      Accounts(outstanding, outstandingByClient, pendingRemoval, departed, peers.Table())
    }

    ghost function LoopNow(): Loop
      reads `inFlight, `posted, `reapedAny, `disconnected, `drainSpins, `moves, `progress
    {
      Loop(inFlight, posted, reapedAny, disconnected, drainSpins, moves, progress)
    }

    ghost function CqNow(): CompletionQueue
      reads `cq, `cqFault
    {
      CompletionQueue(cq, cqFault)
    }

    ghost function Now(): State
      reads this, peers
    {
      State(cfg, phase, now, InboxNow(), QueuesNow(), AccountsNow(), LoopNow(), CqNow())
    }

    /** The run so far is one of the model's, and ends here. */
    ghost predicate Valid()
      reads this, peers
    {
      && peers.Valid() && peers.format == cfg.format
      && EndsAt(cfg, states, steps, Now())
    }

    /** The run went on from the steps taken so far, with so many turns of the loop; where it stands follows from its
        steps. */
    ghost predicate Continues(taken: seq<Step>, turns: nat)
      reads `steps
    {
      taken <= steps && TurnsIn(steps) == TurnsIn(taken) + turns
    }

    lemma ValidMeans()
      requires Valid()
      ensures peers.Valid() && peers.format == cfg.format && EndsAt(cfg, states, steps, Now())
    {}

    constructor (cfg: Config)
      ensures Valid() && Now() == Initial(cfg) && fresh(peers)
    {
      hide PeerAddresses.PeerAddresses.Valid, PeerAddresses.PeerAddresses.Table, Next, CanTake, Answerable;
      this.cfg := cfg;
      peers := new PeerAddresses.PeerAddresses(cfg.format);
      channel, closed, submitting, outstanding, now := [], false, 0, 0, 0;
      outstandingByClient, pendingRemoval, pending, quiescing, inFlight := map[], {}, [], [], 0;
      reaped, disconnected, completions, crcPending, drainSpins := [], false, [], [], 0;
      posted, reapedAny, first, readBacks, pool, delivered := 0, false, [], [], [], [];
      requests, departed, phase, moves, progress := [], {}, Intake, 0, false;
      cq, cqFault := [], false;
      states, steps, asked := [Initial(cfg)], [], [];
    }

    /** Record the step just taken from `before`. */
    ghost method Note(before: State, step: Step)
      requires peers.Valid() && peers.format == cfg.format && EndsAt(cfg, states, steps, before)
      requires Enabled(before, step) && Now() == Next(before, step)
      modifies `states, `steps
      ensures Valid() && steps == old(steps) + [step]
      ensures Continues(old(steps), if IsTurn(step) then 1 else 0)
    {
      hide PeerAddresses.PeerAddresses.Valid, PeerAddresses.PeerAddresses.Table, Next, CanTake, Answerable;
      PathGrows(states, steps, step);
      assert (steps + [step])[..|steps|] == steps;
      states, steps := states + [Now()], steps + [step];
    }

    /** Whatever holds of every run holds here. */
    lemma NowHolds()
      requires Valid()
      ensures Invariant(Now())
    {
      hide Invariant, Next, CanTake, Answerable, PeerAddresses.PeerAddresses.Valid,
        PeerAddresses.PeerAddresses.Table, Now;
      RunKeepsInvariant(cfg, states, steps, |steps|);
    }

    // ----- The threads around the loop -----

    /** Submitters, the closing server, the pool and libfabric, any number of times. */
    method OtherThreads()
      requires Valid()
      modifies `channel, `closed, `submitting, `outstanding, `pool, `delivered, `cq, `cqFault, `states, `steps
      ensures Valid() && Continues(old(steps), 0) && (old(closed) ==> closed && channel == old(channel))
              && old(cq) <= cq
    {
      hide Valid;
      var turns: nat := *;
      while 0 < turns
        invariant Valid() && Continues(old(steps), 0) && old(cq) <= cq
        invariant old(closed) ==> closed && channel == old(channel)
      {
        OneOther();
        turns := turns - 1;
      }
    }

    method OneOther()
      requires Valid()
      modifies `channel, `closed, `submitting, `outstanding, `pool, `delivered, `cq, `cqFault, `states, `steps
      ensures Valid() && Continues(old(steps), 0) && (old(closed) ==> closed && channel == old(channel))
              && old(cq) <= cq
    {
      hide Valid;
      if
      case !closed => BeginSubmit();
      case !closed =>
        var message: Message := *;
        if message.Transfer? ==> 0 < submitting {
          Send(message);
        }
      case !closed && submitting == 0 => Close();
      case pool != [] =>
        var job: nat :| job < |pool|;
        FinishJob(job);
      case first != [] || readBacks != [] =>
        var ofReads: bool := *;
        ofReads := first == [] || (readBacks != [] && ofReads);
        var place: nat :| place < |if ofReads then readBacks else first|;
        var result: bool := *;
        if Unqueued(cq, (if ofReads then readBacks else first)[place].id) {
          EndOperation(ofReads, place, result);
        }
      case !cqFault => FailReads();
      case true =>
    }

    /** Libfabric is done with an operation, well or badly, and says so on its completion queue. */
    method EndOperation(ofReads: bool, place: nat, result: bool)
      requires Valid() && place < |if ofReads then readBacks else first|
      requires Unqueued(cq, (if ofReads then readBacks else first)[place].id)
      modifies `cq, `states, `steps
      ensures Valid() && steps == old(steps) + [FabricDone(ofReads, place, result)] && old(cq) <= cq
      ensures Continues(old(steps), 0)
    {
      hide Valid, EndsAt, TurnsIn, PeerAddresses.PeerAddresses.Valid, PeerAddresses.PeerAddresses.Table, PostAttempt,
        QuiesceAttempt, Handled, DispatchOne, FlushCrc, DeliverBatch, DecideNext, Reap, PoolDone, Unqueued;
      ValidMeans();
      ghost var before := Now();
      cq := cq + [CqEntry((if ofReads then readBacks else first)[place].id, result)];
      Note(before, FabricDone(ofReads, place, result));
    }

    /** The queue will fail to be read, once. */
    method FailReads()
      requires Valid() && !cqFault
      modifies `cqFault, `states, `steps
      ensures Valid() && steps == old(steps) + [FabricFault]
      ensures Continues(old(steps), 0)
    {
      hide Valid, EndsAt, TurnsIn, PeerAddresses.PeerAddresses.Valid, PeerAddresses.PeerAddresses.Table, PostAttempt,
        QuiesceAttempt, Handled, DispatchOne, FlushCrc, DeliverBatch, DecideNext, Reap, PoolDone;
      ValidMeans();
      ghost var before := Now();
      cqFault := true;
      Note(before, FabricFault);
    }

    /** A submitter raises the tally before it sends. */
    method BeginSubmit()
      requires Valid() && !closed
      modifies `submitting, `outstanding, `states, `steps
      ensures Valid() && steps == old(steps) + [WorkerModel.BeginSubmit]
      ensures Continues(old(steps), 0)
    {
      hide Valid, EndsAt, TurnsIn, PeerAddresses.PeerAddresses.Valid, PeerAddresses.PeerAddresses.Table, PostAttempt,
        QuiesceAttempt, Handled, DispatchOne, FlushCrc,
        DeliverBatch, DecideNext, Reap, PoolDone, CqNow;
      ValidMeans();
      ghost var before := Now();
      submitting, outstanding := submitting + 1, outstanding + 1;
      Note(before, WorkerModel.BeginSubmit);
    }

    method Send(message: Message)
      requires Valid() && !closed && (message.Transfer? ==> 0 < submitting)
      modifies `submitting, `channel, `states, `steps
      ensures Valid() && steps == old(steps) + [WorkerModel.Send(message)]
      ensures Continues(old(steps), 0)
    {
      hide Valid, EndsAt, TurnsIn, PeerAddresses.PeerAddresses.Valid, PeerAddresses.PeerAddresses.Table, PostAttempt,
        QuiesceAttempt, Handled, DispatchOne, FlushCrc,
        DeliverBatch, DecideNext, Reap, PoolDone, CqNow;
      ValidMeans();
      ghost var before := Now();
      submitting := if message.Transfer? then submitting - 1 else submitting;
      channel := channel + [message];
      Note(before, WorkerModel.Send(message));
    }

    /** The server drops its sender. */
    method Close()
      requires Valid() && !closed && submitting == 0
      modifies `closed, `states, `steps
      ensures Valid() && steps == old(steps) + [WorkerModel.Close]
      ensures Continues(old(steps), 0)
    {
      hide Valid, EndsAt, TurnsIn, PeerAddresses.PeerAddresses.Valid, PeerAddresses.PeerAddresses.Table, PostAttempt,
        QuiesceAttempt, Handled, DispatchOne, FlushCrc,
        DeliverBatch, DecideNext, Reap, PoolDone;
      ValidMeans();
      ghost var before := Now();
      closed := true;
      Note(before, WorkerModel.Close);
    }

    /** A pool thread hashes one payload and hands its completion over. */
    method FinishJob(job: nat)
      requires Valid() && job < |pool|
      modifies `pool, `delivered, `states, `steps
      ensures Valid() && steps == old(steps) + [PoolFinish(job)]
      ensures Continues(old(steps), 0)
    {
      hide Valid, EndsAt, TurnsIn, PeerAddresses.PeerAddresses.Valid, PeerAddresses.PeerAddresses.Table, PostAttempt,
        QuiesceAttempt, Handled, DispatchOne, FlushCrc,
        DeliverBatch, DecideNext, Reap, IntoCompletion;
      ValidMeans();
      ghost var before := Now();
      delivered := delivered + [IntoCompletion(cfg, pool[job])];
      pool := Without(pool, job);
      Note(before, PoolFinish(job));
    }

    // ----- Helpers of the loop -----

    ghost method MoveTo(next: Phase)
      modifies `phase
      ensures Now() == old(Now()).(phase := next)
    {
      hide PeerAddresses.PeerAddresses.Valid, PeerAddresses.PeerAddresses.Table, InboxNow, QueuesNow, AccountsNow,
        LoopNow;
      phase := next;
    }

    /** A client has left: its entry goes now, or its last operation will take it. */
    method RemoveOrDefer(client: Client)
      requires peers.Valid()
      modifies peers, `pendingRemoval, `departed
      ensures peers.Valid() && AccountsNow() == WorkerModel.RemoveOrDefer(old(AccountsNow()), client)
    {
      hide PeerAddresses.PeerAddresses.Valid, PeerAddresses.PeerAddresses.Table;
      departed := departed + {client};
      if (if client in outstandingByClient then outstandingByClient[client] else 0) == 0 {
        peers.Release(client);
      } else {
        pendingRemoval := pendingRemoval + {client};
      }
    }

    /** Account one finished operation against its client, removing the peer with its last when a removal waits. */
    method FinishOp(client: Client)
      requires peers.Valid()
      modifies peers, `outstanding, `outstandingByClient, `pendingRemoval
      ensures peers.Valid() && AccountsNow() == WorkerModel.FinishOp(old(AccountsNow()), client)
    {
      hide PeerAddresses.PeerAddresses.Valid, PeerAddresses.PeerAddresses.Table;
      outstanding := Saturating(outstanding, 1);
      var remaining := 0;
      if client in outstandingByClient {
        remaining := Saturating(outstandingByClient[client], 1);
        outstandingByClient := outstandingByClient[client := remaining];
      }
      if remaining == 0 {
        outstandingByClient := outstandingByClient - {client};
        if client in pendingRemoval {
          pendingRemoval := pendingRemoval - {client};
          peers.Release(client);
        }
      }
    }

    /** Hand a completion to the batch. */
    method PushCompletion(completion: Completion)
      modifies `completions
      ensures QueuesNow() == Complete(old(QueuesNow()), completion)
    {
      completions := completions + [completion];
    }

    ghost method CountMove()
      modifies `moves, `progress
      ensures LoopNow() == Moved(old(LoopNow()))
    {
      moves, progress := moves + 1, true;
    }

    /** Fail an operation libfabric does not hold. */
    method FinishUnreaped(item: Item, reason: Reason)
      requires peers.Valid()
      modifies peers, `outstanding, `outstandingByClient, `pendingRemoval, `completions, `moves, `progress
      ensures peers.Valid() && Now() == Unreaped(old(Now()), item, reason)
    {
      hide PeerAddresses.PeerAddresses.Valid, PeerAddresses.PeerAddresses.Table, InboxNow, QueuesNow, AccountsNow,
        LoopNow, WorkerModel.FinishOp, Complete, Moved, CqNow;
      PushCompletion(WorkerModel.Completion(item.id, item.request, Failed(reason), item.trail));
      CountMove();
      FinishOp(item.request.client);
    }

    /** A request arrives; its client is with us again. */
    method Arrive(request: Request) returns (id: nat)
      modifies `requests, `departed
      ensures id == |old(InboxNow()).requests|
      ensures InboxNow() == old(InboxNow()).(requests := old(InboxNow()).requests + [request])
      ensures AccountsNow() == old(AccountsNow()).(departed := old(AccountsNow()).departed - {request.client})
    {
      hide PeerAddresses.PeerAddresses.Valid, PeerAddresses.PeerAddresses.Table;
      id := |requests|;
      requests, departed := requests + [request], departed - {request.client};
    }

    method CountIn(client: Client)
      modifies `outstandingByClient
      ensures AccountsNow() == old(AccountsNow()).(
                byClient := old(AccountsNow()).byClient[client := OutstandingFor(old(AccountsNow()), client) + 1])
    {
      hide PeerAddresses.PeerAddresses.Valid, PeerAddresses.PeerAddresses.Table;
      var count := if client in outstandingByClient then outstandingByClient[client] else 0;
      outstandingByClient := outstandingByClient[client := count + 1];
    }

    /** One transfer fewer on this device. */
    method ReleaseOutstanding()
      modifies `outstanding
      ensures AccountsNow() == old(AccountsNow()).(outstanding := Saturating(old(AccountsNow()).outstanding, 1))
    {
      hide PeerAddresses.PeerAddresses.Valid, PeerAddresses.PeerAddresses.Table;
      outstanding := Saturating(outstanding, 1);
    }

    method PushPending(item: Item)
      modifies `pending
      ensures QueuesNow() == old(QueuesNow()).(pending := old(QueuesNow()).pending + [item])
    {
      pending := pending + [item];
    }

    /** Intake of one transfer: it waits for its post if its context has an operand for it, and fails otherwise. */
    method Accept(request: Request)
      modifies `outstanding, `outstandingByClient, `pending, `completions, `requests, `departed
      ensures Now() == WorkerModel.Accept(old(Now()), request)
    {
      hide PeerAddresses.PeerAddresses.Valid, PeerAddresses.PeerAddresses.Table, Prepare, InboxNow, QueuesNow,
        AccountsNow, LoopNow, Complete, OutstandingFor, CqNow;
      var id := Arrive(request);
      match Prepare(cfg, id, request) {
        case Ready(item) =>
          CountIn(request.client);
          PushPending(item);
        case Unprepared(reason) =>
          ReleaseOutstanding();
          PushCompletion(WorkerModel.Completion(id, request, Failed(reason), []));
      }
    }

    /** Insert an address advertised outside any transfer; the clone is dropped at once. */
    method AddPeer(client: Client, address: Address) returns (ghost answer: Option<Handle>)
      requires peers.Valid() && peers.format == cfg.format
      modifies peers, `departed
      ensures peers.Valid() && AnswerPossible(cfg.format, old(peers.Table()), client, address, answer)
      ensures AccountsNow() == Introduced(cfg.format, old(AccountsNow()), client, address, answer)
    {
      hide PeerAddresses.PeerAddresses.Valid, PeerAddresses.PeerAddresses.Table, PeerAddresses.PeerAddresses.Lent,
        Advertise, AnswerPossible, Resolved;
      var held;
      held, answer := peers.Handle(client, address);
      if held.Some? {
        peers.Return(held.value);
      }
      departed := departed - {client};
    }

    /** `fi_mr_reg` under the cache, or a hit there: the operand is registered, or cannot be. */
    method RegisterOperand(id: nat) returns (registered: bool)
      modifies `asked
      ensures asked == old(asked) + [Registers(id, registered)]
    {
      registered := *;
      asked := asked + [Registers(id, registered)];
    }

    /** `fi_writemsg` or `fi_read`: libfabric takes the operation, has no room for it, or refuses it. */
    method PostToFabric(id: nat) returns (code: Code)
      modifies `asked
      ensures asked == old(asked) + [Posts(id, code)]
    {
      code := *;
      asked := asked + [Posts(id, code)];
    }

    /** `Instant::now`. */
    method ReadClock()
      modifies `now
      ensures old(now) <= now
    {
      var later: nat :| now <= later;
      now := later;
    }

    /** Post one operation against `address`: resolve the peer, register the operand, hand the post to
        libfabric. An EAGAIN reads the clock. The peer's clone is dropped before this returns. Each is asked only once
        what comes before it went well, and the answers are the ones given. */
    method Post(item: Item, address: Address) returns (verdict: Verdict, ghost reply: PostReply)
      requires peers.Valid() && peers.format == cfg.format
      modifies peers, `now, `asked
      ensures peers.Valid() && old(now) <= now && reply.at == now
      ensures AnswerPossible(cfg.format, old(peers.Table()), item.request.client, address, reply.answer)
      ensures peers.Table() == Advertise(cfg.format, old(peers.Table()), item.request.client, address, reply.answer)
      ensures verdict == Judge(cfg, old(peers.Table()), item, address, reply)
      ensures asked == old(asked) + AsksOf(cfg, old(peers.Table()), item, address, reply)
    {
      hide PeerAddresses.PeerAddresses.Valid, PeerAddresses.PeerAddresses.Table, PeerAddresses.PeerAddresses.Lent,
        Advertise, AnswerPossible, Resolved, Expired;
      var held;
      ghost var answer;
      held, answer := peers.Handle(item.request.client, address);
      if held.None? {
        return Fails(NoPeer), PostReply(answer, false, Rejected, now);
      }
      var handle := peers.peer[held.value];
      var code := Rejected;
      var registered := RegisterOperand(item.id);
      if !registered {
        verdict := Fails(NoRegistration);
      } else {
        code := PostToFabric(item.id);
        match code {
          case Accepted => verdict := Goes(Binding(handle, address));
          case Rejected => verdict := Fails(Refused);
          case Again =>
            ReadClock();
            verdict := if Expired(cfg, item, now) then Fails(Stalled) else Retries;
        }
      }
      peers.Return(held.value);
      reply := PostReply(answer, registered, code, now);
    }

    // ----- One pass -----

    method PopMessage() returns (message: Message)
      requires channel != []
      modifies `channel
      ensures message == old(channel[0]) && |channel| == old(|channel|) - 1 && Now() == Popped(old(Now()))
    {
      hide PeerAddresses.PeerAddresses.Valid, PeerAddresses.PeerAddresses.Table, QueuesNow, AccountsNow, LoopNow;
      message := channel[0];
      channel := channel[1..];
    }

    /** Act on one message. */
    method HandleMessage(message: Message) returns (ghost answer: Option<Handle>)
      requires peers.Valid() && peers.format == cfg.format
      modifies peers, `outstanding, `outstandingByClient, `pending, `completions, `requests, `departed, `pendingRemoval
      ensures peers.Valid() && Now() == Handled(old(Now()), message, answer)
      ensures message.AddPeer? ==> AnswerPossible(cfg.format, old(peers.Table()), message.client, message.address,
                                                  answer)
    {
      hide PeerAddresses.PeerAddresses.Valid, PeerAddresses.PeerAddresses.Table, InboxNow, QueuesNow, LoopNow,
        Advertise, AnswerPossible, WorkerModel.Accept, Introduced, WorkerModel.RemoveOrDefer, CqNow;
      answer := None;
      match message {
        case Transfer(request) => Accept(request);
        case AddPeer(client, address) => answer := AddPeer(client, address);
        case RemovePeer(client) => RemoveOrDefer(client);
      }
    }

    /** One message off the channel. */
    method Receive() returns (ghost answer: Option<Handle>)
      requires Valid() && channel != [] && (phase.Intake? || phase.Parked?)
      modifies this, peers
      ensures Valid()
      ensures steps == old(steps) + [if old(phase).Parked? then ParkedReceive(answer) else WorkerModel.Receive(answer)]
      ensures Continues(old(steps), if old(phase).Parked? then 1 else 0)
      ensures phase == Intake && |channel| == old(|channel|) - 1
    {
      hide Valid, EndsAt, TurnsIn, PeerAddresses.PeerAddresses.Valid, PeerAddresses.PeerAddresses.Table, Handled,
        AnswerPossible, Popped, CqNow;
      ValidMeans();
      ghost var before := Now();
      MoveTo(Intake);
      var message := PopMessage();
      answer := HandleMessage(message);
      NextReceive(before, Now(), answer);
      Note(before, if before.phase.Parked? then ParkedReceive(answer) else WorkerModel.Receive(answer));
    }

    method CloseIntake()
      modifies `disconnected, `posted
      ensures LoopNow() == old(LoopNow()).(disconnected := old(LoopNow()).disconnected || closed, posted := 0)
    {
      disconnected, posted := disconnected || closed, 0;
    }

    /** The channel is empty: remember whether it is closed, and begin to post. */
    method EndIntake()
      requires Valid() && phase.Intake? && channel == []
      modifies `disconnected, `posted, `phase, `states, `steps
      ensures Valid() && steps == old(steps) + [NoMessage]
      ensures Continues(old(steps), 1)
      ensures phase == Posting(|pending|)
    {
      hide Valid, EndsAt, TurnsIn, PeerAddresses.PeerAddresses.Valid, PeerAddresses.PeerAddresses.Table, AccountsNow,
        LoopNow,
        PostAttempt, QuiesceAttempt, Handled, DispatchOne, FlushCrc, DeliverBatch, DecideNext, Reap, PoolDone, CqNow;
      ValidMeans();
      ghost var before := Now();
      CloseIntake();
      MoveTo(Posting(|pending|));
      Note(before, NoMessage);
    }

    method CountPosted()
      modifies `inFlight, `posted, `moves, `progress
      ensures LoopNow() == PostedOne(old(LoopNow()))
    {
      inFlight, posted, moves, progress := inFlight + 1, posted + 1, moves + 1, true;
    }

    /** Libfabric took the operation. */
    method Posted(item: Item, peer: Binding)
      modifies `first, `inFlight, `posted, `moves, `progress
      ensures Now() == PostConcluded(old(Now()), item, Goes(peer), now)
    {
      hide PeerAddresses.PeerAddresses.Valid, PeerAddresses.PeerAddresses.Table, InboxNow, AccountsNow, LoopNow,
        WriteOut, PostedOne, CqNow;
      first := first + [WriteOut(item, peer)];
      CountPosted();
    }

    /** It had no room: the transfer goes to the back of its queue. */
    method Requeue(item: Item)
      modifies `pending, `progress
      ensures Now() == PostConcluded(old(Now()), item, Retries, now)
    {
      hide PeerAddresses.PeerAddresses.Valid, PeerAddresses.PeerAddresses.Table, InboxNow, AccountsNow, Retried;
      pending, progress := pending + [Retried(item, now)], true;
    }

    method PopPending() returns (item: Item)
      requires pending != []
      modifies `pending
      ensures item == old(pending[0])
      ensures Now() == old(Now()).(queues := old(QueuesNow()).(pending := old(pending)[1..]))
    {
      hide PeerAddresses.PeerAddresses.Valid, PeerAddresses.PeerAddresses.Table, InboxNow, AccountsNow, LoopNow;
      item := pending[0];
      pending := pending[1..];
    }

    /** Try to post the transfer at the head of the queue. */
    method PostHead() returns (ghost reply: PostReply)
      requires peers.Valid() && peers.format == cfg.format && pending != []
      modifies peers, `first, `inFlight, `posted, `pending, `outstanding, `outstandingByClient,
        `pendingRemoval, `completions, `moves, `progress, `now, `asked
      ensures peers.Valid() && Now() == PostAttempt(old(Now()), reply) && old(now) <= reply.at
      ensures AnswerPossible(cfg.format, old(peers.Table()), old(pending[0]).request.client, old(pending[0]).address,
                             reply.answer)
    {
      hide PeerAddresses.PeerAddresses.Valid, PeerAddresses.PeerAddresses.Table, InboxNow, LoopNow, Advertise,
        AnswerPossible, Judge, PostConcluded, CqNow;
      var item := PopPending();
      var verdict;
      verdict, reply := Post(item, item.address);
      FailingConcludes(Now(), item, now);
      match verdict {
        case Goes(peer) => Posted(item, peer);
        case Retries => Requeue(item);
        case Fails(reason) => FinishUnreaped(item, reason);
      }
    }

    method PostNext() returns (ghost reply: PostReply)
      requires Valid() && phase.Posting? && 0 < phase.attempts && inFlight < cfg.cap && pending != []
      modifies this, peers
      ensures Valid() && steps == old(steps) + [WorkerModel.PostNext(reply)]
      ensures Continues(old(steps), 0)
      ensures phase == Posting(old(phase.attempts) - 1)
    {
      hide Valid, EndsAt, TurnsIn, PeerAddresses.PeerAddresses.Valid, PeerAddresses.PeerAddresses.Table, Advertise,
        AnswerPossible, PostAttempt;
      ValidMeans();
      ghost var before := Now();
      MoveTo(Posting(phase.attempts - 1));
      reply := PostHead();
      NextPost(before, Now(), reply);
      Note(before, WorkerModel.PostNext(reply));
    }

    /** The pass over the queue is over, or the pipeline is full. */
    method EndPosting()
      requires Valid() && phase.Posting? && (phase.attempts == 0 || cfg.cap <= inFlight)
      modifies `phase, `states, `steps
      ensures Valid() && steps == old(steps) + [PostingDone]
      ensures Continues(old(steps), 0)
      ensures phase == Reaping
    {
      hide Valid, EndsAt, TurnsIn, PeerAddresses.PeerAddresses.Valid, PeerAddresses.PeerAddresses.Table, QueuesNow,
        AccountsNow, PostAttempt, QuiesceAttempt, Handled, DispatchOne, FlushCrc, DeliverBatch, DecideNext, Reap,
        PoolDone;
      ValidMeans();
      ghost var before := Now();
      MoveTo(Reaping);
      Note(before, PostingDone);
    }

    method TakeFirst(index: nat, ok: bool)
      requires index < |first|
      modifies `first, `reaped
      ensures QueuesNow() == Reap(old(QueuesNow()), false, index, ok)
      ensures reaped == old(reaped) + [Landed(old(first)[index], ok)]
    {
      hide Landed;
      reaped := reaped + [Landed(first[index], ok)];
      first := Without(first, index);
    }

    method TakeRead(index: nat, ok: bool)
      requires index < |readBacks|
      modifies `readBacks, `reaped
      ensures QueuesNow() == Reap(old(QueuesNow()), true, index, ok)
      ensures reaped == old(reaped) + [Landed(old(readBacks)[index], ok)]
    {
      hide Landed;
      reaped := reaped + [Landed(readBacks[index], ok)];
      readBacks := Without(readBacks, index);
    }

    /** The operation a completion names: libfabric hands its context back. */
    method Recover(id: nat) returns (fromReads: bool, index: nat)
      requires (exists x :: x in first && x.id == id) || (exists x :: x in readBacks && x.id == id)
      ensures index < |if fromReads then readBacks else first|
      ensures (if fromReads then readBacks else first)[index].id == id
    {
      fromReads := exists k | 0 <= k < |readBacks| :: readBacks[k].id == id;
      if fromReads {
        index :| index < |readBacks| && readBacks[index].id == id;
      } else {
        index :| index < |first| && first[index].id == id;
      }
    }

    method PopEntry() returns (entry: CqEntry)
      requires cq != []
      modifies `cq
      ensures entry == old(cq[0]) && cq == old(cq)[1..]
      ensures CqNow() == old(CqNow()).(entries := old(cq)[1..])
    {
      entry := cq[0];
      cq := cq[1..];
    }

    /** Take the head of the completion queue and the operation it names. */
    method TakeHead() returns (fromReads: bool, index: nat)
      requires cq != []
      requires (exists x :: x in first && x.id == cq[0].id) || (exists x :: x in readBacks && x.id == cq[0].id)
      modifies `first, `readBacks, `reaped, `cq, `moves, `progress
      ensures index < |if fromReads then old(readBacks) else old(first)|
      ensures (if fromReads then old(readBacks) else old(first))[index].id == old(cq[0]).id
      ensures QueuesNow() == Reap(old(QueuesNow()), fromReads, index, old(cq[0]).ok)
      ensures LoopNow() == Moved(old(LoopNow())) && CqNow() == old(CqNow()).(entries := old(cq)[1..])
      ensures EntriesOf(reaped) == EntriesOf(old(reaped)) + [old(cq[0])]
    {
      hide Moved, EntriesOf, Reap;
      var entry := PopEntry();
      fromReads, index := Recover(entry.id);
      Take(fromReads, index, entry.ok);
      CountMove();
    }

    /** One completion read off the queue, with its own result. */
    method ReapOne() returns (ghost fromReads: bool, ghost index: nat)
      requires Valid() && phase.Reaping? && |reaped| < TARGET_COMPLETIONS && !cqFault && cq != []
      modifies `first, `readBacks, `reaped, `cq, `moves, `progress, `states, `steps
      ensures Valid() && steps == old(steps) + [WorkerModel.ReapOne(fromReads, index, old(cq[0]).ok)]
      ensures Continues(old(steps), 0)
      ensures cq == old(cq)[1..] && EntriesOf(reaped) == EntriesOf(old(reaped)) + [old(cq[0])]
    {
      hide Valid, EndsAt, TurnsIn, PeerAddresses.PeerAddresses.Valid, PeerAddresses.PeerAddresses.Table, InboxNow,
        AccountsNow,
        LoopNow, Moved, EntriesOf, Next, Enabled, Reap;
      ValidMeans();
      HeadIsOnTheWire();
      ghost var before := Now();
      ghost var entry := cq[0];
      var ofReads, place := TakeHead();
      fromReads, index := ofReads, place;
      NextReap(before, Now(), fromReads, index, entry.ok);
      Note(before, WorkerModel.ReapOne(fromReads, index, entry.ok));
    }

    method Take(fromReads: bool, index: nat, ok: bool)
      requires index < |if fromReads then readBacks else first|
      modifies `first, `readBacks, `reaped
      ensures QueuesNow() == Reap(old(QueuesNow()), fromReads, index, ok)
      ensures EntriesOf(reaped) == EntriesOf(old(reaped))
                                   + [CqEntry(old(if fromReads then readBacks else first)[index].id, ok)]
    {
      hide EntriesOf, Landed, Reap;
      if fromReads {
        LandingIsRead(reaped, readBacks[index], ok);
        TakeRead(index, ok);
      } else {
        LandingIsRead(reaped, first[index], ok);
        TakeFirst(index, ok);
      }
    }

    lemma FaultWasGiven()
      requires Valid() && cqFault
      ensures FabricFault in steps
    {
      hide Next, CanTake, Answerable, PeerAddresses.PeerAddresses.Valid, PeerAddresses.PeerAddresses.Table, InboxNow,
        QueuesNow, AccountsNow, LoopNow;
      FaultsAreGiven(cfg, states, steps, |steps|);
      assert steps[..|steps|] == steps;
    }

    lemma HeadIsOnTheWire()
      requires Valid() && cq != []
      ensures (exists x :: x in first && x.id == cq[0].id) || (exists x :: x in readBacks && x.id == cq[0].id)
    {
      hide Valid, Invariant, PeerAddresses.PeerAddresses.Valid, PeerAddresses.PeerAddresses.Table;
      NowHolds();
      ReadyIsOnTheWire(Now());
    }

    method CloseReap()
      modifies `inFlight, `reapedAny, `progress
      ensures LoopNow() == old(LoopNow()).(
                inFlight := Saturating(old(LoopNow()).inFlight, |reaped|), reapedAny := reaped != [],
                progress := old(LoopNow()).progress || 0 < old(LoopNow()).inFlight)
    {
      progress := progress || 0 < inFlight;
      inFlight, reapedAny := Saturating(inFlight, |reaped|), reaped != [];
    }

    method ForgetFault()
      modifies `cqFault
      ensures CqNow() == old(CqNow()).(fault := old(CqNow()).fault && TARGET_COMPLETIONS <= |reaped|)
    {
      cqFault := cqFault && TARGET_COMPLETIONS <= |reaped|;
    }

    method LeaveReap()
      modifies `inFlight, `reapedAny, `progress, `cqFault, `phase
      ensures var s := old(Now());
              Now() == s.(phase := Dispatching,
                          loop := s.loop.(inFlight := Saturating(s.loop.inFlight, |s.queues.reaped|),
                                          reapedAny := s.queues.reaped != [],
                                          progress := s.loop.progress || 0 < s.loop.inFlight),
                          cq := s.cq.(fault := s.cq.fault && TARGET_COMPLETIONS <= |s.queues.reaped|))
    {
      hide PeerAddresses.PeerAddresses.Valid, PeerAddresses.PeerAddresses.Table, InboxNow, AccountsNow, LoopNow, CqNow;
      CloseReap();
      ForgetFault();
      MoveTo(Dispatching);
    }

    /** Take what was reaped off the pipeline's depth. */
    method EndReap()
      requires Valid() && phase.Reaping? && (TARGET_COMPLETIONS <= |reaped| || cqFault || cq == [])
      modifies `inFlight, `reapedAny, `progress, `cqFault, `phase, `states, `steps
      ensures Valid() && steps == old(steps) + [ReapDone]
      ensures Continues(old(steps), 0)
      ensures phase == Dispatching
    {
      hide Valid, EndsAt, TurnsIn, PeerAddresses.PeerAddresses.Valid, PeerAddresses.PeerAddresses.Table, InboxNow,
        AccountsNow, LoopNow, Next, Enabled;
      ValidMeans();
      ghost var before := Now();
      LeaveReap();
      NextReapDone(before, Now());
      Note(before, ReapDone);
    }

    /** Where a reaped transfer goes. */
    method Sort()
      requires reaped != []
      modifies `reaped, `quiescing, `crcPending, `completions
      ensures QueuesNow() == Sorted(cfg, old(QueuesNow()))
    {
      hide IntoCompletion, NeedsRead;
      var item := reaped[0];
      reaped := reaped[1..];
      if NeedsRead(item) {
        quiescing := quiescing + [item.(stalled := None)];
      } else if item.request.wantChecksum {
        crcPending := crcPending + [item];
      } else {
        completions := completions + [IntoCompletion(cfg, item)];
      }
    }

    /** Where a reaped transfer goes, and its client's account unless its quiesce read is still to come. */
    method SettleReaped(item: Item)
      requires peers.Valid() && reaped != [] && reaped[0] == item
      modifies peers, `reaped, `quiescing, `crcPending, `completions, `outstanding, `outstandingByClient,
               `pendingRemoval
      ensures peers.Valid() && Now() == DispatchOne(old(Now()))
    {
      hide PeerAddresses.PeerAddresses.Valid, PeerAddresses.PeerAddresses.Table, InboxNow, AccountsNow, LoopNow,
        NeedsRead, WorkerModel.FinishOp, Sorted;
      Sort();
      if !NeedsRead(item) {
        FinishOp(item.request.client);
      }
    }

    /** Send one reaped transfer on, and account it unless its quiesce read is still to come. */
    method DispatchHead()
      requires Valid() && phase.Dispatching? && reaped != []
      modifies peers, `reaped, `quiescing, `crcPending, `completions, `outstanding, `outstandingByClient,
               `pendingRemoval,
        `states, `steps
      ensures Valid() && steps == old(steps) + [Dispatch]
      ensures Continues(old(steps), 0)
      ensures |reaped| == old(|reaped|) - 1
    {
      hide Valid, EndsAt, TurnsIn, PeerAddresses.PeerAddresses.Valid, PeerAddresses.PeerAddresses.Table, DispatchOne;
      ValidMeans();
      ghost var before := Now();
      SettleReaped(reaped[0]);
      NextDispatch(before, Now());
      Note(before, Dispatch);
    }

    method EndDispatch()
      requires Valid() && phase.Dispatching? && reaped == []
      modifies `phase, `states, `steps
      ensures Valid() && steps == old(steps) + [DispatchDone]
      ensures Continues(old(steps), 0)
      ensures phase == Quiescing(|quiescing|)
    {
      hide Valid, EndsAt, TurnsIn, PeerAddresses.PeerAddresses.Valid, PeerAddresses.PeerAddresses.Table, AccountsNow,
        PostAttempt, QuiesceAttempt, Handled, DispatchOne, FlushCrc, DeliverBatch, DecideNext, Reap, PoolDone;
      ValidMeans();
      ghost var before := Now();
      MoveTo(Quiescing(|quiescing|));
      Note(before, DispatchDone);
    }

    /** Libfabric took the quiesce read. */
    method PostedRead(item: Item, peer: Binding)
      requires item.read.Some?
      modifies `readBacks, `inFlight, `posted, `moves, `progress
      ensures Now() == QuiesceConcluded(old(Now()), item, Goes(peer), now)
    {
      hide PeerAddresses.PeerAddresses.Valid, PeerAddresses.PeerAddresses.Table, InboxNow, AccountsNow, LoopNow,
        ReadBack, PostedOne, CqNow;
      readBacks := readBacks + [ReadBack(item, item.read.value, peer)];
      CountPosted();
    }

    method RequeueRead(item: Item)
      requires item.read.Some?
      modifies `quiescing, `progress
      ensures Now() == QuiesceConcluded(old(Now()), item, Retries, now)
    {
      hide PeerAddresses.PeerAddresses.Valid, PeerAddresses.PeerAddresses.Table, InboxNow, AccountsNow, Retried;
      quiescing, progress := quiescing + [Retried(item, now)], true;
    }

    method PopQuiescing() returns (item: Item)
      requires quiescing != []
      modifies `quiescing
      ensures item == old(quiescing[0])
      ensures Now() == old(Now()).(queues := old(QueuesNow()).(quiescing := old(quiescing)[1..]))
    {
      hide PeerAddresses.PeerAddresses.Valid, PeerAddresses.PeerAddresses.Table, InboxNow, AccountsNow, LoopNow;
      item := quiescing[0];
      quiescing := quiescing[1..];
    }

    /** Try to post the quiesce read of the write at the head of its queue. */
    method QuiesceHead() returns (ghost reply: PostReply)
      requires peers.Valid() && peers.format == cfg.format && quiescing != [] && HasRead(quiescing[0])
      modifies peers, `readBacks, `inFlight, `posted, `quiescing, `outstanding, `outstandingByClient,
        `pendingRemoval, `completions, `moves, `progress, `now, `asked
      ensures peers.Valid() && Now() == QuiesceAttempt(old(Now()), reply) && old(now) <= reply.at
      ensures AnswerPossible(cfg.format, old(peers.Table()), old(quiescing[0]).request.client,
                             old(quiescing[0]).read.value.address.value, reply.answer)
    {
      hide PeerAddresses.PeerAddresses.Valid, PeerAddresses.PeerAddresses.Table, InboxNow, LoopNow, Advertise,
        AnswerPossible, Judge, QuiesceConcluded, CqNow;
      var item := PopQuiescing();
      var verdict;
      verdict, reply := Post(item, item.read.value.address.value);
      FailingQuiesceConcludes(Now(), item, now);
      match verdict {
        case Goes(peer) => PostedRead(item, peer);
        case Retries => RequeueRead(item);
        case Fails(reason) => FinishUnreaped(item, reason);
      }
    }

    method QuiesceNext() returns (ghost reply: PostReply)
      requires Valid() && phase.Quiescing? && 0 < phase.attempts && quiescing != [] && HasRead(quiescing[0])
      modifies this, peers
      ensures Valid() && steps == old(steps) + [WorkerModel.QuiesceNext(reply)]
      ensures Continues(old(steps), 0)
      ensures phase == Quiescing(old(phase.attempts) - 1)
    {
      hide Valid, EndsAt, TurnsIn, PeerAddresses.PeerAddresses.Valid, PeerAddresses.PeerAddresses.Table, Advertise,
        AnswerPossible, QuiesceAttempt;
      ValidMeans();
      ghost var before := Now();
      MoveTo(Quiescing(phase.attempts - 1));
      reply := QuiesceHead();
      NextQuiesce(before, Now(), reply);
      Note(before, WorkerModel.QuiesceNext(reply));
    }

    method EndQuiesce()
      requires Valid() && phase.Quiescing? && phase.attempts == 0
      modifies `phase, `states, `steps
      ensures Valid() && steps == old(steps) + [QuiesceDone]
      ensures Continues(old(steps), 0)
      ensures phase == Flushing
    {
      hide Valid, EndsAt, TurnsIn, PeerAddresses.PeerAddresses.Valid, PeerAddresses.PeerAddresses.Table, QueuesNow,
        AccountsNow, PostAttempt, QuiesceAttempt, Handled, DispatchOne, FlushCrc, DeliverBatch, DecideNext, Reap,
        PoolDone;
      ValidMeans();
      ghost var before := Now();
      MoveTo(Flushing);
      Note(before, QuiesceDone);
    }

    method FlushIf(due: bool)
      modifies `crcPending, `pool
      ensures QueuesNow() ==
              if due then old(QueuesNow()).(pool := old(QueuesNow()).pool + old(QueuesNow()).crc, crc := [])
              else old(QueuesNow())
    {
      if due {
        pool, crcPending := pool + crcPending, [];
      }
    }

    method DueToFlush() returns (idle: bool, due: bool)
      ensures idle == Idle(Now())
      ensures due == ShouldFlush(|QueuesNow().crc|, LoopNow().posted, LoopNow().reapedAny, idle)
    {
      hide PeerAddresses.PeerAddresses.Valid, PeerAddresses.PeerAddresses.Table, ShouldFlush, AccountsNow, InboxNow;
      idle := pending == [] && quiescing == [] && inFlight == 0;
      due := ShouldFlush(|crcPending|, posted, reapedAny, idle);
    }

    /** Hand the checksummed batch to the pool when it is due. */
    method Flush() returns (idle: bool)
      requires Valid() && phase.Flushing?
      modifies `crcPending, `pool, `phase, `states, `steps
      ensures Valid() && steps == old(steps) + [WorkerModel.Flush]
      ensures Continues(old(steps), 0)
      ensures phase == Batching(idle)
    {
      hide Valid, EndsAt, TurnsIn, PeerAddresses.PeerAddresses.Valid, PeerAddresses.PeerAddresses.Table, InboxNow,
        QueuesNow,
        LoopNow, AccountsNow, ShouldFlush, PostAttempt, QuiesceAttempt, Handled, DispatchOne, DeliverBatch,
        DecideNext, Reap, PoolDone, Idle;
      ValidMeans();
      ghost var before := Now();
      var due;
      idle, due := DueToFlush();
      FlushIf(due);
      MoveTo(Batching(idle));
      Note(before, WorkerModel.Flush);
    }

    method HandOver()
      modifies `delivered, `completions
      ensures QueuesNow() == old(QueuesNow()).(delivered := old(QueuesNow()).delivered + old(QueuesNow()).completions,
                                               completions := [])
    {
      delivered, completions := delivered + completions, [];
    }

    method Spin(spins: nat, ghost going: bool)
      modifies `drainSpins, `progress
      ensures LoopNow() == old(LoopNow()).(spins := spins, progress := old(LoopNow()).progress && going)
    {
      drainSpins, progress := spins, progress && going;
    }

    /** Deliver what is batched, unless it is short and may still be held. */
    method Deliver() returns (held: bool)
      modifies `delivered, `completions, `drainSpins, `progress
      ensures held == Holds(|old(QueuesNow()).completions|, old(LoopNow()).spins)
      ensures var before := old(QueuesNow());
              QueuesNow() == if held then before
                             else before.(delivered := before.delivered + before.completions, completions := [])
      ensures LoopNow() == if held then old(LoopNow()).(spins := old(LoopNow()).spins + 1, progress := false)
                           else if old(QueuesNow()).completions != [] then old(LoopNow()).(spins := 0)
                             else old(LoopNow())
    {
      held := false;
      if completions != [] {
        if |completions| < TARGET_COMPLETIONS && drainSpins < MAX_SPINS {
          Spin(drainSpins + 1, false);
          held := true;
        } else {
          Spin(0, true);
          HandOver();
        }
      }
    }

    /** Deliver the batch, unless a short one is held for another pass. */
    method CompleteBatch() returns (held: bool)
      requires Valid() && phase.Batching?
      modifies `delivered, `completions, `drainSpins, `progress, `phase, `states, `steps
      ensures Valid() && steps == old(steps) + [WorkerModel.Batch]
      ensures Continues(old(steps), 0)
      ensures phase == if held then Intake else Deciding(old(phase.idle))
    {
      hide Valid, EndsAt, TurnsIn, PeerAddresses.PeerAddresses.Valid, PeerAddresses.PeerAddresses.Table, InboxNow,
        QueuesNow,
        LoopNow, AccountsNow, Holds, PostAttempt, QuiesceAttempt, Handled, DispatchOne, FlushCrc, DecideNext, Reap,
        PoolDone, CqNow;
      ValidMeans();
      ghost var before := Now();
      held := Deliver();
      MoveTo(if held then Intake else Deciding(phase.idle));
      HoldingIsOfSome(before);
      Note(before, WorkerModel.Batch);
    }

    ghost method ForgetProgress()
      modifies `progress
      ensures LoopNow() == old(LoopNow()).(progress := false)
    {
      progress := false;
    }

    /** Leave, park, or come round again. */
    method Decide(idle: bool)
      requires Valid() && phase == Deciding(idle)
      modifies `progress, `phase, `states, `steps
      ensures Valid() && steps == old(steps) + [WorkerModel.Decide]
      ensures Continues(old(steps), 0)
      ensures phase == if idle then (if disconnected then Stopped else Parked) else Intake
    {
      hide Valid, EndsAt, TurnsIn, PeerAddresses.PeerAddresses.Valid, PeerAddresses.PeerAddresses.Table, QueuesNow,
        AccountsNow, PostAttempt, QuiesceAttempt, Handled, DispatchOne, FlushCrc, DeliverBatch, Reap, PoolDone;
      ValidMeans();
      ghost var before := Now();
      if !idle {
        ForgetProgress();
      }
      MoveTo(if idle then (if disconnected then Stopped else Parked) else Intake);
      Note(before, WorkerModel.Decide);
    }

    /** The channel closed while the loop was parked on it. */
    method StopParked()
      requires Valid() && phase.Parked? && channel == [] && closed
      modifies `phase, `states, `steps
      ensures Valid() && steps == old(steps) + [ParkedClosed]
      ensures Continues(old(steps), 0)
      ensures phase == Stopped
    {
      hide Valid, EndsAt, TurnsIn, PeerAddresses.PeerAddresses.Valid, PeerAddresses.PeerAddresses.Table, QueuesNow,
        AccountsNow, LoopNow, PostAttempt, QuiesceAttempt, Handled, DispatchOne, FlushCrc, DeliverBatch, DecideNext,
        Reap, PoolDone;
      ValidMeans();
      ghost var before := Now();
      MoveTo(Stopped);
      Note(before, ParkedClosed);
    }

    // ----- The loop -----

    /** A pass covers no more than its queue still holds, and a reap no more than it may take. */
    lemma PassFits()
      requires Valid()
      ensures phase.Posting? ==> phase.attempts <= |pending|
      ensures phase.Quiescing? ==> phase.attempts <= |quiescing|
      ensures phase.Quiescing? && quiescing != [] ==> HasRead(quiescing[0])
    {
      hide Valid, Invariant, PeerAddresses.PeerAddresses.Valid, PeerAddresses.PeerAddresses.Table;
      NowHolds();
      PassesFit(Now());
    }

    /** Drain the channel, whoever else gets a turn meanwhile. */
    method IntakePass()
      requires Valid() && phase.Intake?
      modifies this, peers
      ensures Valid() && Continues(old(steps), 1) && phase == Posting(|pending|)
    {
      hide Valid, TurnsIn;
      var arrivals: nat := *;
      while channel != [] || 0 < arrivals
        invariant Valid() && Continues(old(steps), 0) && phase == Intake
        decreases arrivals, |channel|
      {
        var others: bool := *;
        if 0 < arrivals && (others || channel == []) {
          OneOther();
          arrivals := arrivals - 1;
        } else {
          var _ := Receive();
        }
      }
      EndIntake();
    }

    /** Each pending transfer gets one attempt, while the pipeline has room. */
    method PostPass()
      requires Valid() && phase == Posting(|pending|)
      modifies this, peers
      ensures Valid() && Continues(old(steps), 0) && phase == Reaping && reaped == []
    {
      hide Valid, TurnsIn;
      var attempts: nat := |pending|;
      while inFlight < cfg.cap && 0 < attempts
        invariant Valid() && Continues(old(steps), 0) && phase == Posting(attempts)
        decreases attempts
      {
        OtherThreads();
        PassFits();
        var _ := PostNext();
        attempts := attempts - 1;
      }
      NothingReapedYet();
      EndPosting();
    }

    lemma NothingReapedYet()
      requires Valid() && phase.Posting?
      ensures reaped == []
    {
      hide Valid, Invariant, PeerAddresses.PeerAddresses.Valid, PeerAddresses.PeerAddresses.Table;
      NowHolds();
      PassesFit(Now());
    }

    /** Reap up to ten, as many as libfabric has ready: what was ready is taken in order, each with its own result,
        and short of ten nothing ready is left unless the queue itself failed to be read. */
    method ReapPass() returns (failed: bool)
      requires Valid() && phase.Reaping? && reaped == []
      modifies this, peers
      ensures Valid() && Continues(old(steps), 0) && phase == Dispatching
      ensures |reaped| <= 10 && InOrder(old(cq), EntriesOf(reaped), cq)
      ensures |reaped| == 10 || cq == [] || failed
      ensures !failed ==> |reaped| == 10 || |old(cq)| <= |reaped|
      ensures failed ==> |reaped| < 10 && FabricFault in steps
    {
      hide Valid, EntriesOf, TurnsIn, InOrder;
      failed := false;
      OrderBegins(cq, EntriesOf(reaped));
      while |reaped| < TARGET_COMPLETIONS
        invariant Valid() && Continues(old(steps), 0) && phase == Reaping && !failed
        invariant |reaped| <= TARGET_COMPLETIONS && InOrder(old(cq), EntriesOf(reaped), cq)
        decreases TARGET_COMPLETIONS - |reaped|
      {
        ghost var ready := cq;
        OtherThreads();
        OrderGrows(old(cq), EntriesOf(reaped), ready, cq);
        if cqFault {
          FaultWasGiven();
          failed := true;
          break;
        }
        if cq == [] {
          break;
        }
        OrderIsTaken(old(cq), EntriesOf(reaped), cq);
        var _, _ := ReapOne();
      }
      OrderCovers(old(cq), EntriesOf(reaped), cq);
      EndReap();
    }

    /** Send every reaped transfer on. */
    method DispatchPass()
      requires Valid() && phase.Dispatching?
      modifies this, peers
      ensures Valid() && Continues(old(steps), 0) && phase == Quiescing(|quiescing|)
    {
      hide Valid, TurnsIn;
      while reaped != []
        invariant Valid() && Continues(old(steps), 0) && phase == Dispatching
        decreases |reaped|
      {
        OtherThreads();
        DispatchHead();
      }
      EndDispatch();
    }

    /** Each write that waits gets one attempt at its read, room or not. */
    method QuiescePass()
      requires Valid() && phase == Quiescing(|quiescing|)
      modifies this, peers
      ensures Valid() && Continues(old(steps), 0) && phase == Flushing
    {
      hide Valid, TurnsIn;
      var attempts: nat := |quiescing|;
      while 0 < attempts
        invariant Valid() && Continues(old(steps), 0) && phase == Quiescing(attempts)
        decreases attempts
      {
        OtherThreads();
        PassFits();
        var _ := QuiesceNext();
        attempts := attempts - 1;
      }
      EndQuiesce();
    }

    /** One time round the loop. */
    method Pass() returns (turn: Turn)
      requires Valid() && phase.Intake?
      modifies this, peers
      ensures Valid() && Continues(old(steps), 1)
              && phase == match turn case Around => Intake case Parks => Parked case Leaves => Stopped
    {
      hide Valid, TurnsIn;
      IntakePass();
      PostPass();
      var _ := ReapPass();
      DispatchPass();
      QuiescePass();
      OtherThreads();
      var idle := Flush();
      OtherThreads();
      var held := CompleteBatch();
      if held {
        return Around;
      }
      OtherThreads();
      Decide(idle);
      turn := if !idle then Around else if disconnected then Leaves else Parks;
    }

    /** Run the loop for at most so many turns, a turn being a pass or a message that ends a park. It is unfinished only
        once it has taken them all. When it returns nothing is left for the shutdown to fail,
        and when it blocks nothing of anybody's waits inside it. */
    method Run(parked: bool, turns: nat) returns (ending: Ending)
      requires Valid() && phase == if parked then Parked else Intake
      modifies this, peers
      ensures Valid() && old(steps) <= steps && TurnsIn(steps) <= TurnsIn(old(steps)) + turns
      ensures ending.Unfinished? ==> TurnsIn(steps) == TurnsIn(old(steps)) + turns
      ensures (ending.Returned? <==> phase.Stopped?) && (ending.Blocked? ==> phase.Parked? && channel == [] && !closed)
      ensures ending.Returned? || ending.Blocked? ==>
                && pending == first == quiescing == readBacks == reaped == crcPending == [] && completions == []
                && channel == [] && inFlight == 0 && outstandingByClient == map[] && pendingRemoval == {}
      ensures ending.Returned? ==> outstanding == 0
      ensures ending.Returned? || ending.Blocked? ==>
                forall id: nat | id < |requests| :: IdBag(pool)[id] + CompletedBag(delivered)[id] == 1
    {
      hide Valid, IdBag, CompletedBag, TurnsIn;
      var turn := if parked then Parks else Around;
      var left := turns;
      while 0 < left && !turn.Leaves?
        invariant 0 <= left <= turns && Valid() && Continues(old(steps), turns - left)
                  && phase == match turn case Around => Intake case Parks => Parked case Leaves => Stopped
        decreases left
      {
        if turn.Around? {
          turn := Pass();
          left := left - 1;
        } else {
          OtherThreads();
          if channel != [] {
            var _ := Receive();
            turn := Around;
            left := left - 1;
          } else if closed {
            StopParked();
            NothingWaits();
            return Returned;
          } else {
            NothingWaits();
            return Blocked;
          }
        }
      }
      if turn.Around? || turn.Parks? {
        return Unfinished;
      }
      NothingWaits();
      return Returned;
    }

    lemma NothingWaits()
      requires Valid() && (phase.Stopped? || phase.Parked?)
      ensures pending == first == quiescing == readBacks == reaped == crcPending == [] && completions == []
      ensures inFlight == 0 && outstandingByClient == map[] && pendingRemoval == {}
      ensures phase.Stopped? ==> channel == [] && outstanding == 0
      ensures forall id: nat | id < |requests| :: IdBag(pool)[id] + CompletedBag(delivered)[id] == 1
    {
      hide Valid, Invariant, PeerAddresses.PeerAddresses.Valid, PeerAddresses.PeerAddresses.Table, IdBag,
        CompletedBag;
      NowHolds();
      RestIsEmpty(Now());
    }
  }

  /** What one attempt to post asks: a registration once the peer is resolved, and a post once it is registered. */
  ghost function AsksOf(cfg: Config, peers: Table, item: Item, address: Address, r: PostReply): seq<Ask> {
    if Resolved(cfg.format, peers, item.request.client, address, r.answer).None? then []
    else if !r.registered then [Registers(item.id, false)]
    else [Registers(item.id, true), Posts(item.id, r.code)]
  }

  /** A pass begins to post, or a message ends a park. */
  predicate IsTurn(step: Step) {
    step.NoMessage? || step.ParkedReceive?
  }

  /** How many turns of the loop these steps took. */
  function TurnsIn(steps: seq<Step>): nat {
    if steps == [] then 0
    else TurnsIn(steps[..|steps| - 1]) + if IsTurn(steps[|steps| - 1]) then 1 else 0
  }

  /** What was read off the completion queue, in order. */
  function EntriesOf(reaped: seq<Item>): (r: seq<CqEntry>)
    ensures |r| == |reaped| && forall k | 0 <= k < |reaped| :: r[k] == CqEntry(reaped[k].id, reaped[k].ok)
  {
    seq(|reaped|, k requires 0 <= k < |reaped| => CqEntry(reaped[k].id, reaped[k].ok))
  }

  /** What was ready comes first, in order: what was taken, and then what is ready still. */
  ghost predicate InOrder(ready: seq<CqEntry>, taken: seq<CqEntry>, left: seq<CqEntry>) {
    ready <= taken + left
  }

  lemma OrderBegins(ready: seq<CqEntry>, taken: seq<CqEntry>)
    requires taken == []
    ensures InOrder(ready, taken, ready)
  {
    assert taken + ready == ready;
  }

  lemma OrderGrows(ready: seq<CqEntry>, taken: seq<CqEntry>, left: seq<CqEntry>, more: seq<CqEntry>)
    requires InOrder(ready, taken, left) && left <= more
    ensures InOrder(ready, taken, more)
  {
    assert taken + left <= taken + more;
  }

  lemma OrderIsTaken(ready: seq<CqEntry>, taken: seq<CqEntry>, left: seq<CqEntry>)
    requires InOrder(ready, taken, left) && left != []
    ensures InOrder(ready, taken + [left[0]], left[1..])
  {
    assert taken + [left[0]] + left[1..] == taken + left;
  }

  lemma OrderCovers(ready: seq<CqEntry>, taken: seq<CqEntry>, left: seq<CqEntry>)
    requires InOrder(ready, taken, left)
    ensures left == [] ==> |ready| <= |taken|
  {}

  lemma LandingIsRead(reaped: seq<Item>, item: Item, ok: bool)
    ensures EntriesOf(reaped + [Landed(item, ok)]) == EntriesOf(reaped) + [CqEntry(item.id, ok)]
  {}

  /** Parked or stopped, the loop holds nothing, and every transfer received is delivered or with the pool. */
  lemma RestIsEmpty(s: State)
    requires Invariant(s) && (s.phase.Stopped? || s.phase.Parked?)
    ensures var q := s.queues;
            q.pending == q.first == q.quiescing == q.readBacks == q.reaped == q.crc == [] && q.completions == []
    ensures s.loop.inFlight == 0 && s.accounts.byClient == map[] && s.accounts.removal == {}
    ensures s.phase.Stopped? ==> s.inbox.channel == [] && s.accounts.outstanding == 0
    ensures forall id: nat | id < |s.inbox.requests| ::
              IdBag(s.queues.pool)[id] + CompletedBag(s.queues.delivered)[id] == 1
  {
    hide WellFormed, Productive, Traced, OpsOf;
    BagsOfEmpty();
    EmptyQueuesOweNobody(s);
    forall id: nat | id < |s.inbox.requests|
      ensures IdBag(s.queues.pool)[id] + CompletedBag(s.queues.delivered)[id] == 1
    {
      assert PlacesOf(s.queues, id) == 1;
    }
  }

  lemma FailingConcludes(s: State, item: Item, at: nat)
    ensures forall reason :: PostConcluded(s, item, Fails(reason), at) == Unreaped(s, item, reason)
  {
    hide Unreaped;
  }

  lemma FailingQuiesceConcludes(s: State, item: Item, at: nat)
    requires item.read.Some?
    ensures forall reason :: QuiesceConcluded(s, item, Fails(reason), at) == Unreaped(s, item, reason)
  {
    hide Unreaped;
  }

  lemma NextQuiesce(s: State, t: State, r: PostReply)
    requires s.phase.Quiescing? && 0 < s.phase.attempts && s.queues.quiescing != [] && HasRead(s.queues.quiescing[0])
             && s.now <= r.at
    requires t == QuiesceAttempt(s.(phase := Quiescing(s.phase.attempts - 1)), r)
    requires AnswerPossible(s.cfg.format, s.accounts.peers, s.queues.quiescing[0].request.client,
                            s.queues.quiescing[0].read.value.address.value, r.answer)
    ensures Enabled(s, WorkerModel.QuiesceNext(r)) && t == Next(s, WorkerModel.QuiesceNext(r))
  {
    hide QuiesceAttempt, AnswerPossible;
  }

  /** Delivering an empty batch delivers nothing. */
  lemma HoldingIsOfSome(s: State)
    ensures s.queues.completions == [] ==>
              s.queues.(delivered := s.queues.delivered + s.queues.completions, completions := []) == s.queues
              && !Holds(|s.queues.completions|, s.loop.spins)
  {}

  lemma NextReap(s: State, t: State, fromReads: bool, index: nat, ok: bool)
    requires s.phase.Reaping? && |s.queues.reaped| < TARGET_COMPLETIONS && !s.cq.fault && s.cq.entries != []
    requires index < |if fromReads then s.queues.readBacks else s.queues.first|
    requires s.cq.entries[0] == CqEntry((if fromReads then s.queues.readBacks else s.queues.first)[index].id, ok)
    requires t == s.(queues := Reap(s.queues, fromReads, index, ok), loop := Moved(s.loop),
                     cq := s.cq.(entries := s.cq.entries[1..]))
    ensures Enabled(s, WorkerModel.ReapOne(fromReads, index, ok))
    ensures t == Next(s, WorkerModel.ReapOne(fromReads, index, ok))
  {
    hide Reap, Moved;
  }

  lemma NextReapDone(s: State, t: State)
    requires s.phase.Reaping?
    requires TARGET_COMPLETIONS <= |s.queues.reaped| || s.cq.fault || s.cq.entries == []
    requires t.loop == s.loop.(inFlight := Saturating(s.loop.inFlight, |s.queues.reaped|),
                               reapedAny := s.queues.reaped != [],
                               progress := s.loop.progress || 0 < s.loop.inFlight)
    requires t == s.(phase := Dispatching, loop := t.loop,
                     cq := s.cq.(fault := s.cq.fault && TARGET_COMPLETIONS <= |s.queues.reaped|))
    ensures Enabled(s, ReapDone) && t == Next(s, ReapDone)
  {}

  lemma NextDispatch(s: State, t: State)
    requires s.phase.Dispatching? && s.queues.reaped != [] && t == DispatchOne(s)
    ensures Enabled(s, Dispatch) && t == Next(s, Dispatch) && |t.queues.reaped| == |s.queues.reaped| - 1
  {
    hide WorkerModel.FinishOp, NeedsRead, IntoCompletion;
  }

  lemma NextReceive(s: State, t: State, answer: Option<Handle>)
    requires (s.phase.Intake? || s.phase.Parked?) && s.inbox.channel != []
    requires var m := s.inbox.channel[0];
             m.AddPeer? ==> AnswerPossible(s.cfg.format, s.accounts.peers, m.client, m.address, answer)
    requires t == Handled(Popped(s.(phase := Intake)), s.inbox.channel[0], answer)
    ensures var step := if s.phase.Parked? then ParkedReceive(answer) else WorkerModel.Receive(answer);
            Enabled(s, step) && t == Next(s, step)
  {
    hide Handled, AnswerPossible;
  }

  lemma NextPost(s: State, t: State, r: PostReply)
    requires s.phase.Posting? && 0 < s.phase.attempts && s.loop.inFlight < s.cfg.cap && s.queues.pending != []
             && s.now <= r.at
    requires t == PostAttempt(s.(phase := Posting(s.phase.attempts - 1)), r)
    requires AnswerPossible(s.cfg.format, s.accounts.peers, s.queues.pending[0].request.client,
                            s.queues.pending[0].address, r.answer)
    ensures Enabled(s, WorkerModel.PostNext(r)) && t == Next(s, WorkerModel.PostNext(r))
  {
    hide PostAttempt, AnswerPossible;
  }

  /** A run of the model that ends in `s`. */
  ghost predicate EndsAt(cfg: Config, states: seq<State>, steps: seq<Step>, s: State) {
    FromStart(cfg, states, steps) && states[|steps|] == s
  }

  lemma PathGrows(states: seq<State>, steps: seq<Step>, step: Step)
    requires Path(states, steps) && Enabled(states[|steps|], step)
    ensures Path(states + [Next(states[|steps|], step)], steps + [step])
  {
    hide Next, CanTake, Answerable;
    var all, taken := states + [Next(states[|steps|], step)], steps + [step];
    forall i | 0 <= i < |taken|
      ensures Enabled(all[i], taken[i]) && all[i + 1] == Next(all[i], taken[i])
    {}
  }
}
