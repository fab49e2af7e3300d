/** The fabric worker as a state machine. One state holds everything the loop owns, what libfabric and
    the pool hold for it, and the channel feeding it; one step is one transition of the loop with the
    environment's answer, or one move of the submitting threads or the pool. */
module WorkerModel {
  import opened Basics
  import opened AddressTable

  const TARGET_COMPLETIONS: nat := 10
  const MAX_SPINS: nat := 10

  datatype Direction = ToPeer | FromPeer(length: nat)

  /** A submitted transfer. `operand` is what the caller's context answers for it: the length of the
      source bytes or of the landing buffer, or nothing. */
  datatype Request = Request(
    client: Client, address: Address, key: nat, remote: nat,
    direction: Direction, wantChecksum: bool, operand: Option<nat>)

  datatype Message = Transfer(request: Request) | AddPeer(client: Client, address: Address) | RemovePeer(client: Client)

  datatype Reason =
    | WorkerGone | NoOperand | ShortBuffer | RangeOverflows | NoPeer | NoRegistration | Refused | Stalled
    | CompletionError

  datatype Outcome = Done(bytes: nat, checksum: Option<nat>) | Failed(reason: Reason)

  datatype Verb = Write | Read

  /** What libfabric saw of one transfer: an operation posted on its context, or that operation's completion. */
  datatype Event =
    | Posted(verb: Verb, peer: Binding, key: nat, remote: nat, length: nat)
    | Reaped(ok: bool)

  datatype QuiesceRead = QuiesceRead(address: Option<Address>, key: nat, remote: nat)

  /** One transfer while the worker, libfabric or the pool owns it. `address` is the peer address kept for
      a retry until the first post, `ok` the last completion's result, `trail` what libfabric saw. */
  datatype Item = Item(
    id: nat, request: Request, length: nat, address: Address, read: Option<QuiesceRead>,
    stalled: Option<nat>, ok: bool, trail: seq<Event>)

  datatype Completion = Completion(id: nat, request: Request, outcome: Outcome, trail: seq<Event>)

  datatype Config = Config(quiesceWrites: bool, cap: nat, deadline: nat, format: AddressFormat, digest: nat -> nat)

  /** Where the loop is. The attempt counts are what is left of one pass over a queue; `idle` is computed
      once per pass, before the flush. */
  datatype Phase =
    | Intake | Posting(attempts: nat) | Reaping | Dispatching | Quiescing(attempts: nat)
    | Flushing | Batching(idle: bool) | Deciding(idle: bool) | Parked | Stopped

  /** The channel into the worker, the submitters between raising the tally and sending, and every request
      the worker has received. */
  datatype Inbox = Inbox(channel: seq<Message>, closed: bool, submitting: nat, requests: seq<Request>)

  /** Every place a transfer can be once received. `first` and `readBacks` are libfabric's: operations posted
      for a transfer itself, and quiesce reads posted after one. */
  datatype Queues = Queues(
    pending: seq<Item>, first: seq<Item>, quiescing: seq<Item>, readBacks: seq<Item>, reaped: seq<Item>,
    crc: seq<Item>, pool: seq<Item>, completions: seq<Completion>, delivered: seq<Completion>)

  /** The tallies and the peers. `departed` are the clients whose removal was received and who have sent
      nothing since. */
  datatype Accounts = Accounts(
    outstanding: nat, byClient: map<Client, nat>, removal: set<Client>, departed: set<Client>, peers: Table)

  /** The loop's own variables. Two more only watch it: `moves` counts operations posted, reaped or failed,
      and `progress` says whether this pass moved, retried or polled for any. */
  datatype Loop = Loop(
    inFlight: nat, posted: nat, reapedAny: bool, disconnected: bool, spins: nat, moves: nat, progress: bool)

  /** One completion: which transfer's operation ended, and how. */
  datatype CqEntry = CqEntry(id: nat, ok: bool)

  /** Libfabric's completion queue: what is ready to be read, in order, and whether the next read fails without
      naming an operation. */
  datatype CompletionQueue = CompletionQueue(entries: seq<CqEntry>, fault: bool)

  datatype State = State(
    cfg: Config, phase: Phase, now: nat, inbox: Inbox, queues: Queues, accounts: Accounts, loop: Loop,
    cq: CompletionQueue)

  function Initial(cfg: Config): State {
    State(cfg, Intake, 0, Inbox([], false, 0, []), Queues([], [], [], [], [], [], [], [], []),
          Accounts(0, map[], {}, {}, map[]), Loop(0, 0, false, false, 0, 0, false), CompletionQueue([], false))
  }

  datatype Code = Accepted | Again | Rejected

  /** The environment's answers to one attempt to post: the address vector's (asked only when nobody holds
      the address), whether the operand registered, the post's code, and the clock if it is read. */
  datatype PostReply = PostReply(answer: Option<Handle>, registered: bool, code: Code, at: nat)

  datatype Step =
    // Other threads.
    | BeginSubmit | Send(message: Message) | Close | PoolFinish(job: nat)
    // Libfabric: an operation it holds ends, or its completion queue will fail to be read.
    | FabricDone(ofReads: bool, place: nat, result: bool) | FabricFault
    // The loop.
    | Receive(answer: Option<Handle>) | NoMessage
    | PostNext(post: PostReply) | PostingDone
    | ReapOne(fromReads: bool, index: nat, ok: bool) | ReapDone
    | Dispatch | DispatchDone
    | QuiesceNext(read: PostReply) | QuiesceDone
    | Flush | Batch | Decide | ParkedReceive(answer: Option<Handle>) | ParkedClosed

  // ----- Intake -----

  datatype Prepared = Ready(item: Item) | Unprepared(reason: Reason)

  datatype Operand = Length(length: nat) | Unusable(reason: Reason)

  /** The local operand, when the context supplies one that will do. */
  function OperandOf(request: Request): Operand {
    match request.direction
    case ToPeer =>
      if request.operand.None? then Unusable(NoOperand) else Length(request.operand.value)
    case FromPeer(length) =>
      if request.operand.None? then Unusable(NoOperand)
      else if request.operand.value < length then Unusable(ShortBuffer)
      else Length(length)
  }

  predicate Quiesces(cfg: Config, request: Request, length: nat) {
    cfg.quiesceWrites && request.direction.ToPeer? && 0 < length
  }

  /** The quiesce read of a transfer: the last byte of its range. */
  function PlannedRead(cfg: Config, request: Request, length: nat, address: Option<Address>): Option<QuiesceRead> {
    if Quiesces(cfg, request, length) then Some(QuiesceRead(address, request.key, request.remote + length - 1))
      else None
  }

  function Prepare(cfg: Config, id: nat, request: Request): Prepared {
    match OperandOf(request)
    case Unusable(reason) => Unprepared(reason)
    case Length(length) =>
      if Quiesces(cfg, request, length) && U64 <= request.remote + (length - 1) then Unprepared(RangeOverflows)
      else Ready(Item(id, request, length, request.address, PlannedRead(cfg, request, length, None), None, false, []))
  }

  function Saturating(a: nat, b: nat): nat {
    if b <= a then a - b else 0
  }

  function OutstandingFor(a: Accounts, c: Client): nat {
    if c in a.byClient then a.byClient[c] else 0
  }

  /** A transfer joins the queue, or fails at once for want of an operand. */
  function Accept(s: State, request: Request): State {
    var id := |s.inbox.requests|;
    var a := s.accounts.(departed := s.accounts.departed - {request.client});
    var received := s.(inbox := s.inbox.(requests := s.inbox.requests + [request]));
    match Prepare(s.cfg, id, request)
    case Ready(item) =>
      received.(accounts := a.(byClient := a.byClient[request.client := OutstandingFor(a, request.client) + 1]),
                queues := s.queues.(pending := s.queues.pending + [item]))
    case Unprepared(reason) =>
      received.(accounts := a.(outstanding := Saturating(a.outstanding, 1)),
                queues := Complete(s.queues, Completion(id, request, Failed(reason), [])))
  }

  function Complete(q: Queues, c: Completion): Queues {
    q.(completions := q.completions + [c])
  }

  /** A client's entry goes, or is marked to go with its last operation. */
  function RemoveOrDefer(a: Accounts, c: Client): Accounts {
    var left := a.(departed := a.departed + {c});
    if OutstandingFor(a, c) == 0 then left.(peers := a.peers - {c}) else left.(removal := a.removal + {c})
  }

  /** An address advertised outside any transfer. */
  ghost function Introduced(
    format: AddressFormat, a: Accounts, c: Client, address: Address, answer: Option<Handle>): Accounts
  {
    a.(peers := Advertise(format, a.peers, c, address, answer), departed := a.departed - {c})
  }

  ghost function Handled(s: State, message: Message, answer: Option<Handle>): State {
    match message
    case Transfer(request) => Accept(s, request)
    case AddPeer(c, address) => s.(accounts := Introduced(s.cfg.format, s.accounts, c, address, answer))
    case RemovePeer(c) => s.(accounts := RemoveOrDefer(s.accounts, c))
  }

  // ----- Finishing -----

  /** One operation fewer for its client, whose waiting removal goes with the last. */
  function FinishOp(a: Accounts, c: Client): Accounts {
    var released := a.(outstanding := Saturating(a.outstanding, 1));
    var remaining := Saturating(OutstandingFor(a, c), 1);
    if 0 < remaining then released.(byClient := a.byClient[c := remaining])
    else
      var drained := released.(byClient := a.byClient - {c}, removal := a.removal - {c});
      if c in a.removal then drained.(peers := a.peers - {c}) else drained
  }

  function Moved(l: Loop): Loop {
    l.(moves := l.moves + 1, progress := true)
  }

  /** Fail an operation libfabric does not hold. */
  function Unreaped(s: State, item: Item, reason: Reason): State {
    s.(queues := Complete(s.queues, Completion(item.id, item.request, Failed(reason), item.trail)),
       accounts := FinishOp(s.accounts, item.request.client),
       loop := Moved(s.loop))
  }

  function IntoCompletion(cfg: Config, item: Item): Completion {
    Completion(item.id, item.request,
               if item.ok
               then Done(item.length, if item.request.wantChecksum then Some(cfg.digest(item.id)) else None)
               else Failed(CompletionError),
               item.trail)
  }

  // ----- Posting -----

  function FirstPost(item: Item, peer: Binding): Event {
    Posted(if item.request.direction.ToPeer? then Write else Read,
           peer, item.request.key, item.request.remote, item.length)
  }

  /** What an EAGAIN makes of an item at time `at`: when it first stalled. */
  function StalledSince(item: Item, at: nat): nat {
    if item.stalled.Some? then item.stalled.value else at
  }

  predicate Expired(cfg: Config, item: Item, at: nat) {
    cfg.deadline <= Saturating(at, StalledSince(item, at))
  }

  datatype Verdict = Fails(reason: Reason) | Retries | Goes(peer: Binding)

  /** What one attempt to post against `address` comes to. */
  ghost function Judge(cfg: Config, peers: Table, item: Item, address: Address, r: PostReply): Verdict {
    var peer := Resolved(cfg.format, peers, item.request.client, address, r.answer);
    if peer.None? then Fails(NoPeer)
    else if !r.registered then Fails(NoRegistration)
    else match r.code
         case Rejected => Fails(Refused)
         case Again => if Expired(cfg, item, r.at) then Fails(Stalled) else Retries
         case Accepted => Goes(Binding(peer.value, address))
  }

  /** Resolving the peer re-advertises its address to the table. */
  ghost function Asking(s: State, c: Client, address: Address, r: PostReply): State {
    s.(accounts := s.accounts.(peers := Advertise(s.cfg.format, s.accounts.peers, c, address, r.answer)), now := r.at)
  }

  function Retried(item: Item, at: nat): Item {
    item.(stalled := Some(StalledSince(item, at)))
  }

  function PostedOne(l: Loop): Loop {
    Moved(l).(inFlight := l.inFlight + 1, posted := l.posted + 1)
  }

  /** A transfer taken off the queue after one attempt to post it. */
  function PostConcluded(s: State, item: Item, verdict: Verdict, at: nat): State {
    match verdict
    case Fails(reason) => Unreaped(s, item, reason)
    case Retries =>
      s.(queues := s.queues.(pending := s.queues.pending + [Retried(item, at)]), loop := s.loop.(progress := true))
    case Goes(peer) =>
      s.(queues := s.queues.(first := s.queues.first + [WriteOut(item, peer)]), loop := PostedOne(s.loop))
  }

  ghost function PostAttempt(s: State, r: PostReply): State
    requires s.queues.pending != []
  {
    var item := s.queues.pending[0];
    var q := s.queues.(pending := s.queues.pending[1..]);
    PostConcluded(Asking(s, item.request.client, item.address, r).(queues := q),
                  item, Judge(s.cfg, s.accounts.peers, item, item.address, r), r.at)
  }

  /** The item as libfabric takes it: its address moves into the quiesce read, if there is one. */
  function WriteOut(item: Item, peer: Binding): Item {
    item.(trail := item.trail + [FirstPost(item, peer)],
          read := if item.read.Some? then Some(item.read.value.(address := Some(item.address))) else None)
  }

  function ReadBack(item: Item, read: QuiesceRead, peer: Binding): Item {
    item.(trail := item.trail + [Posted(Read, peer, read.key, read.remote, 1)], read := None)
  }

  /** A completed write that still knows where its quiesce read goes. */
  predicate HasRead(item: Item) {
    item.read.Some? && item.read.value.address.Some?
  }

  /** A completed write taken off its queue after one attempt to post its quiesce read. */
  function QuiesceConcluded(s: State, item: Item, verdict: Verdict, at: nat): State
    requires item.read.Some?
  {
    match verdict
    case Fails(reason) => Unreaped(s, item, reason)
    case Retries =>
      s.(queues := s.queues.(quiescing := s.queues.quiescing + [Retried(item, at)]), loop := s.loop.(progress := true))
    case Goes(peer) =>
      s.(queues := s.queues.(readBacks := s.queues.readBacks + [ReadBack(item, item.read.value, peer)]),
         loop := PostedOne(s.loop))
  }

  ghost function QuiesceAttempt(s: State, r: PostReply): State
    requires s.queues.quiescing != [] && HasRead(s.queues.quiescing[0])
  {
    var item := s.queues.quiescing[0];
    var address := item.read.value.address.value;
    var q := s.queues.(quiescing := s.queues.quiescing[1..]);
    QuiesceConcluded(Asking(s, item.request.client, address, r).(queues := q),
                     item, Judge(s.cfg, s.accounts.peers, item, address, r), r.at)
  }

  // ----- Reaping -----

  function Without<T>(q: seq<T>, k: nat): seq<T>
    requires k < |q|
  {
    q[..k] + q[k + 1..]
  }

  function Landed(item: Item, ok: bool): Item {
    item.(ok := ok, trail := item.trail + [Reaped(ok)])
  }

  /** One completion read off the queue. */
  function Reap(q: Queues, fromReads: bool, index: nat, ok: bool): Queues
    requires index < |if fromReads then q.readBacks else q.first|
  {
    if fromReads
    then q.(readBacks := Without(q.readBacks, index), reaped := q.reaped + [Landed(q.readBacks[index], ok)])
    else q.(first := Without(q.first, index), reaped := q.reaped + [Landed(q.first[index], ok)])
  }

  /** A write is done only after its quiesce read. */
  predicate NeedsRead(item: Item) {
    item.ok && item.read.Some?
  }

  /** Where a reaped transfer goes: to its quiesce read, to be hashed on the pool, or straight to a completion. */
  function Sorted(cfg: Config, q: Queues): Queues
    requires q.reaped != []
  {
    var item := q.reaped[0];
    var rest := q.(reaped := q.reaped[1..]);
    if NeedsRead(item) then rest.(quiescing := q.quiescing + [item.(stalled := None)])
    else if item.request.wantChecksum then rest.(crc := q.crc + [item])
    else Complete(rest, IntoCompletion(cfg, item))
  }

  function DispatchOne(s: State): State
    requires s.queues.reaped != []
  {
    var item := s.queues.reaped[0];
    s.(queues := Sorted(s.cfg, s.queues),
       accounts := if NeedsRead(item) then s.accounts else FinishOp(s.accounts, item.request.client))
  }

  // ----- The end of a pass -----

  predicate Idle(s: State) {
    s.queues.pending == [] && s.queues.quiescing == [] && s.loop.inFlight == 0
  }

  /** Is the checksummed batch due? */
  predicate ShouldFlush(batched: nat, posted: nat, reapedAny: bool, aboutToPark: bool) {
    0 < batched && (TARGET_COMPLETIONS <= batched || (posted == 0 && !reapedAny) || aboutToPark)
  }

  function FlushCrc(s: State): State {
    var idle := Idle(s);
    var next := s.(phase := Batching(idle));
    if ShouldFlush(|s.queues.crc|, s.loop.posted, s.loop.reapedAny, idle)
    then next.(queues := s.queues.(pool := s.queues.pool + s.queues.crc, crc := []))
    else next
  }

  /** Whether a partial batch of completions is held for another pass. */
  predicate Holds(completions: nat, spins: nat) {
    0 < completions < TARGET_COMPLETIONS && spins < MAX_SPINS
  }

  function DeliverBatch(s: State, idle: bool): State {
    if Holds(|s.queues.completions|, s.loop.spins) then
      s.(phase := Intake, loop := s.loop.(spins := s.loop.spins + 1, progress := false))
    else if s.queues.completions != [] then
      s.(phase := Deciding(idle), loop := s.loop.(spins := 0),
         queues := s.queues.(delivered := s.queues.delivered + s.queues.completions, completions := []))
    else s.(phase := Deciding(idle))
  }

  function DecideNext(s: State, idle: bool): State {
    if s.loop.disconnected && idle then s.(phase := Stopped)
    else if idle then s.(phase := Parked)
    else s.(phase := Intake, loop := s.loop.(progress := false))
  }

  /** A pool job finished: its completion is delivered. */
  function PoolDone(cfg: Config, q: Queues, job: nat): Queues
    requires job < |q.pool|
  {
    q.(pool := Without(q.pool, job), delivered := q.delivered + [IntoCompletion(cfg, q.pool[job])])
  }

  // ----- Steps -----

  datatype Question = Nothing | About(client: Client, address: Address, answer: Option<Handle>)

  function AskedBy(channel: seq<Message>, answer: Option<Handle>): Question {
    if channel != [] && channel[0].AddPeer? then About(channel[0].client, channel[0].address, answer) else Nothing
  }

  /** What the step asks the address table, with the vector's answer. */
  function Asked(s: State, step: Step): Question {
    match step
    case Receive(answer) => AskedBy(s.inbox.channel, answer)
    case ParkedReceive(answer) => AskedBy(s.inbox.channel, answer)
    case PostNext(r) =>
      if s.queues.pending != []
      then About(s.queues.pending[0].request.client, s.queues.pending[0].address, r.answer) else Nothing
    case QuiesceNext(r) =>
      if s.queues.quiescing != [] && HasRead(s.queues.quiescing[0])
      then About(s.queues.quiescing[0].request.client, s.queues.quiescing[0].read.value.address.value, r.answer)
        else Nothing
    case _ => Nothing
  }

  /** The vector's answer is one it can give. */
  ghost predicate Answerable(s: State, step: Step) {
    var asked := Asked(s, step);
    asked.About? ==> AnswerPossible(s.cfg.format, s.accounts.peers, asked.client, asked.address, asked.answer)
  }

  /** Steps of the threads around the loop, and of libfabric. */
  predicate Outside(step: Step) {
    step.BeginSubmit? || step.Send? || step.Close? || step.PoolFinish? || step.FabricDone? || step.FabricFault?
  }

  /** The operation at this place of libfabric's. */
  function OnWireAt(q: Queues, ofReads: bool, place: nat): Item
    requires place < |if ofReads then q.readBacks else q.first|
  {
    if ofReads then q.readBacks[place] else q.first[place]
  }

  predicate Unqueued(entries: seq<CqEntry>, id: nat) {
    forall e | e in entries :: e.id != id
  }

  predicate CanTake(s: State, step: Step) {
    match step
    case BeginSubmit => !s.inbox.closed
    case Send(message) => !s.inbox.closed && (message.Transfer? ==> 0 < s.inbox.submitting)
    case Close => !s.inbox.closed && s.inbox.submitting == 0
    case PoolFinish(job) => job < |s.queues.pool|
    case FabricDone(ofReads, place, _) =>
      && place < |if ofReads then s.queues.readBacks else s.queues.first|
      && Unqueued(s.cq.entries, OnWireAt(s.queues, ofReads, place).id)
    case FabricFault => !s.cq.fault
    case Receive(_) => s.phase.Intake? && s.inbox.channel != []
    case NoMessage => s.phase.Intake? && s.inbox.channel == []
    case PostNext(r) =>
      s.phase.Posting? && 0 < s.phase.attempts && s.loop.inFlight < s.cfg.cap && s.queues.pending != [] && s.now <= r.at
    case PostingDone => s.phase.Posting? && (s.phase.attempts == 0 || s.cfg.cap <= s.loop.inFlight)
    case ReapOne(fromReads, index, ok) =>
      && s.phase.Reaping? && |s.queues.reaped| < TARGET_COMPLETIONS && !s.cq.fault && s.cq.entries != []
      && index < |if fromReads then s.queues.readBacks else s.queues.first|
      && s.cq.entries[0] == CqEntry(OnWireAt(s.queues, fromReads, index).id, ok)
    case ReapDone =>
      s.phase.Reaping? && (TARGET_COMPLETIONS <= |s.queues.reaped| || s.cq.fault || s.cq.entries == [])
    case Dispatch => s.phase.Dispatching? && s.queues.reaped != []
    case DispatchDone => s.phase.Dispatching? && s.queues.reaped == []
    case QuiesceNext(r) =>
      s.phase.Quiescing? && 0 < s.phase.attempts && s.queues.quiescing != [] && HasRead(s.queues.quiescing[0])
        && s.now <= r.at
    case QuiesceDone => s.phase.Quiescing? && s.phase.attempts == 0
    case Flush => s.phase.Flushing?
    case Batch => s.phase.Batching?
    case Decide => s.phase.Deciding?
    case ParkedReceive(_) => s.phase.Parked? && s.inbox.channel != []
    case ParkedClosed => s.phase.Parked? && s.inbox.channel == [] && s.inbox.closed
  }

  ghost predicate Enabled(s: State, step: Step) {
    CanTake(s, step) && Answerable(s, step)
  }

  function Popped(s: State): State
    requires s.inbox.channel != []
  {
    s.(inbox := s.inbox.(channel := s.inbox.channel[1..]))
  }

  ghost function Next(s: State, step: Step): State
    requires CanTake(s, step)
  {
    match step
    case BeginSubmit =>
      s.(inbox := s.inbox.(submitting := s.inbox.submitting + 1),
         accounts := s.accounts.(outstanding := s.accounts.outstanding + 1))
    case Send(message) =>
      s.(inbox := s.inbox.(channel := s.inbox.channel + [message],
                           submitting := if message.Transfer? then s.inbox.submitting - 1 else s.inbox.submitting))
    case Close => s.(inbox := s.inbox.(closed := true))
    case PoolFinish(job) => s.(queues := PoolDone(s.cfg, s.queues, job))
    case FabricDone(ofReads, place, result) =>
      s.(cq := s.cq.(entries := s.cq.entries + [CqEntry(OnWireAt(s.queues, ofReads, place).id, result)]))
    case FabricFault => s.(cq := s.cq.(fault := true))
    case Receive(answer) => Handled(Popped(s), s.inbox.channel[0], answer)
    case NoMessage =>
      s.(phase := Posting(|s.queues.pending|),
         loop := s.loop.(disconnected := s.loop.disconnected || s.inbox.closed, posted := 0))
    case PostNext(r) => PostAttempt(s.(phase := Posting(s.phase.attempts - 1)), r)
    case PostingDone => s.(phase := Reaping)
    case ReapOne(fromReads, index, ok) =>
      s.(queues := Reap(s.queues, fromReads, index, ok), loop := Moved(s.loop),
         cq := s.cq.(entries := s.cq.entries[1..]))
    case ReapDone =>
      s.(phase := Dispatching,
         loop := s.loop.(inFlight := Saturating(s.loop.inFlight, |s.queues.reaped|), reapedAny := s.queues.reaped != [],
                         progress := s.loop.progress || 0 < s.loop.inFlight),
         cq := s.cq.(fault := s.cq.fault && TARGET_COMPLETIONS <= |s.queues.reaped|))
    case Dispatch => DispatchOne(s)
    case DispatchDone => s.(phase := Quiescing(|s.queues.quiescing|))
    case QuiesceNext(r) => QuiesceAttempt(s.(phase := Quiescing(s.phase.attempts - 1)), r)
    case QuiesceDone => s.(phase := Flushing)
    case Flush => FlushCrc(s)
    case Batch => DeliverBatch(s, s.phase.idle)
    case Decide => DecideNext(s, s.phase.idle)
    case ParkedReceive(answer) => Handled(Popped(s).(phase := Intake), s.inbox.channel[0], answer)
    case ParkedClosed => s.(phase := Stopped)
  }

  /** A run: the states passed through and the steps between them. */
  ghost predicate Path(states: seq<State>, steps: seq<Step>) {
    && |states| == |steps| + 1
    && forall i | 0 <= i < |steps| :: Enabled(states[i], steps[i]) && states[i + 1] == Next(states[i], steps[i])
  }

  ghost predicate FromStart(cfg: Config, states: seq<State>, steps: seq<Step>) {
    Path(states, steps) && states[0] == Initial(cfg)
  }
}
