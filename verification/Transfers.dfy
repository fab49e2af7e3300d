/** The module's commands end to end: the requests `DMA.GET` and `DMA.SET` build, what completions make of the
    keyspace and of the blocked clients, over every device's worker at once. */
module Transfers {
  import opened Basics
  import opened WorkerModel
  import opened WorkerQueues
  import opened WorkerInvariant
  import opened WorkerTheorems
  import opened WorkerBounds
  import opened WorkerOutcomes

  type Key = nat
  type BlockedId = nat
  type Device = nat

  /** Where the client exposed its buffer. */
  datatype Advertisement = Advertisement(address: Address, remoteKey: nat, remote: nat)

  datatype Command =
    | GetCommand(length: nat, wantChecksum: bool)
    | SetCommand(length: nat, key: Key, expected: Option<nat>)

  /** A command whose client is blocked on its transfer. */
  datatype Token = Token(blocked: BlockedId, client: Client, peer: Advertisement, command: Command)

  /** The bytes a transfer of a device landed, named by the transfer. */
  datatype Value = Value(device: Device, transfer: nat, length: nat)

  type Keys = map<Key, Value>

  datatype Reply = Count(bytes: nat) | Pair(bytes: nat, checksum: nat) | TransferError(reason: Reason)
                 | Mismatch | NoLanding | NotStored

  datatype Replied = Replied(blocked: BlockedId, reply: Reply)

  /** The request a command submits. A SET asks for a checksum exactly when its client expects one, and lands
      in a buffer of the requested length. */
  function RequestFor(token: Token): Request {
    match token.command
    case GetCommand(length, want) =>
      Request(token.client, token.peer.address, token.peer.remoteKey, token.peer.remote, ToPeer, want, Some(length))
    case SetCommand(length, _, expected) =>
      Request(token.client, token.peer.address, token.peer.remoteKey, token.peer.remote, FromPeer(length),
              expected.Some?, Some(length))
  }

  function GetReply(outcome: Outcome): Reply {
    match outcome
    case Done(bytes, checksum) => if checksum.Some? then Pair(bytes, checksum.value) else Count(bytes)
    case Failed(reason) => TransferError(reason)
  }

  /** The keyspace and the reply after a SET's outcome. `landed` is the landing buffer its context carries back, if
      it allocated one; `stores` whether the store into the key goes through. */
  function SetReply(
    keys: Keys, outcome: Outcome, landed: Option<Value>, key: Key, expected: Option<nat>, stores: bool): (Keys, Reply)
  {
    match outcome
    case Failed(reason) => (keys, TransferError(reason))
    case Done(bytes, checksum) =>
      var actual := if checksum.Some? then checksum.value else 0;
      if expected.Some? && actual != expected.value then (keys, Mismatch)
      else if landed.None? then (keys, NoLanding)
      else if !stores then (keys, NotStored)
      else (keys[key := landed.value], Count(bytes))
  }

  function Finish(keys: Keys, token: Token, outcome: Outcome, landed: Option<Value>, stores: bool): (Keys, Reply) {
    match token.command
    case GetCommand(_, _) => (keys, GetReply(outcome))
    case SetCommand(_, key, expected) => SetReply(keys, outcome, landed, key, expected, stores)
  }

  // ----- What happens to the keyspace -----

  /** A completion handed back to the module with its context, or a command answered at once because its worker
      is gone. */
  datatype Happening =
    | Finished(device: Device, token: Token, completion: Completion, landed: Option<Value>, stores: bool)
    | AtOnce(token: Token)

  function HappensTo(keys: Keys, h: Happening): (Keys, Reply) {
    match h
    case Finished(_, token, completion, landed, stores) => Finish(keys, token, completion.outcome, landed, stores)
    case AtOnce(token) => Finish(keys, token, Failed(WorkerGone), None, false)
  }

  /** The keyspace after everything that happened, in the order it did. */
  function KeysAfter(keys: Keys, log: seq<Happening>): Keys {
    if log == [] then keys else HappensTo(KeysAfter(keys, log[..|log| - 1]), log[|log| - 1]).0
  }

  function RepliesAfter(keys: Keys, log: seq<Happening>): seq<Replied> {
    if log == [] then []
    else
      var n := |log| - 1;
      RepliesAfter(keys, log[..n]) + [Replied(log[n].token.blocked, HappensTo(KeysAfter(keys, log[..n]), log[n]).1)]
  }

  // ----- Several devices -----

  /** One device's worker: what it took, in order, and its run so far. */
  datatype Worker = Worker(tokens: seq<Token>, cfg: Config, states: seq<State>, steps: seq<Step>)

  ghost predicate Runs(w: Worker) {
    FromStart(w.cfg, w.states, w.steps) && |w.states| == |w.steps| + 1
  }

  ghost function Now(w: Worker): State
    requires Runs(w)
  {
    w.states[|w.steps|]
  }

  /** The transfers in a channel, in order. */
  function Sent(channel: seq<Message>): seq<Request> {
    if channel == [] then []
    else (if channel[0].Transfer? then [channel[0].request] else []) + Sent(channel[1..])
  }

  function RequestsFor(tokens: seq<Token>): (r: seq<Request>)
    ensures |r| == |tokens| && forall i | 0 <= i < |tokens| :: r[i] == RequestFor(tokens[i])
  {
    seq(|tokens|, i requires 0 <= i < |tokens| => RequestFor(tokens[i]))
  }

  /** What the module handed this worker is what it received and what its channel still holds. */
  ghost predicate Fed(w: Worker)
    requires Runs(w)
  {
    RequestsFor(w.tokens) == Now(w).inbox.requests + Sent(Now(w).inbox.channel)
  }

  /** The landing buffer a context carries back: allocated when intake asked the context for it. */
  function LandedIn(device: Device, requests: seq<Request>, id: nat): Option<Value> {
    if id < |requests| && requests[id].direction.FromPeer? && requests[id].operand.Some?
    then Some(Value(device, id, requests[id].operand.value)) else None
  }

  /** The completions of a device that finished. */
  ghost function FinishedOf(log: seq<Happening>, d: Device): multiset<Completion> {
    if log == [] then multiset{}
    else
      var h := log[|log| - 1];
      FinishedOf(log[..|log| - 1], d) + if h.Finished? && h.device == d then multiset{h.completion} else multiset{}
  }

  ghost predicate CarriesItsContext(workers: seq<Worker>, h: Happening)
    requires forall w | w in workers :: Runs(w)
  {
    h.Finished? ==>
      && h.device < |workers|
      && var w := workers[h.device];
         && h.completion.id < |w.tokens| && h.token == w.tokens[h.completion.id]
         && h.landed == LandedIn(h.device, Now(w).inbox.requests, h.completion.id)
  }

  /** Everything that finished was delivered by its worker, with its own context, and finished no more often; the
      devices' deliveries may interleave in any way. */
  ghost predicate Interleaves(workers: seq<Worker>, log: seq<Happening>) {
    && (forall w | w in workers :: Runs(w) && Fed(w))
    && (forall h | h in log :: CarriesItsContext(workers, h))
    && (forall d | 0 <= d < |workers| :: FinishedOf(log, d) <= multiset(Now(workers[d]).queues.delivered))
  }

  /** Where a blocked client is. */
  datatype Place = With(device: Device, index: nat) | Answered(at: nat)

  /** Each client that was blocked is with exactly one worker, or was answered at once. */
  ghost predicate Placed(tokens: seq<seq<Token>>, log: seq<Happening>, blocked: nat, places: map<BlockedId, Place>) {
    && (forall b: BlockedId :: b in places <==> b < blocked)
    && (forall d, i | 0 <= d < |tokens| && 0 <= i < |tokens[d]| ::
          tokens[d][i].blocked in places && places[tokens[d][i].blocked] == With(d, i))
    && (forall k | 0 <= k < |log| && log[k].AtOnce? ::
          log[k].token.blocked in places && places[log[k].token.blocked] == Answered(k))
    && (forall b | b in places ::
          match places[b]
          case With(d, i) => d < |tokens| && i < |tokens[d]| && tokens[d][i].blocked == b
          case Answered(k) => k < |log| && log[k].AtOnce? && log[k].token.blocked == b)
  }

  ghost function TokensOf(workers: seq<Worker>): (tokens: seq<seq<Token>>)
    ensures |tokens| == |workers| && forall d | 0 <= d < |workers| :: tokens[d] == workers[d].tokens
  {
    seq(|workers|, d requires 0 <= d < |workers| => workers[d].tokens)
  }

  /** A completion with its context places nobody anew. */
  lemma FinishedKeepsPlaces(
    tokens: seq<seq<Token>>, log: seq<Happening>, blocked: nat, places: map<BlockedId, Place>, h: Happening)
    requires Placed(tokens, log, blocked, places) && h.Finished?
    ensures Placed(tokens, log + [h], blocked, places)
  {}

  // ----- What a worker's completion says of its command -----

  predicate Issued(tokens: seq<Token>, requests: seq<Request>) {
    |requests| <= |tokens| && forall i | 0 <= i < |requests| :: requests[i] == RequestFor(tokens[i])
  }

  lemma FedIsIssued(w: Worker)
    requires Runs(w) && Fed(w)
    ensures Issued(w.tokens, Now(w).inbox.requests)
  {
    hide Path, Sent, RequestFor;
    var requests := Now(w).inbox.requests;
    forall i | 0 <= i < |requests|
      ensures requests[i] == RequestFor(w.tokens[i])
    {
      assert RequestsFor(w.tokens)[i] == requests[i];
    }
  }

  /** A completion whose value may go into `key`: a SET of that key, done, whole, and with the checksum
      its client expected of the very bytes it landed. */
  ghost predicate Commits(workers: seq<Worker>, d: Device, c: Completion, key: Key) {
    && d < |workers| && c.id < |workers[d].tokens|
    && var command := workers[d].tokens[c.id].command;
       && command.SetCommand? && command.key == key && c.outcome.Done? && c.outcome.bytes == command.length
       && (command.expected.Some? ==> workers[d].cfg.digest(c.id) == command.expected.value)
  }

  predicate Untouched(before: Keys, after: Keys, key: Key) {
    (key in after <==> key in before) && (key in before ==> after[key] == before[key])
  }

  /** What a worker receives is what its command's client asked for, field by field: that client, its advertised
      buffer, and for a GET the value's bytes, for a SET a landing buffer of the length it sends. */
  lemma RequestsAreTheirTokens(w: Worker, i: nat)
    requires Runs(w) && Fed(w) && i < |Now(w).inbox.requests|
    ensures i < |w.tokens|
    ensures var r, token := Now(w).inbox.requests[i], w.tokens[i];
            && r.client == token.client && r.address == token.peer.address
            && r.key == token.peer.remoteKey && r.remote == token.peer.remote
            && r.direction == (if token.command.GetCommand? then ToPeer else FromPeer(token.command.length))
            && r.operand == Some(token.command.length)
            && r.wantChecksum == if token.command.GetCommand? then token.command.wantChecksum
               else token.command.expected.Some?
  {
    hide Path, Sent;
    FedIsIssued(w);
  }

  lemma HonestIsKnown(cfg: Config, requests: seq<Request>, c: Completion)
    requires Honest(cfg, requests, c)
    ensures c.id < |requests|
  {
    hide Proven, Prepare;
  }

  lemma HonestSetIsWhole(cfg: Config, tokens: seq<Token>, requests: seq<Request>, c: Completion)
    requires Issued(tokens, requests) && Honest(cfg, requests, c) && c.outcome.Done?
    requires c.id < |tokens| && tokens[c.id].command.SetCommand?
    ensures c.outcome.bytes == tokens[c.id].command.length
    ensures c.outcome.checksum == if tokens[c.id].command.expected.Some? then Some(cfg.digest(c.id)) else None
  {
    hide Proven;
  }

  /** A SET that succeeds had its landing buffer allocated, of the requested length, before anything was posted. */
  lemma HonestSetLanded(d: Device, cfg: Config, tokens: seq<Token>, requests: seq<Request>, c: Completion)
    requires Issued(tokens, requests) && Honest(cfg, requests, c) && c.outcome.Done?
    requires c.id < |tokens| && tokens[c.id].command.SetCommand?
    ensures LandedIn(d, requests, c.id) == Some(Value(d, c.id, tokens[c.id].command.length))
  {
    hide Proven;
  }

  /** What a delivered completion's command comes to, whatever the keyspace holds by then. */
  lemma FinishCommits(
    d: Device, cfg: Config, tokens: seq<Token>, requests: seq<Request>, keys: Keys, c: Completion, stores: bool)
    requires Issued(tokens, requests) && Honest(cfg, requests, c)
    ensures c.id < |tokens|
    ensures var token := tokens[c.id];
            Finish(keys, token, c.outcome, LandedIn(d, requests, c.id), stores) ==
            match c.outcome
            case Failed(reason) => (keys, TransferError(reason))
            case Done(_, checksum) =>
              if token.command.GetCommand? then (keys, GetReply(c.outcome))
              else if token.command.expected.Some? && cfg.digest(c.id) != token.command.expected.value
              then (keys, Mismatch)
              else if !stores then (keys, NotStored)
              else (keys[token.command.key := Value(d, c.id, token.command.length)], Count(token.command.length))
  {
    hide Honest, LandedIn, Issued;
    HonestIsKnown(cfg, requests, c);
    IssuedIsLonger(tokens, requests);
    if tokens[c.id].command.SetCommand? && c.outcome.Done? {
      HonestSetIsWhole(cfg, tokens, requests, c);
      HonestSetLanded(d, cfg, tokens, requests, c);
    }
  }

  lemma IssuedIsLonger(tokens: seq<Token>, requests: seq<Request>)
    requires Issued(tokens, requests)
    ensures |requests| <= |tokens|
  {}

  lemma DeliveredIsHonest(cfg: Config, states: seq<State>, steps: seq<Step>, i: nat)
    requires FromStart(cfg, states, steps) && i < |states|
    ensures forall c | c in states[i].queues.delivered :: Honest(cfg, states[i].inbox.requests, c)
  {
    hide Path, Honest, Tallied, ClientsAgree, Productive, Scheduled, Settled;
    RunKeepsInvariant(cfg, states, steps, i);
  }

  lemma {:induction false} EachFinishedIsCounted(log: seq<Happening>, k: nat)
    requires k < |log| && log[k].Finished?
    ensures log[k].completion in FinishedOf(log, log[k].device)
  {
    var n := |log| - 1;
    if k < n {
      EachFinishedIsCounted(log[..n], k);
    }
  }

  /** What finished was delivered, and says the truth. */
  lemma FinishedIsHonest(workers: seq<Worker>, log: seq<Happening>, k: nat)
    requires Interleaves(workers, log) && k < |log| && log[k].Finished?
    ensures log[k].device < |workers|
    ensures var w := workers[log[k].device];
            && Runs(w) && Issued(w.tokens, Now(w).inbox.requests)
            && Honest(w.cfg, Now(w).inbox.requests, log[k].completion)
            && log[k].completion in Now(w).queues.delivered && log[k].completion.id < |w.tokens|
            && log[k].token == w.tokens[log[k].completion.id]
            && log[k].landed == LandedIn(log[k].device, Now(w).inbox.requests, log[k].completion.id)
  {
    hide Honest, Path, Issued, FinishedOf, LandedIn, Fed;
    assert CarriesItsContext(workers, log[k]);
    var w := workers[log[k].device];
    assert w in workers;
    EachFinishedIsCounted(log, k);
    FedIsIssued(w);
    DeliveredIsHonest(w.cfg, w.states, w.steps, |w.steps|);
    assert log[k].completion in multiset(Now(w).queues.delivered);
  }

  // ----- The keyspace -----

  /** What happened at `k` stored into the key: some device's SET of it, verified, whose store went through. */
  ghost predicate StoresAt(workers: seq<Worker>, log: seq<Happening>, k: nat, key: Key) {
    k < |log| && log[k].Finished? && log[k].stores && Commits(workers, log[k].device, log[k].completion, key)
  }

  /** Of the first `n` happenings, the one at `k` was the last to store into the key, and this is the value. */
  ghost predicate StoredLast(workers: seq<Worker>, log: seq<Happening>, n: nat, k: nat, key: Key, value: Value) {
    && k < n && StoresAt(workers, log, k, key)
    && value == Value(log[k].device, log[k].completion.id, log[k].token.command.length)
    && forall j: nat | k < j < n :: !StoresAt(workers, log, j, key)
  }

  ghost predicate NeverStored(workers: seq<Worker>, log: seq<Happening>, n: nat, key: Key) {
    forall j: nat | j < n :: !StoresAt(workers, log, j, key)
  }

  /** After the first `n` happenings the key holds what was stored into it last, or is as it was and nothing was. */
  ghost predicate HoldsTheLast(workers: seq<Worker>, log: seq<Happening>, n: nat, before: Keys, after: Keys, key: Key) {
    || (NeverStored(workers, log, n, key) && Untouched(before, after, key))
    || (key in after && exists k: nat :: StoredLast(workers, log, n, k, key, after[key]))
  }

  /** One happening stores into a key, or leaves it alone. */
  lemma HappeningStores(workers: seq<Worker>, log: seq<Happening>, k: nat, keys: Keys, key: Key)
    requires Interleaves(workers, log) && k < |log|
    ensures var after := HappensTo(keys, log[k]).0;
            if StoresAt(workers, log, k, key)
            then key in after && after[key] == Value(log[k].device, log[k].completion.id, log[k].token.command.length)
            else Untouched(keys, after, key)
  {
    hide Interleaves, Honest, LandedIn, Issued;
    match log[k]
    case AtOnce(_) =>
    case Finished(d, token, c, landed, stores) =>
      FinishedIsHonest(workers, log, k);
      var w := workers[d];
      FinishCommits(d, w.cfg, w.tokens, Now(w).inbox.requests, keys, c, stores);
      if c.outcome.Done? && token.command.SetCommand? {
        HonestSetIsWhole(w.cfg, w.tokens, Now(w).inbox.requests, c);
      }
  }

  lemma LastStays(
    workers: seq<Worker>, log: seq<Happening>, m: nat, before: Keys, keys: Keys, after: Keys, key: Key)
    requires HoldsTheLast(workers, log, m, before, keys, key)
    requires !StoresAt(workers, log, m, key) && Untouched(keys, after, key)
    ensures HoldsTheLast(workers, log, m + 1, before, after, key)
  {
    hide StoresAt;
    if key in keys && exists k: nat :: StoredLast(workers, log, m, k, key, keys[key]) {
      var k: nat :| StoredLast(workers, log, m, k, key, keys[key]);
      assert StoredLast(workers, log, m + 1, k, key, after[key]);
    } else {
      assert NeverStored(workers, log, m + 1, key);
    }
  }

  lemma {:induction false} KeysHoldTheLastOf(workers: seq<Worker>, log: seq<Happening>, n: nat, keys: Keys, key: Key)
    requires Interleaves(workers, log) && n <= |log|
    ensures HoldsTheLast(workers, log, n, keys, KeysAfter(keys, log[..n]), key)
  {
    hide Interleaves, StoresAt, HappensTo;
    if 0 < n {
      var m: nat := n - 1;
      var soFar := KeysAfter(keys, log[..m]);
      assert log[..n][..m] == log[..m] && log[..n][m] == log[m];
      KeysHoldTheLastOf(workers, log, m, keys, key);
      HappeningStores(workers, log, m, soFar, key);
      if StoresAt(workers, log, m, key) {
        assert StoredLast(workers, log, n, m, key, KeysAfter(keys, log[..n])[key]);
      } else {
        LastStays(workers, log, m, keys, soFar, KeysAfter(keys, log[..n]), key);
      }
    }
  }

  /** Over every device at once and however their deliveries interleave, a key holds the bytes of the last SET of
      that key that finished whole on its device, with the checksum its client expected, and was stored; where there
      is none the key is untouched. */
  lemma {:induction false} KeysHoldTheLastVerifiedValue(workers: seq<Worker>, log: seq<Happening>, keys: Keys, key: Key)
    requires Interleaves(workers, log)
    ensures HoldsTheLast(workers, log, |log|, keys, KeysAfter(keys, log), key)
  {
    hide Interleaves, HoldsTheLast;
    KeysHoldTheLastOf(workers, log, |log|, keys, key);
    assert log[..|log|] == log;
  }

  /** What each finished command is answered: a GET its value's length, with the checksum of those bytes exactly if
      it asked; a SET its length once stored, after the checksum its client expected, always brought back by the
      worker, and from a landing buffer intake allocated, so neither stand-in is used; a failure, its reason. */
  lemma {:induction false} RepliesTellTheOutcome(workers: seq<Worker>, log: seq<Happening>, k: nat, keys: Keys)
    requires Interleaves(workers, log) && k < |log| && log[k].Finished?
    ensures log[k].device < |workers|
    ensures var c := log[k].completion; var command := log[k].token.command;
            var digest := workers[log[k].device].cfg.digest;
            HappensTo(keys, log[k]).1 ==
            match c.outcome
            case Failed(reason) => TransferError(reason)
            case Done(_, _) =>
              (match command
               case GetCommand(length, want) => if want then Pair(length, digest(c.id)) else Count(length)
               case SetCommand(length, _, expected) =>
                 if expected.Some? && digest(c.id) != expected.value then Mismatch
                 else if log[k].stores then Count(length) else NotStored)
  {
    hide Interleaves, Honest, LandedIn, Issued, Path;
    FinishedIsHonest(workers, log, k);
    var w := workers[log[k].device];
    var c := log[k].completion;
    FinishCommits(log[k].device, w.cfg, w.tokens, Now(w).inbox.requests, keys, c, log[k].stores);
    if c.outcome.Done? {
      SuccessIsProven(w.cfg, w.states, w.steps, |w.steps|, c);
      RequestIsTheTokens(w.cfg, w.tokens, Now(w).inbox.requests, c);
    }
  }

  /** A completion is of the request its context was submitted with: the same client, buffer, direction and length. */
  lemma {:induction false} CompletionsAreTheirTokens(workers: seq<Worker>, log: seq<Happening>, k: nat)
    requires Interleaves(workers, log) && k < |log| && log[k].Finished?
    ensures var r, token := log[k].completion.request, log[k].token;
            && r.client == token.client && r.address == token.peer.address
            && r.key == token.peer.remoteKey && r.remote == token.peer.remote
            && r.direction == (if token.command.GetCommand? then ToPeer else FromPeer(token.command.length))
            && r.operand == Some(token.command.length)
  {
    hide Interleaves, Honest, LandedIn, Issued, Path;
    FinishedIsHonest(workers, log, k);
    RequestIsTheTokens(workers[log[k].device].cfg, workers[log[k].device].tokens,
                       Now(workers[log[k].device]).inbox.requests, log[k].completion);
  }

  /** Whether a finished command is answered with its result or with an error is what libfabric's events say: a GET
      whose bytes were written, and read back if they had to be, is answered with its length, and a SET whose bytes
      were read is answered by its checksum and its store, never as failed; one whose operation ended badly is a
      completion error. */
  lemma {:induction false} RepliesFollowTheEvents(workers: seq<Worker>, log: seq<Happening>, k: nat, keys: Keys)
    requires Interleaves(workers, log) && k < |log| && log[k].Finished?
    ensures log[k].device < |workers|
    ensures var reply, command, trail := HappensTo(keys, log[k]).1, log[k].token.command, log[k].completion.trail;
            var n, cfg := |trail|, workers[log[k].device].cfg;
            && (command.GetCommand? ==>
                  (reply.Count? || reply.Pair? <==>
                    && 0 < n && trail[n - 1] == Reaped(true)
                    && (cfg.quiesceWrites && 0 < command.length ==> n == 4)))
            && (command.SetCommand? ==>
                  (reply.Count? || reply.Mismatch? || reply.NotStored? <==> 0 < n && trail[n - 1] == Reaped(true)))
            && (reply == TransferError(CompletionError) <==> 0 < n && trail[n - 1] == Reaped(false))
            && (reply.TransferError? <==> log[k].completion.outcome.Failed?) && !reply.NoLanding?
  {
    hide Interleaves, Honest, LandedIn, Issued, Path, HappensTo;
    FinishedIsHonest(workers, log, k);
    var w := workers[log[k].device];
    RepliesTellTheOutcome(workers, log, k, keys);
    OutcomeIsWhatHappened(w.cfg, w.states, w.steps, |w.steps|, log[k].completion);
    CompletionsAreTheirTokens(workers, log, k);
  }

  lemma RequestIsTheTokens(cfg: Config, tokens: seq<Token>, requests: seq<Request>, c: Completion)
    requires Issued(tokens, requests) && Honest(cfg, requests, c)
    ensures c.id < |tokens| && c.request == RequestFor(tokens[c.id])
  {
    hide Proven, Prepare;
  }

  /** A command that succeeds moved its bytes between the server and exactly the buffer its client advertised: a
      GET by one write of the whole value, a SET by one read of the whole request, posted to that address, with
      that key, at that offset, and completed. */
  lemma {:induction false} SuccessMovedTheAdvertisedBuffer(workers: seq<Worker>, log: seq<Happening>, k: nat)
    requires Interleaves(workers, log) && k < |log| && log[k].Finished? && log[k].completion.outcome.Done?
    ensures var trail, token := log[k].completion.trail, log[k].token;
            && |trail| >= 2 && trail[0].Posted? && trail[1] == Reaped(true)
            && trail[0].peer.address == token.peer.address
            && trail[0] == Posted(if token.command.GetCommand? then Write else Read, trail[0].peer,
                                  token.peer.remoteKey, token.peer.remote, token.command.length)
            && log[k].completion.outcome.bytes == token.command.length
  {
    hide Interleaves, Honest, LandedIn, Issued, Path;
    FinishedIsHonest(workers, log, k);
    var w := workers[log[k].device];
    SuccessIsProven(w.cfg, w.states, w.steps, |w.steps|, log[k].completion);
    RequestIsTheTokens(w.cfg, w.tokens, Now(w).inbox.requests, log[k].completion);
  }

  // ----- One reply each -----

  lemma {:induction false} RepliesAddressTheirClients(keys: Keys, log: seq<Happening>)
    ensures var replies := RepliesAfter(keys, log);
            |replies| == |log| && forall k | 0 <= k < |log| :: replies[k].blocked == log[k].token.blocked
  {
    hide HappensTo;
    if log != [] {
      var n := |log| - 1;
      RepliesAddressTheirClients(keys, log[..n]);
    }
  }

  ghost predicate RepliedAt(replies: seq<Replied>, k: nat, blocked: BlockedId) {
    k < |replies| && replies[k].blocked == blocked
  }

  ghost predicate NoneTwice(replies: seq<Replied>) {
    forall j: nat, k: nat, b: BlockedId | RepliedAt(replies, j, b) && RepliedAt(replies, k, b) :: j == k
  }

  ghost predicate HasReply(replies: seq<Replied>, b: BlockedId) {
    exists k: nat :: RepliedAt(replies, k, b)
  }

  /** Two places of a history that finish one completion of one device count it twice. */
  lemma {:induction false} TwiceFinishedCountsTwo(log: seq<Happening>, j: nat, k: nat)
    requires j < k < |log| && log[j].Finished? && log[k].Finished?
    requires log[j].device == log[k].device && log[j].completion == log[k].completion
    ensures 2 <= FinishedOf(log, log[k].device)[log[k].completion]
  {
    hide FinishedOf;
    var n := |log| - 1;
    var before := log[..n];
    LastIsCounted(log, log[k].device);
    if k < n {
      TwiceFinishedCountsTwo(before, j, k);
    } else {
      EachFinishedIsCounted(before, j);
    }
  }

  lemma LastIsCounted(log: seq<Happening>, d: Device)
    requires log != []
    ensures var h := log[|log| - 1];
            FinishedOf(log, d) == FinishedOf(log[..|log| - 1], d)
                                  + if h.Finished? && h.device == d then multiset{h.completion} else multiset{}
  {}

  lemma {:induction false} DistinctOccurOnce(d: seq<Completion>, c: Completion)
    requires forall j, k | 0 <= j < |d| && 0 <= k < |d| && d[j].id == d[k].id :: j == k
    ensures multiset(d)[c] <= 1
  {
    if d != [] {
      var n := |d| - 1;
      DistinctOccurOnce(d[..n], c);
      assert d == d[..n] + [d[n]];
      if d[n] == c {
        assert forall j | 0 <= j < n :: d[j] != c;
      }
    }
  }

  lemma DeliveredOnce(w: Worker, a: Completion, b: Completion)
    requires Runs(w) && a in Now(w).queues.delivered && b in Now(w).queues.delivered && a.id == b.id
    ensures a == b && multiset(Now(w).queues.delivered)[a] <= 1
  {
    hide Path, PlacesOf;
    ExactlyOnce(w.cfg, w.states, w.steps, |w.steps|);
    var d := Now(w).queues.delivered;
    var j :| 0 <= j < |d| && d[j] == a;
    var k :| 0 <= k < |d| && d[k] == b;
    assert d[j].id == d[k].id;
    DistinctOccurOnce(d, a);
  }

  lemma NoTwoFinishOne(workers: seq<Worker>, log: seq<Happening>, j: nat, k: nat)
    requires Interleaves(workers, log) && j < k < |log| && log[j].Finished? && log[k].Finished?
    ensures !(log[j].device == log[k].device && log[j].completion.id == log[k].completion.id)
  {
    hide Honest, LandedIn, Issued, Path, Fed, FinishedOf, CarriesItsContext;
    FinishedIsHonest(workers, log, j);
    FinishedIsHonest(workers, log, k);
    if log[j].device == log[k].device && log[j].completion.id == log[k].completion.id {
      DeliveredOnce(workers[log[k].device], log[j].completion, log[k].completion);
      TwiceFinishedCountsTwo(log, j, k);
    }
  }

  /** Nobody is answered twice: not by two devices, nor by one device twice, nor by a device and at once. */
  lemma {:induction false} NobodyIsAnsweredTwice(
    workers: seq<Worker>, log: seq<Happening>, keys: Keys, blocked: nat, places: map<BlockedId, Place>)
    requires Interleaves(workers, log) && Placed(TokensOf(workers), log, blocked, places)
    ensures NoneTwice(RepliesAfter(keys, log))
  {
    hide Interleaves, RepliesAfter, Placed;
    RepliesAddressTheirClients(keys, log);
    var replies := RepliesAfter(keys, log);
    forall j: nat, k: nat, b: BlockedId | RepliedAt(replies, j, b) && RepliedAt(replies, k, b)
      ensures j == k
    {
      if j < k {
        OneAnswerEach(workers, log, j, k, blocked, places);
      } else if k < j {
        OneAnswerEach(workers, log, k, j, blocked, places);
      }
    }
  }

  lemma OneAnswerEach(
    workers: seq<Worker>, log: seq<Happening>, j: nat, k: nat, blocked: nat, places: map<BlockedId, Place>)
    requires Interleaves(workers, log) && Placed(TokensOf(workers), log, blocked, places) && j < k < |log|
    ensures log[j].token.blocked != log[k].token.blocked
  {
    hide Interleaves, Honest, Issued, LandedIn, Runs;
    if log[j].Finished? {
      FinishedIsHonest(workers, log, j);
    }
    if log[k].Finished? {
      FinishedIsHonest(workers, log, k);
    }
    if log[j].Finished? && log[k].Finished? {
      NoTwoFinishOne(workers, log, j, k);
    }
  }

  /** All workers have returned and the pool is done, and whatever was delivered has been finished. */
  ghost predicate AllDone(workers: seq<Worker>, log: seq<Happening>) {
    forall d | 0 <= d < |workers| ::
      && Runs(workers[d]) && Now(workers[d]).phase.Stopped? && Now(workers[d]).queues.pool == []
      && FinishedOf(log, d) == multiset(Now(workers[d]).queues.delivered)
  }

  lemma {:induction false} FinishedSomewhere(log: seq<Happening>, d: Device, c: Completion) returns (k: nat)
    requires c in FinishedOf(log, d)
    ensures k < |log| && log[k].Finished? && log[k].device == d && log[k].completion == c
  {
    var n := |log| - 1;
    if log[n].Finished? && log[n].device == d && log[n].completion == c {
      k := n;
    } else {
      k := FinishedSomewhere(log[..n], d, c);
    }
  }

  lemma StoppedTookEverything(w: Worker)
    requires Runs(w) && Fed(w) && Now(w).phase.Stopped?
    ensures |w.tokens| == |Now(w).inbox.requests|
  {
    hide Path, RequestFor;
    StopLeavesNothing(w.cfg, w.states, w.steps, |w.steps|);
    assert RequestsFor(w.tokens) == Now(w).inbox.requests;
  }

  /** When every worker has returned and the pool is done, every client that was ever blocked has been answered,
      by its device or at once, and so exactly once. */
  lemma {:induction false} EveryClientIsAnswered(
    workers: seq<Worker>, log: seq<Happening>, keys: Keys, blocked: nat, places: map<BlockedId, Place>, b: BlockedId)
    requires Interleaves(workers, log) && Placed(TokensOf(workers), log, blocked, places) && AllDone(workers, log)
             && b < blocked
    ensures HasReply(RepliesAfter(keys, log), b)
  {
    hide RepliesAfter, Honest, Path, FinishedOf, Fed, LandedIn, IdBag, CompletedBag;
    RepliesAddressTheirClients(keys, log);
    match places[b]
    case Answered(k) => assert RepliedAt(RepliesAfter(keys, log), k, b);
    case With(d, i) =>
      var w := workers[d];
      assert w in workers && TokensOf(workers)[d] == w.tokens;
      StoppedTookEverything(w);
      StopLeavesNothing(w.cfg, w.states, w.steps, |w.steps|);
      assert IsDelivered(Now(w).queues.delivered, i);
      var q :| 0 <= q < |Now(w).queues.delivered| && Now(w).queues.delivered[q].id == i;
      var k := FinishedSomewhere(log, d, Now(w).queues.delivered[q]);
      assert CarriesItsContext(workers, log[k]);
      assert RepliedAt(RepliesAfter(keys, log), k, b);
  }

  // ----- Choosing a device -----

  /** The key devices are compared by: the load, then the index rotated by how many were chosen before. */
  predicate Before(loads: seq<nat>, rotation: nat, i: nat, j: nat)
    requires i < |loads| && j < |loads|
  {
    loads[i] < loads[j] || (loads[i] == loads[j] && (i + rotation) % |loads| <= (j + rotation) % |loads|)
  }

  ghost predicate IsChosen(loads: seq<nat>, rotation: nat, i: nat) {
    i < |loads| && forall j: nat | j < |loads| :: Before(loads, rotation, i, j)
  }

  /** The chosen device's load is least, and its rotated index is among the equally loaded. */
  lemma ChosenIsLeast(loads: seq<nat>, rotation: nat, i: nat)
    requires IsChosen(loads, rotation, i)
    ensures i < |loads| && forall j | 0 <= j < |loads| :: loads[i] <= loads[j]
    ensures forall j | 0 <= j < |loads| && loads[j] == loads[i] :: (i + rotation) % |loads| <= (j + rotation) % |loads|
  {
    forall j | 0 <= j < |loads|
      ensures loads[i] <= loads[j]
      ensures loads[j] == loads[i] ==> (i + rotation) % |loads| <= (j + rotation) % |loads|
    {
      var other: nat := j;
      assert Before(loads, rotation, i, other);
    }
  }

  lemma MultiplesApart(n: nat, a: nat, b: nat)
    requires a < b
    ensures n * a + n <= n * b
  {
    assert n * b == n * (a + 1) + n * (b - (a + 1));
  }

  lemma RemainderIs(n: nat, q: nat, m: nat)
    requires m < n
    ensures (n * q + m) % n == m && (n * q + m) / n == q
  {
    var x := n * q + m;
    var quotient, remainder := x / n, x % n;
    assert x == n * quotient + remainder;
    if q < quotient {
      MultiplesApart(n, q, quotient);
    } else if quotient < q {
      MultiplesApart(n, quotient, q);
    }
  }

  /** Numbers with the same remainder lie at least `n` apart. */
  lemma SameRemainderIsApart(n: nat, a: nat, b: nat)
    requires 0 < n && a % n == b % n && a < b
    ensures a + n <= b
  {
    var p, q, m := a / n, b / n, a % n;
    assert a == n * p + m && b == n * q + m;
    if p < q {
      MultiplesApart(n, p, q);
    } else {
      NoMore(n, q, p);
    }
  }

  lemma NoMore(n: nat, q: nat, p: nat)
    requires q <= p
    ensures n * q <= n * p
  {
    if q < p {
      MultiplesApart(n, q, p);
    }
  }

  lemma RotatedApart(n: nat, rotation: nat, i: nat, j: nat)
    requires i < n && j < n && (i + rotation) % n == (j + rotation) % n
    ensures i == j
  {
    if i < j {
      SameRemainderIsApart(n, i + rotation, j + rotation);
    } else if j < i {
      SameRemainderIsApart(n, j + rotation, i + rotation);
    }
  }

  /** Only one device can be first. */
  lemma ChosenIsOne(loads: seq<nat>, rotation: nat, i: nat, j: nat)
    requires IsChosen(loads, rotation, i) && IsChosen(loads, rotation, j)
    ensures i == j
  {
    assert Before(loads, rotation, i, j) && Before(loads, rotation, j, i);
    RotatedApart(|loads|, rotation, i, j);
  }

  /** While every device is equally loaded, successive choices go round all of them before repeating one. */
  lemma BurstsSpread(loads: seq<nat>, rotation: nat, later: nat, i: nat)
    requires forall a, b | 0 <= a < |loads| && 0 <= b < |loads| :: loads[a] == loads[b]
    requires IsChosen(loads, rotation, i) && rotation < later < rotation + |loads|
    ensures !IsChosen(loads, later, i)
  {
    if IsChosen(loads, later, i) {
      FirstIsZero(loads, rotation, i);
      FirstIsZero(loads, later, i);
      SameRemainderIsApart(|loads|, i + rotation, i + later);
    }
  }

  /** With equal loads the choice is the device the rotation takes to zero. */
  lemma FirstIsZero(loads: seq<nat>, rotation: nat, i: nat)
    requires (forall a, b | 0 <= a < |loads| && 0 <= b < |loads| :: loads[a] == loads[b])
             && IsChosen(loads, rotation, i)
    ensures (i + rotation) % |loads| == 0
  {
    var n := |loads|;
    var z := (n - rotation % n) % n;
    RotatesToZero(n, rotation);
    assert Before(loads, rotation, i, z);
  }

  lemma RotatesToZero(n: nat, rotation: nat)
    requires 0 < n
    ensures var z := (n - rotation % n) % n; 0 <= z < n && (z + rotation) % n == 0
  {
    var q, m := rotation / n, rotation % n;
    assert rotation == n * q + m;
    if m == 0 {
      RemainderIs(n, 1, 0);
    } else {
      RemainderIs(n, 0, n - m);
      assert n - m + rotation == n * (q + 1) + 0;
      RemainderIs(n, q + 1, 0);
    }
  }
}
