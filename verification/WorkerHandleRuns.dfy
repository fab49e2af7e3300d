/** Runs that pull the handle from under a write in flight: its own client readvertises, or the last client that
    still shared its entry is removed. */
module WorkerHandleRuns {
  import opened Basics
  import opened AddressTable
  import opened WorkerModel
  import opened WorkerPeers
  import opened WorkerRuns

  /** A write of an empty value. */
  function EmptyWrite(a: Address): Request {
    Request(0, a, 0, 0, ToPeer, false, Some(0))
  }

  function Queued(a: Address): Item {
    Item(0, EmptyWrite(a), 0, a, None, None, false, [])
  }

  function Flying(a: Address): Item {
    WriteOut(Queued(a), Binding(0, a))
  }

  /** A state of these runs: at most the one write pending or in flight, and the peers. */
  ghost predicate Laid(
    cfg: Config, s: State, phase: Phase, pending: seq<Item>, first: seq<Item>, channel: seq<Message>, peers: Table)
  {
    && s.cfg == cfg && s.phase == phase && s.now == 0 && s.inbox.channel == channel && !s.inbox.closed
    && s.cq == CompletionQueue([], false)
    && s.queues.pending == pending && s.queues.first == first
    && s.queues.quiescing == s.queues.readBacks == s.queues.reaped == []
    && s.queues.crc == [] && s.queues.completions == [] && s.loop.inFlight == |first|
    && s.accounts.peers == peers && s.accounts.byClient.Keys <= {0}
  }

  // ----- The write is posted -----

  lemma WriteIsSent(cfg: Config, a: Address) returns (states: seq<State>, steps: seq<Step>, s: State)
    ensures Reaches(cfg, states, steps, s) && Laid(cfg, s, Intake, [], [], [Transfer(EmptyWrite(a))], map[])
    ensures s.inbox.requests == [] && s.accounts.byClient == map[]
  {
    hide PostAttempt, QuiesceAttempt, Handled, DispatchOne, FlushCrc, DeliverBatch, DecideNext, Reap, PoolDone,
      Answerable;
    var s0 := Initial(cfg);
    var s1 := Next(s0, BeginSubmit);
    s := Next(s1, Send(Transfer(EmptyWrite(a))));
    states, steps := [s0, s1, s], [BeginSubmit, Send(Transfer(EmptyWrite(a)))];
    NothingAsked(s0, BeginSubmit);
    NothingAsked(s1, Send(Transfer(EmptyWrite(a))));
  }

  lemma NothingAsked(s: State, step: Step)
    requires Outside(step)
    ensures Answerable(s, step)
  {}

  lemma WriteIsReceived(cfg: Config, a: Address, s: State)
    requires Laid(cfg, s, Intake, [], [], [Transfer(EmptyWrite(a))], map[]) && s.inbox.requests == []
    ensures Enabled(s, Receive(None)) && Laid(cfg, Next(s, Receive(None)), Intake, [Queued(a)], [], [], map[])
  {
    hide PostAttempt, QuiesceAttempt, Advertise;
  }

  lemma IntakeEnds(cfg: Config, a: Address, s: State)
    requires Laid(cfg, s, Intake, [Queued(a)], [], [], map[])
    ensures Enabled(s, NoMessage) && Laid(cfg, Next(s, NoMessage), Posting(1), [Queued(a)], [], [], map[])
  {
    hide PostAttempt, QuiesceAttempt, Handled;
  }

  lemma FirstBinds(format: AddressFormat, a: Address)
    requires Usable(format, a)
    ensures Advertise(format, map[], 0, a, Some(0)) == map[0 := Binding(0, a)]
    ensures Resolved(format, map[], 0, a, Some(0)) == Some(0)
    ensures AnswerPossible(format, map[], 0, a, Some(0))
  {}

  lemma WriteIsPosted(cfg: Config, a: Address, s: State)
    requires 0 < cfg.cap && Usable(cfg.format, a) && Laid(cfg, s, Posting(1), [Queued(a)], [], [], map[])
    ensures var post := PostNext(PostReply(Some(0), true, Accepted, 0));
            Enabled(s, post) && Laid(cfg, Next(s, post), Posting(0), [], [Flying(a)], [], map[0 := Binding(0, a)])
  {
    hide Usable, Advertise, Resolved, AnswerPossible, QuiesceAttempt, Handled, FirstPost;
    FirstBinds(cfg.format, a);
  }

  // ----- A pass that reaps nothing -----

  lemma PostingEnds(cfg: Config, s: State, x: Item, peers: Table)
    requires Laid(cfg, s, Posting(0), [], [x], [], peers)
    ensures Enabled(s, PostingDone) && Laid(cfg, Next(s, PostingDone), Reaping, [], [x], [], peers)
  {
    hide PostAttempt, QuiesceAttempt, Handled;
  }

  lemma NothingIsReaped(cfg: Config, s: State, x: Item, peers: Table)
    requires Laid(cfg, s, Reaping, [], [x], [], peers)
    ensures Enabled(s, ReapDone) && Laid(cfg, Next(s, ReapDone), Dispatching, [], [x], [], peers)
  {
    hide PostAttempt, QuiesceAttempt, Handled;
  }

  lemma NothingIsDispatched(cfg: Config, s: State, x: Item, peers: Table)
    requires Laid(cfg, s, Dispatching, [], [x], [], peers)
    ensures Enabled(s, DispatchDone) && Laid(cfg, Next(s, DispatchDone), Quiescing(0), [], [x], [], peers)
  {
    hide PostAttempt, QuiesceAttempt, Handled;
  }

  lemma NothingIsQuiesced(cfg: Config, s: State, x: Item, peers: Table)
    requires Laid(cfg, s, Quiescing(0), [], [x], [], peers)
    ensures Enabled(s, QuiesceDone) && Laid(cfg, Next(s, QuiesceDone), Flushing, [], [x], [], peers)
  {
    hide PostAttempt, QuiesceAttempt, Handled;
  }

  lemma NothingIsFlushed(cfg: Config, s: State, x: Item, peers: Table)
    requires Laid(cfg, s, Flushing, [], [x], [], peers)
    ensures Enabled(s, Flush) && Laid(cfg, Next(s, Flush), Batching(false), [], [x], [], peers)
  {
    hide PostAttempt, QuiesceAttempt, Handled;
  }

  lemma NothingIsDelivered(cfg: Config, s: State, x: Item, peers: Table)
    requires Laid(cfg, s, Batching(false), [], [x], [], peers)
    ensures Enabled(s, Batch) && Laid(cfg, Next(s, Batch), Deciding(false), [], [x], [], peers)
  {
    hide PostAttempt, QuiesceAttempt, Handled;
  }

  lemma LoopComesRound(cfg: Config, s: State, x: Item, peers: Table)
    requires Laid(cfg, s, Deciding(false), [], [x], [], peers)
    ensures Enabled(s, Decide) && Laid(cfg, Next(s, Decide), Intake, [], [x], [], peers)
  {
    hide PostAttempt, QuiesceAttempt, Handled;
  }

  /** The write is in flight, bound to its entry, and the loop is back at its channel. */
  lemma {:induction false} WriteFlies(cfg: Config, a: Address) returns (states: seq<State>, steps: seq<Step>, s: State)
    requires 0 < cfg.cap && Usable(cfg.format, a)
    ensures Reaches(cfg, states, steps, s) && Laid(cfg, s, Intake, [], [Flying(a)], [], map[0 := Binding(0, a)])
  {
    hide Reaches, Laid, Next, Enabled, Usable, Flying;
    var x, peers := Flying(a), map[0 := Binding(0, a)];
    states, steps, s := WriteIsSent(cfg, a);
    WriteIsReceived(cfg, a, s);
    states, steps, s := Take(cfg, states, steps, s, Receive(None));
    IntakeEnds(cfg, a, s);
    states, steps, s := Take(cfg, states, steps, s, NoMessage);
    WriteIsPosted(cfg, a, s);
    states, steps, s := Take(cfg, states, steps, s, PostNext(PostReply(Some(0), true, Accepted, 0)));
    PostingEnds(cfg, s, x, peers);
    states, steps, s := Take(cfg, states, steps, s, PostingDone);
    NothingIsReaped(cfg, s, x, peers);
    states, steps, s := Take(cfg, states, steps, s, ReapDone);
    NothingIsDispatched(cfg, s, x, peers);
    states, steps, s := Take(cfg, states, steps, s, DispatchDone);
    NothingIsQuiesced(cfg, s, x, peers);
    states, steps, s := Take(cfg, states, steps, s, QuiesceDone);
    NothingIsFlushed(cfg, s, x, peers);
    states, steps, s := Take(cfg, states, steps, s, Flush);
    NothingIsDelivered(cfg, s, x, peers);
    states, steps, s := Take(cfg, states, steps, s, Batch);
    LoopComesRound(cfg, s, x, peers);
    states, steps, s := Take(cfg, states, steps, s, Decide);
  }

  // ----- Messages -----

  lemma MessageIsSent(cfg: Config, s: State, x: Item, peers: Table, m: Message)
    requires Laid(cfg, s, Intake, [], [x], [], peers) && !m.Transfer?
    ensures Enabled(s, Send(m)) && Laid(cfg, Next(s, Send(m)), Intake, [], [x], [m], peers)
  {
    hide PostAttempt, QuiesceAttempt, Handled;
  }

  lemma PeerIsAdded(cfg: Config, s: State, x: Item, peers: Table, c: Client, address: Address, answer: Option<Handle>)
    requires Laid(cfg, s, Intake, [], [x], [AddPeer(c, address)], peers)
    requires AnswerPossible(cfg.format, peers, c, address, answer)
    ensures Enabled(s, Receive(answer))
    ensures Laid(cfg, Next(s, Receive(answer)), Intake, [], [x], [], Advertise(cfg.format, peers, c, address, answer))
  {
    hide PostAttempt, QuiesceAttempt, Advertise, AnswerPossible;
  }

  lemma PeerIsRemoved(cfg: Config, s: State, x: Item, peers: Table, c: Client)
    requires Laid(cfg, s, Intake, [], [x], [RemovePeer(c)], peers) && c != 0
    ensures Enabled(s, Receive(None)) && Laid(cfg, Next(s, Receive(None)), Intake, [], [x], [], peers - {c})
    ensures Asked(s, Receive(None)) == Nothing
  {
    hide PostAttempt, QuiesceAttempt, Advertise;
  }

  /** A client's advertisement arrives while the write flies. */
  lemma Advertises(
    cfg: Config, states: seq<State>, steps: seq<Step>, s: State, x: Item, peers: Table, c: Client, address: Address,
    answer: Option<Handle>)
    returns (more: seq<State>, further: seq<Step>, t: State)
    requires Reaches(cfg, states, steps, s) && Laid(cfg, s, Intake, [], [x], [], peers)
    requires AnswerPossible(cfg.format, peers, c, address, answer)
    ensures Reaches(cfg, more, further, t)
    ensures Laid(cfg, t, Intake, [], [x], [], Advertise(cfg.format, peers, c, address, answer))
  {
    hide Reaches, Laid, Next, Enabled, Advertise, AnswerPossible;
    MessageIsSent(cfg, s, x, peers, AddPeer(c, address));
    more, further, t := Take(cfg, states, steps, s, Send(AddPeer(c, address)));
    PeerIsAdded(cfg, t, x, peers, c, address, answer);
    more, further, t := Take(cfg, more, further, t, Receive(answer));
  }

  lemma OnlyInFlight(cfg: Config, s: State, x: Item, peers: Table)
    requires Laid(cfg, s, Intake, [], [x], [], peers)
    ensures InFlight(s.queues, x) && s.accounts.peers == peers
  {}

  lemma FlyingIsOnWire(a: Address)
    ensures OnWire(Flying(a)) && Target(Flying(a)) == Binding(0, a)
  {}

  // ----- Its own client readvertises -----

  lemma ElsewhereRebinds(format: AddressFormat, a: Address, b: Address)
    requires a != b && Usable(format, a) && Usable(format, b)
    ensures Advertise(format, map[0 := Binding(0, a)], 0, b, Some(1)) == map[0 := Binding(1, b)]
    ensures AnswerPossible(format, map[0 := Binding(0, a)], 0, b, Some(1))
  {}

  /** A client that advertises other bytes while its write is in flight pulls the handle from under it: for
      any two addresses, a run that ends with the write still posted against a handle no longer held. */
  lemma {:induction false} ReadvertisingPullsTheHandle(cfg: Config, a: Address, b: Address)
    returns (states: seq<State>, steps: seq<Step>, x: Item)
    requires 0 < cfg.cap && a != b && Usable(cfg.format, a) && Usable(cfg.format, b)
    ensures FromStart(cfg, states, steps) && InFlight(states[|steps|].queues, x)
    ensures OnWire(x) && !HandleLive(states[|steps|].accounts.peers, Target(x))
  {
    hide Path, Laid, Usable, Advertise, AnswerPossible, Flying, OnWire, Target, InFlight;
    var s;
    x := Flying(a);
    states, steps, s := WriteFlies(cfg, a);
    ElsewhereRebinds(cfg.format, a, b);
    states, steps, s := Advertises(cfg, states, steps, s, x, map[0 := Binding(0, a)], 0, b, Some(1));
    OnlyInFlight(cfg, s, x, map[0 := Binding(1, b)]);
    FlyingIsOnWire(a);
  }

  // ----- The last client that shares leaves -----

  lemma SharesTheEntry(format: AddressFormat, a: Address)
    requires Usable(format, a)
    ensures var t := map[0 := Binding(0, a)];
            && Advertise(format, t, 1, a, None) == map[0 := Binding(0, a), 1 := Binding(0, a)]
            && AnswerPossible(format, t, 1, a, None)
  {
    var t := map[0 := Binding(0, a)];
    assert t[0].address == a && Held(t, a);
  }

  lemma LeavesItToTheOther(format: AddressFormat, a: Address, b: Address)
    requires Usable(format, a) && Usable(format, b) && Slot(format, a) != Slot(format, b)
    ensures var t := map[0 := Binding(0, a), 1 := Binding(0, a)];
            && Advertise(format, t, 0, b, Some(1)) == map[0 := Binding(1, b), 1 := Binding(0, a)]
            && AnswerPossible(format, t, 0, b, Some(1))
  {
    hide Slot, IdentityLen;
    var t := map[0 := Binding(0, a), 1 := Binding(0, a)];
    assert forall c | c in t :: t[c].address == a;
    assert Vacated(format, t, 0, b) == map[1 := Binding(0, a)];
    assert map[1 := Binding(0, a)][0 := Binding(1, b)] == map[0 := Binding(1, b), 1 := Binding(0, a)];
  }

  /** Nor does a client's own steadiness suffice once it moves on: for any two addresses of different slots, a run
      in which the write's client leaves its entry to another that shares it, the handle staying in the vector,
      until that other client is removed while the write still flies. */
  lemma {:induction false} RemovalPullsTheHandle(cfg: Config, a: Address, b: Address)
    returns (states: seq<State>, steps: seq<Step>, x: Item)
    requires 0 < cfg.cap && Usable(cfg.format, a) && Usable(cfg.format, b) && Slot(cfg.format, a) != Slot(cfg.format, b)
    ensures FromStart(cfg, states, steps) && steps != [] && InFlight(states[|steps|].queues, x) && OnWire(x)
    ensures var n := |steps| - 1;
            && Asked(states[n], steps[n]) == Nothing && HandleLive(states[n].accounts.peers, Target(x))
            && !HandleLive(states[n + 1].accounts.peers, Target(x))
  {
    hide Path, Laid, Usable, Slot, Advertise, AnswerPossible, Flying, OnWire, Target, InFlight, Next, Enabled, Asked;
    var s;
    x := Flying(a);
    states, steps, s := WriteFlies(cfg, a);
    SharesTheEntry(cfg.format, a);
    states, steps, s := Advertises(cfg, states, steps, s, x, map[0 := Binding(0, a)], 1, a, None);
    LeavesItToTheOther(cfg.format, a, b);
    states, steps, s := Advertises(cfg, states, steps, s, x, map[0 := Binding(0, a), 1 := Binding(0, a)], 0, b,
                                   Some(1));
    var peers := map[0 := Binding(1, b), 1 := Binding(0, a)];
    MessageIsSent(cfg, s, x, peers, RemovePeer(1));
    states, steps, s := Take(cfg, states, steps, s, Send(RemovePeer(1)));
    PeerIsRemoved(cfg, s, x, peers, 1);
    LaidPeers(cfg, s, x, [RemovePeer(1)], peers);
    StillShared(a, b);
    FlyingIsOnWire(a);
    states, steps, s := Take(cfg, states, steps, s, Receive(None));
    OnlyInFlight(cfg, s, x, peers - {1});
  }

  lemma LaidPeers(cfg: Config, s: State, x: Item, channel: seq<Message>, peers: Table)
    requires Laid(cfg, s, Intake, [], [x], channel, peers)
    ensures s.accounts.peers == peers
  {}

  lemma StillShared(a: Address, b: Address)
    ensures var peers := map[0 := Binding(1, b), 1 := Binding(0, a)];
            HandleLive(peers, Binding(0, a)) && !HandleLive(peers - {1}, Binding(0, a))
  {
    var peers := map[0 := Binding(1, b), 1 := Binding(0, a)];
    assert peers[1] == Binding(0, a);
  }
}
