/** Runs that take the pipeline past any bound: completed writes wait out EAGAIN on their quiesce reads, others
    take the room they left, and then every read is posted in one pass without a cap check. */
module WorkerCapRun {
  import opened Basics
  import opened AddressTable
  import opened WorkerModel
  import opened WorkerRuns

  /** A one-byte write of one client. */
  function Byte(a: Address): Request {
    Request(0, a, 0, 0, ToPeer, false, Some(1))
  }

  /** An address the provider takes, whatever its format. */
  function Anywhere(): (a: Address)
    ensures forall format :: Usable(format, a)
  {
    Address(seq(EFA_ADDRESS_LEN, _ => 0))
  }

  datatype Layout = Layout(pending: seq<Item>, first: seq<Item>, quiescing: seq<Item>, readBacks: seq<Item>,
                           reaped: seq<Item>)

  /** A state of these runs: what the queues and the channel hold, the clock still at its start, and the one
      client bound to its address or not yet. */
  ghost predicate Laid(
    cfg: Config, a: Address, s: State, phase: Phase, l: Layout, channel: seq<Message>, submitting: nat)
  {
    && s.cfg == cfg && s.phase == phase && s.now == 0
    && s.inbox.channel == channel && !s.inbox.closed && s.inbox.submitting == submitting && !s.loop.disconnected
    && s.cq == CompletionQueue([], false)
    && s.queues.pending == l.pending && s.queues.first == l.first && s.queues.quiescing == l.quiescing
    && s.queues.readBacks == l.readBacks && s.queues.reaped == l.reaped && s.queues.crc == []
    && s.queues.completions == []
    && s.loop.inFlight == |l.first| + |l.readBacks| + (if phase.Reaping? then |l.reaped| else 0)
    && (s.accounts.peers == map[] || s.accounts.peers == map[0 := Binding(0, a)])
  }

  /** A completed write whose quiesce read is still to be posted. */
  predicate Waits(a: Address, x: Item) {
    && x.request.client == 0 && HasRead(x) && x.read.value.address == Some(a)
    && (x.stalled.None? || x.stalled == Some(0))
  }

  predicate AllWait(a: Address, q: seq<Item>) {
    forall x | x in q :: Waits(a, x)
  }

  predicate Capable(cfg: Config, a: Address) {
    cfg.quiesceWrites && 0 < cfg.cap && 0 < cfg.deadline && Usable(cfg.format, a)
  }

  // ----- The address -----

  lemma PeerBinds(format: AddressFormat, t: Table, a: Address)
    requires Usable(format, a) && (t == map[] || t == map[0 := Binding(0, a)])
    ensures Advertise(format, t, 0, a, Some(0)) == map[0 := Binding(0, a)]
    ensures Resolved(format, t, 0, a, Some(0)) == Some(0)
    ensures AnswerPossible(format, t, 0, a, Some(0))
  {
    hide Slot, IdentityLen;
    if t != map[] {
      assert t[0].address == a && Held(t, a);
      assert t[0 := t[0]] == t;
    }
  }

  // ----- One write comes to wait -----

  lemma Arrives(cfg: Config, a: Address, s: State, qs: seq<Item>)
    requires Laid(cfg, a, s, Intake, Layout([], [], qs, [], []), [], 0)
    ensures Enabled(s, BeginSubmit)
    ensures Laid(cfg, a, Next(s, BeginSubmit), Intake, Layout([], [], qs, [], []), [], 1)
  {
    hide Usable, Handled, PostAttempt, QuiesceAttempt;
  }

  lemma IsSent(cfg: Config, a: Address, s: State, qs: seq<Item>)
    requires Laid(cfg, a, s, Intake, Layout([], [], qs, [], []), [], 1)
    ensures var send := Send(Transfer(Byte(a)));
            Enabled(s, send) && Laid(cfg, a, Next(s, send), Intake, Layout([], [], qs, [], []), [Transfer(Byte(a))], 0)
  {
    hide Usable, Handled, PostAttempt, QuiesceAttempt;
  }

  function Queued(a: Address, id: nat): Item {
    Item(id, Byte(a), 1, a, Some(QuiesceRead(None, 0, 0)), None, false, [])
  }

  lemma IsReceived(cfg: Config, a: Address, s: State, qs: seq<Item>)
    requires cfg.quiesceWrites && Laid(cfg, a, s, Intake, Layout([], [], qs, [], []), [Transfer(Byte(a))], 0)
    ensures Enabled(s, Receive(None))
    ensures Laid(cfg, a, Next(s, Receive(None)), Intake, Layout([Queued(a, |s.inbox.requests|)], [], qs, [], []), [], 0)
  {
    hide Usable, PostAttempt, QuiesceAttempt, Advertise;
  }

  lemma IsTurned(cfg: Config, a: Address, s: State, qs: seq<Item>, x: Item)
    requires Laid(cfg, a, s, Intake, Layout([x], [], qs, [], []), [], 0)
    ensures Enabled(s, NoMessage) && Laid(cfg, a, Next(s, NoMessage), Posting(1), Layout([x], [], qs, [], []), [], 0)
  {
    hide Usable, Handled, PostAttempt, QuiesceAttempt;
  }

  lemma IsPosted(cfg: Config, a: Address, s: State, qs: seq<Item>, x: Item)
    requires Capable(cfg, a) && Laid(cfg, a, s, Posting(1), Layout([x], [], qs, [], []), [], 0)
    requires x.request.client == 0 && x.address == a
    ensures var post := PostNext(PostReply(Some(0), true, Accepted, 0));
            Enabled(s, post) && Laid(cfg, a, Next(s, post), Posting(0),
                                     Layout([], [WriteOut(x, Binding(0, a))], qs, [], []), [], 0)
  {
    hide Usable, Handled, QuiesceAttempt, Advertise, Resolved, AnswerPossible, WriteOut;
    PeerBinds(cfg.format, s.accounts.peers, a);
  }

  lemma PostingEnds(cfg: Config, a: Address, s: State, l: Layout)
    requires Laid(cfg, a, s, Posting(0), l, [], 0) && l.reaped == []
    ensures Enabled(s, PostingDone) && Laid(cfg, a, Next(s, PostingDone), Reaping, l, [], 0)
  {
    hide Usable, Handled, PostAttempt, QuiesceAttempt;
  }

  lemma IsEnded(cfg: Config, a: Address, s: State, qs: seq<Item>, x: Item)
    requires Laid(cfg, a, s, Reaping, Layout([], [x], qs, [], []), [], 0)
    ensures var end := FabricDone(false, 0, true);
            Enabled(s, end) && Next(s, end) == s.(cq := CompletionQueue([CqEntry(x.id, true)], false))
  {
    hide Usable, Handled, PostAttempt, QuiesceAttempt, Landed;
  }

  lemma IsReaped(cfg: Config, a: Address, before: State, qs: seq<Item>, x: Item)
    requires Laid(cfg, a, before, Reaping, Layout([], [x], qs, [], []), [], 0)
    ensures var s := before.(cq := CompletionQueue([CqEntry(x.id, true)], false)); var reap := ReapOne(false, 0, true);
            Enabled(s, reap) && Laid(cfg, a, Next(s, reap), Reaping, Layout([], [], qs, [], [Landed(x, true)]), [], 0)
  {
    hide Usable, Handled, PostAttempt, QuiesceAttempt, Landed;
  }

  lemma ReapingEnds(cfg: Config, a: Address, s: State, l: Layout)
    requires Laid(cfg, a, s, Reaping, l, [], 0)
    ensures Enabled(s, ReapDone) && Laid(cfg, a, Next(s, ReapDone), Dispatching, l, [], 0)
  {
    hide Usable, Handled, PostAttempt, QuiesceAttempt;
  }

  lemma IsDispatched(cfg: Config, a: Address, s: State, qs: seq<Item>, x: Item)
    requires Laid(cfg, a, s, Dispatching, Layout([], [], qs, [], [x]), [], 0) && NeedsRead(x)
    ensures Enabled(s, Dispatch) && Laid(cfg, a, Next(s, Dispatch), Dispatching,
                                         Layout([], [], qs + [x.(stalled := None)], [], []), [], 0)
  {
    hide Usable, Handled, PostAttempt, QuiesceAttempt, FinishOp;
  }

  lemma DispatchingEnds(cfg: Config, a: Address, s: State, qs: seq<Item>)
    requires Laid(cfg, a, s, Dispatching, Layout([], [], qs, [], []), [], 0)
    ensures Enabled(s, DispatchDone)
            && Laid(cfg, a, Next(s, DispatchDone), Quiescing(|qs|), Layout([], [], qs, [], []), [], 0)
  {
    hide Usable, Handled, PostAttempt, QuiesceAttempt;
  }

  lemma WrittenWaits(a: Address, id: nat)
    ensures var x := Landed(WriteOut(Queued(a, id), Binding(0, a)), true); NeedsRead(x) && Waits(a, x.(stalled := None))
  {}

  // ----- Its read stalls, or goes -----

  lemma ReadStalls(cfg: Config, a: Address, s: State, m: nat, qs: seq<Item>)
    requires Capable(cfg, a) && Laid(cfg, a, s, Quiescing(m), Layout([], [], qs, [], []), [], 0)
    requires 0 < m && qs != [] && Waits(a, qs[0])
    ensures var read := QuiesceNext(PostReply(Some(0), true, Again, 0));
            && Enabled(s, read)
            && Laid(cfg, a, Next(s, read), Quiescing(m - 1), Layout([], [], qs[1..] + [Retried(qs[0], 0)], [], []), [],
                    0)
    ensures Waits(a, Retried(qs[0], 0))
  {
    hide Usable, Handled, PostAttempt, Advertise, Resolved, AnswerPossible;
    PeerBinds(cfg.format, s.accounts.peers, a);
  }

  lemma ReadGoes(cfg: Config, a: Address, s: State, m: nat, qs: seq<Item>, rs: seq<Item>)
    requires Capable(cfg, a) && Laid(cfg, a, s, Quiescing(m), Layout([], [], qs, rs, []), [], 0)
    requires 0 < m && qs != [] && Waits(a, qs[0])
    ensures qs[0].read.Some?
    ensures var read := QuiesceNext(PostReply(Some(0), true, Accepted, 0));
            && Enabled(s, read)
            && Laid(cfg, a, Next(s, read), Quiescing(m - 1),
                    Layout([], [], qs[1..], rs + [ReadBack(qs[0], qs[0].read.value, Binding(0, a))], []), [], 0)
  {
    hide Usable, Handled, PostAttempt, Advertise, Resolved, AnswerPossible, ReadBack;
    PeerBinds(cfg.format, s.accounts.peers, a);
  }

  lemma QuiescingEnds(cfg: Config, a: Address, s: State, qs: seq<Item>)
    requires Laid(cfg, a, s, Quiescing(0), Layout([], [], qs, [], []), [], 0)
    ensures Enabled(s, QuiesceDone) && Laid(cfg, a, Next(s, QuiesceDone), Flushing, Layout([], [], qs, [], []), [], 0)
  {
    hide Usable, Handled, PostAttempt, QuiesceAttempt;
  }

  lemma Flushes(cfg: Config, a: Address, s: State, qs: seq<Item>)
    requires Laid(cfg, a, s, Flushing, Layout([], [], qs, [], []), [], 0) && qs != []
    ensures Enabled(s, Flush) && Laid(cfg, a, Next(s, Flush), Batching(false), Layout([], [], qs, [], []), [], 0)
  {
    hide Usable, Handled, PostAttempt, QuiesceAttempt;
  }

  lemma Batches(cfg: Config, a: Address, s: State, qs: seq<Item>)
    requires Laid(cfg, a, s, Batching(false), Layout([], [], qs, [], []), [], 0)
    ensures Enabled(s, Batch) && Laid(cfg, a, Next(s, Batch), Deciding(false), Layout([], [], qs, [], []), [], 0)
  {
    hide Usable, Handled, PostAttempt, QuiesceAttempt;
  }

  lemma Decides(cfg: Config, a: Address, s: State, qs: seq<Item>)
    requires Laid(cfg, a, s, Deciding(false), Layout([], [], qs, [], []), [], 0)
    ensures Enabled(s, Decide) && Laid(cfg, a, Next(s, Decide), Intake, Layout([], [], qs, [], []), [], 0)
  {
    hide Usable, Handled, PostAttempt, QuiesceAttempt;
  }

  // ----- Whole runs -----

  /** One more write is posted, completes and comes to wait with the others. */
  lemma {:induction false} OneMoreWaits(
    cfg: Config, a: Address, states: seq<State>, steps: seq<Step>, s: State, qs: seq<Item>)
    returns (more: seq<State>, further: seq<Step>, t: State, ws: seq<Item>)
    requires Capable(cfg, a) && Reaches(cfg, states, steps, s)
             && Laid(cfg, a, s, Intake, Layout([], [], qs, [], []), [], 0)
    requires AllWait(a, qs)
    ensures Reaches(cfg, more, further, t) && Laid(cfg, a, t, Quiescing(|ws|), Layout([], [], ws, [], []), [], 0)
    ensures AllWait(a, ws) && |ws| == |qs| + 1
  {
    hide Reaches, Laid, Next, Enabled, Waits, Landed, WriteOut, NeedsRead, Usable;
    Arrives(cfg, a, s, qs);
    more, further, t := Take(cfg, states, steps, s, BeginSubmit);
    IsSent(cfg, a, t, qs);
    more, further, t := Take(cfg, more, further, t, Send(Transfer(Byte(a))));
    var x := Queued(a, |t.inbox.requests|);
    IsReceived(cfg, a, t, qs);
    more, further, t := Take(cfg, more, further, t, Receive(None));
    IsTurned(cfg, a, t, qs, x);
    more, further, t := Take(cfg, more, further, t, NoMessage);
    IsPosted(cfg, a, t, qs, x);
    more, further, t := Take(cfg, more, further, t, PostNext(PostReply(Some(0), true, Accepted, 0)));
    var out := WriteOut(x, Binding(0, a));
    PostingEnds(cfg, a, t, Layout([], [out], qs, [], []));
    more, further, t := Take(cfg, more, further, t, PostingDone);
    IsEnded(cfg, a, t, qs, out);
    IsReaped(cfg, a, t, qs, out);
    more, further, t := Take(cfg, more, further, t, FabricDone(false, 0, true));
    more, further, t := Take(cfg, more, further, t, ReapOne(false, 0, true));
    ReapingEnds(cfg, a, t, Layout([], [], qs, [], [Landed(out, true)]));
    more, further, t := Take(cfg, more, further, t, ReapDone);
    WrittenWaits(a, x.id);
    IsDispatched(cfg, a, t, qs, Landed(out, true));
    more, further, t := Take(cfg, more, further, t, Dispatch);
    ws := qs + [Landed(out, true).(stalled := None)];
    DispatchingEnds(cfg, a, t, ws);
    more, further, t := Take(cfg, more, further, t, DispatchDone);
  }

  /** Every read of a pass finds no room, and waits on. */
  lemma {:induction false} AllStall(
    cfg: Config, a: Address, states: seq<State>, steps: seq<Step>, s: State, m: nat, qs: seq<Item>)
    returns (more: seq<State>, further: seq<Step>, t: State, ws: seq<Item>)
    requires Capable(cfg, a) && Reaches(cfg, states, steps, s)
             && Laid(cfg, a, s, Quiescing(m), Layout([], [], qs, [], []), [], 0)
    requires AllWait(a, qs) && m <= |qs|
    ensures Reaches(cfg, more, further, t) && Laid(cfg, a, t, Quiescing(0), Layout([], [], ws, [], []), [], 0)
    ensures AllWait(a, ws) && |ws| == |qs|
    decreases m
  {
    hide Reaches, Laid, Next, Enabled, Waits, Retried, Usable;
    if m == 0 {
      more, further, t, ws := states, steps, s, qs;
    } else {
      ReadStalls(cfg, a, s, m, qs);
      more, further, t := Take(cfg, states, steps, s, QuiesceNext(PostReply(Some(0), true, Again, 0)));
      more, further, t, ws := AllStall(cfg, a, more, further, t, m - 1, qs[1..] + [Retried(qs[0], 0)]);
    }
  }

  /** Every read of a pass is posted. */
  lemma {:induction false} AllGo(
    cfg: Config, a: Address, states: seq<State>, steps: seq<Step>, s: State, qs: seq<Item>, rs: seq<Item>)
    returns (more: seq<State>, further: seq<Step>, t: State)
    requires Capable(cfg, a) && Reaches(cfg, states, steps, s) && AllWait(a, qs)
    requires Laid(cfg, a, s, Quiescing(|qs|), Layout([], [], qs, rs, []), [], 0)
    ensures Reaches(cfg, more, further, t) && t.loop.inFlight == |rs| + |qs|
    decreases |qs|
  {
    hide Reaches, Laid, Next, Enabled, Waits, ReadBack, Usable;
    if qs == [] {
      more, further, t := states, steps, s;
      LaidInFlight(cfg, a, s, Quiescing(0), Layout([], [], [], rs, []));
    } else {
      ReadGoes(cfg, a, s, |qs|, qs, rs);
      more, further, t := Take(cfg, states, steps, s, QuiesceNext(PostReply(Some(0), true, Accepted, 0)));
      more, further, t := AllGo(cfg, a, more, further, t, qs[1..],
                                rs + [ReadBack(qs[0], qs[0].read.value, Binding(0, a))]);
    }
  }

  lemma LaidInFlight(cfg: Config, a: Address, s: State, phase: Phase, l: Layout)
    requires Laid(cfg, a, s, phase, l, [], 0) && !phase.Reaping?
    ensures s.loop.inFlight == |l.first| + |l.readBacks|
  {}

  /** The loop comes round with as many writes waiting as one likes. */
  lemma {:induction false} ManyWait(cfg: Config, a: Address, n: nat)
    returns (states: seq<State>, steps: seq<Step>, s: State, qs: seq<Item>)
    requires Capable(cfg, a)
    ensures Reaches(cfg, states, steps, s) && Laid(cfg, a, s, Intake, Layout([], [], qs, [], []), [], 0)
    ensures AllWait(a, qs) && |qs| == n
  {
    if n == 0 {
      s, qs := Initial(cfg), [];
      states, steps := [s], [];
    } else {
      hide Reaches, Laid, Next, Enabled, Waits, Usable;
      states, steps, s, qs := ManyWait(cfg, a, n - 1);
      states, steps, s, qs := OneMoreWaits(cfg, a, states, steps, s, qs);
      states, steps, s, qs := AllStall(cfg, a, states, steps, s, |qs|, qs);
      QuiescingEnds(cfg, a, s, qs);
      states, steps, s := Take(cfg, states, steps, s, QuiesceDone);
      Flushes(cfg, a, s, qs);
      states, steps, s := Take(cfg, states, steps, s, Flush);
      Batches(cfg, a, s, qs);
      states, steps, s := Take(cfg, states, steps, s, Batch);
      Decides(cfg, a, s, qs);
      states, steps, s := Take(cfg, states, steps, s, Decide);
    }
  }

  /** With writes read back, room for one operation and a deadline at all, no bound holds: for every number there
      is a run with more than that in flight. */
  lemma {:induction false} ExcessIsUnbounded(cfg: Config, bound: nat) returns (states: seq<State>, steps: seq<Step>)
    requires cfg.quiesceWrites && 0 < cfg.cap && 0 < cfg.deadline
    ensures FromStart(cfg, states, steps) && bound < states[|steps|].loop.inFlight
  {
    hide Next, CanTake, Answerable, Laid, Waits;
    var a := Anywhere();
    var s, qs;
    states, steps, s, qs := ManyWait(cfg, a, bound);
    states, steps, s, qs := OneMoreWaits(cfg, a, states, steps, s, qs);
    states, steps, s := AllGo(cfg, a, states, steps, s, qs, []);
  }
}
