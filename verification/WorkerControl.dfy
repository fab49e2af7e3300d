/** The loop's counters and bounds through every step. */
module WorkerControl {
  import opened Basics
  import opened AddressTable
  import opened WorkerModel
  import opened WorkerQueues
  import opened WorkerInvariant
  import opened WorkerFlow
  import opened WorkerSteps

  lemma {:induction false} TransfersAfterAppend(channel: seq<Message>, m: Message)
    ensures TransfersIn(channel + [m]) == TransfersIn(channel) + One(m.Transfer?)
  {
    if channel == [] {
      assert channel + [m] == [m];
    } else {
      TransfersAfterAppend(channel[1..], m);
      assert (channel + [m])[1..] == channel[1..] + [m];
    }
  }

  // ----- The completion queue -----

  lemma ReadyAfterAppend(entries: seq<CqEntry>, e: CqEntry)
    ensures ReadyBag(entries + [e]) == ReadyBag(entries) + multiset{e.id}
  {
    assert ReadyIds(entries + [e]) == ReadyIds(entries) + [e.id];
  }

  lemma ReadyAfterPop(entries: seq<CqEntry>)
    requires entries != []
    ensures ReadyBag(entries) == ReadyBag(entries[1..]) + multiset{entries[0].id}
  {
    assert ReadyIds(entries) == [entries[0].id] + ReadyIds(entries[1..]);
  }

  lemma UnqueuedIsNotReady(entries: seq<CqEntry>, id: nat)
    requires Unqueued(entries, id)
    ensures ReadyBag(entries)[id] == 0
  {
    assert forall i | 0 <= i < |entries| :: entries[i] in entries;
  }

  lemma AtIsInBag(q: seq<Item>, place: nat)
    requires place < |q|
    ensures 0 < IdBag(q)[q[place].id]
  {
    BagsAfterRemoval(q, place);
  }

  lemma EndingKeepsReady(s: State, ofReads: bool, place: nat, result: bool)
    requires CanTake(s, FabricDone(ofReads, place, result)) && ReadyAgrees(s.cq.entries, s.queues)
    ensures ReadyAgrees(Next(s, FabricDone(ofReads, place, result)).cq.entries, s.queues)
  {
    hide IdBag, ReadyBag, Unqueued;
    var id := OnWireAt(s.queues, ofReads, place).id;
    AtIsInBag(if ofReads then s.queues.readBacks else s.queues.first, place);
    UnqueuedIsNotReady(s.cq.entries, id);
    ReadyAfterAppend(s.cq.entries, CqEntry(id, result));
  }

  lemma BothLoseOne(a: multiset<nat>, b: multiset<nat>, x: nat)
    requires a + multiset{x} <= b + multiset{x}
    ensures a <= b
  {
    forall y: nat
      ensures a[y] <= b[y]
    {
      assert (a + multiset{x})[y] <= (b + multiset{x})[y];
    }
  }

  lemma ReapingKeepsReady(s: State, fromReads: bool, index: nat, ok: bool)
    requires CanTake(s, ReapOne(fromReads, index, ok)) && ReadyAgrees(s.cq.entries, s.queues)
    ensures var t := Next(s, ReapOne(fromReads, index, ok)); ReadyAgrees(t.cq.entries, t.queues)
  {
    hide IdBag, ReadyBag, Landed;
    var from := if fromReads then s.queues.readBacks else s.queues.first;
    BagsAfterRemoval(from, index);
    ReadyAfterPop(s.cq.entries);
    var t := Next(s, ReapOne(fromReads, index, ok));
    assert IdBag(s.queues.first) + IdBag(s.queues.readBacks)
           == IdBag(t.queues.first) + IdBag(t.queues.readBacks) + multiset{from[index].id};
    BothLoseOne(ReadyBag(t.cq.entries), IdBag(t.queues.first) + IdBag(t.queues.readBacks), from[index].id);
  }

  /** Posting only adds to what libfabric holds. */
  lemma PostingKeepsReady(s: State, t: State)
    requires ReadyAgrees(s.cq.entries, s.queues) && t.cq == s.cq
    requires s.queues.first <= t.queues.first && s.queues.readBacks <= t.queues.readBacks
    ensures ReadyAgrees(t.cq.entries, t.queues)
  {
    hide IdBag, ReadyBag;
    var posted, asked := t.queues.first[|s.queues.first|..], t.queues.readBacks[|s.queues.readBacks|..];
    assert t.queues.first == s.queues.first + posted && t.queues.readBacks == s.queues.readBacks + asked;
    BagsAfterConcat(s.queues.first, posted);
    BagsAfterConcat(s.queues.readBacks, asked);
  }

  lemma OthersOnlyPost(s: State, step: Step)
    requires CanTake(s, step) && !step.FabricDone? && !step.ReapOne?
    ensures var t := Next(s, step);
            && t.cq.entries == s.cq.entries
            && s.queues.first <= t.queues.first && s.queues.readBacks <= t.queues.readBacks
  {
    hide Judge, Prepare, Advertise, FinishOp, RemoveOrDefer, NeedsRead, WriteOut, ReadBack, Retried, IntoCompletion,
      Introduced;
  }

  lemma StepKeepsReady(s: State, step: Step)
    requires CanTake(s, step) && ReadyAgrees(s.cq.entries, s.queues)
    ensures ReadyAgrees(Next(s, step).cq.entries, Next(s, step).queues)
  {
    hide ReadyAgrees, CanTake, Next;
    match step
    case FabricDone(ofReads, place, result) =>
      EndingKeepsReady(s, ofReads, place, result);
      EndingMovesNothing(s, step);
    case ReapOne(fromReads, index, ok) => ReapingKeepsReady(s, fromReads, index, ok);
    case _ =>
      OthersOnlyPost(s, step);
      PostingKeepsReady(s, Next(s, step).(cq := s.cq));
  }

  lemma EndingMovesNothing(s: State, step: Step)
    requires CanTake(s, step) && step.FabricDone?
    ensures Next(s, step).queues == s.queues
  {}

  lemma StepKeepsInFlight(s: State, step: Step)
    requires CanTake(s, step) && InFlightAgrees(s) && Scheduled(s)
    ensures InFlightAgrees(Next(s, step))
  {
    hide Judge, Prepare, Advertise, TransfersIn, FinishOp, RemoveOrDefer, NeedsRead;
  }

  /** An attempt to post moves its operation on or finishes it. */
  lemma AttemptsKeepOutstanding(s: State, r: PostReply)
    requires OutstandingAgrees(s)
    ensures s.queues.pending != [] ==> OutstandingAgrees(PostAttempt(s, r))
    ensures s.queues.quiescing != [] && HasRead(s.queues.quiescing[0]) ==> OutstandingAgrees(QuiesceAttempt(s, r))
  {
    hide Judge, Advertise, TransfersIn, WriteOut, ReadBack, Retried;
  }

  lemma HandlingKeepsOutstanding(s: State, answer: Option<Handle>)
    requires OutstandingAgrees(s) && s.inbox.channel != []
    ensures OutstandingAgrees(Handled(Popped(s), s.inbox.channel[0], answer))
  {
    hide Prepare, Advertise, TransfersIn;
    TransfersAfterPop(s.inbox.channel);
  }

  /** Only intake and finishing change how many operations are outstanding. */
  lemma StepKeepsOutstanding(s: State, step: Step)
    requires CanTake(s, step) && OutstandingAgrees(s)
    ensures OutstandingAgrees(Next(s, step))
  {
    hide Handled, PostAttempt, QuiesceAttempt, TransfersIn, NeedsRead, Landed, IntoCompletion;
    if step.Send? {
      TransfersAfterAppend(s.inbox.channel, step.message);
    } else if step.Receive? {
      HandlingKeepsOutstanding(s, step.answer);
    } else if step.ParkedReceive? {
      HandlingKeepsOutstanding(s.(phase := Intake), step.answer);
    } else if step.PostNext? {
      AttemptsKeepOutstanding(s.(phase := Posting(s.phase.attempts - 1)), step.post);
    } else if step.QuiesceNext? {
      AttemptsKeepOutstanding(s.(phase := Quiescing(s.phase.attempts - 1)), step.read);
    }
  }

  lemma TransfersAfterPop(channel: seq<Message>)
    requires channel != []
    ensures TransfersIn(channel) == TransfersIn(channel[1..]) + One(channel[0].Transfer?)
  {}

  lemma StepKeepsSchedule(s: State, step: Step)
    requires CanTake(s, step) && InFlightAgrees(s) && Scheduled(s)
    ensures Scheduled(Next(s, step))
  {
    hide Judge, Prepare, Advertise, TransfersIn, RemoveOrDefer, FinishOp, NeedsRead;
  }

  lemma StepKeepsSettled(s: State, step: Step)
    requires CanTake(s, step) && Scheduled(s) && Settled(s)
    ensures Settled(Next(s, step))
  {
    hide Judge, Prepare, Advertise, TransfersIn, RemoveOrDefer, FinishOp, NeedsRead;
  }

  lemma StepKeepsBatch(s: State, step: Step)
    requires CanTake(s, step) && BatchBounded(s) && Scheduled(s)
    ensures BatchBounded(Next(s, step))
  {
    hide Judge, Prepare, Advertise, TransfersIn, RemoveOrDefer, FinishOp;
  }

  lemma StepKeepsPipeline(s: State, step: Step)
    requires CanTake(s, step) && PipelineBounded(s) && InFlightAgrees(s) && Traced(s.cfg, s.inbox.requests, s.queues)
    ensures PipelineBounded(Next(s, step))
  {
    hide Judge, Prepare, Advertise, TransfersIn, RemoveOrDefer, FinishOp, Traced;
    if step.Dispatch? {
      BackFromUnquiesced(s.cfg, s.inbox.requests, s.queues);
    }
  }

  lemma StepKeepsProductive(s: State, step: Step)
    requires CanTake(s, step) && Productive(s) && Scheduled(s)
    ensures Productive(Next(s, step))
  {
    hide Judge, Prepare, Advertise, TransfersIn, RemoveOrDefer, FinishOp, NeedsRead;
  }

  /** With quiescing off no transfer carries a quiesce read. */
  lemma BackFromUnquiesced(cfg: Config, requests: seq<Request>, q: Queues)
    requires Traced(cfg, requests, q) && q.reaped != []
    ensures !cfg.quiesceWrites ==> q.reaped[0].read.None?
  {
    assert Back(cfg, requests, q.reaped[0]);
  }
}
