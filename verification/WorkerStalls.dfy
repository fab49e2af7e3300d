/** Retrying: when an operation first met a full transmit queue, and what every attempt to post it came to, told by
    a run's own answers. */
module WorkerStalls {
  import opened Basics
  import opened AddressTable
  import opened WorkerModel
  import opened WorkerQueues
  import opened WorkerInvariant
  import opened WorkerTheorems

  /** One attempt to post for a transfer, the transfer itself or its read back, with the environment's answers:
      whether the peer's address is in the vector, whether the operand is registered, the post's code, and the clock. */
  datatype Attempt = Attempt(back: bool, id: nat, peered: bool, registered: bool, code: Code, at: nat)

  /** The provider takes the bytes, and has them in its vector or could insert them. */
  ghost predicate Peered(s: State, address: Address, answer: Option<Handle>) {
    && (s.cfg.format.Efa? ==> |address.bytes| == 32)
    && ((exists c :: c in s.accounts.peers && s.accounts.peers[c].address == address) || answer.Some?)
  }

  ghost function AttemptOf(s: State, step: Step): Option<Attempt> {
    match step
    case PostNext(r) =>
      if s.queues.pending == [] then None
      else
        var x := s.queues.pending[0];
        Some(Attempt(false, x.id, Peered(s, x.address, r.answer), r.registered, r.code, r.at))
    case QuiesceNext(r) =>
      if s.queues.quiescing == [] || !HasRead(s.queues.quiescing[0]) then None
      else
        var x := s.queues.quiescing[0];
        Some(Attempt(true, x.id, Peered(s, x.read.value.address.value, r.answer), r.registered, r.code, r.at))
    case _ => None
  }

  /** The transmit queue was full: everything else was in place. */
  predicate MeetsFullQueue(attempt: Option<Attempt>, back: bool, id: nat) {
    && attempt.Some? && attempt.value.back == back && attempt.value.id == id
    && attempt.value.peered && attempt.value.registered && attempt.value.code.Again?
  }

  /** The clock at the first EAGAIN of that kind for that transfer, among the first `i` steps. */
  ghost function FirstStall(states: seq<State>, steps: seq<Step>, i: nat, back: bool, id: nat): Option<nat> {
    if 0 < i <= |steps| && i <= |states| then
      var before := FirstStall(states, steps, i - 1, back, id);
      var attempt := AttemptOf(states[i - 1], steps[i - 1]);
      if before.Some? then before
      else if MeetsFullQueue(attempt, back, id) then Some(attempt.value.at) else None
    else None
  }

  ghost function Stalls(states: seq<State>, steps: seq<Step>, i: nat, back: bool): nat -> Option<nat> {
    id => FirstStall(states, steps, i, back, id)
  }

  // ----- The stamps -----

  /** Every waiting operation is stamped with its first EAGAIN; what has not come to its quiesce read has had none
      for it. */
  ghost predicate Stamped(s: State, posts: nat -> Option<nat>, back: nat -> Option<nat>) {
    && (forall x | x in s.queues.pending :: x.stalled == posts(x.id))
    && (forall x | x in s.queues.quiescing :: x.stalled == back(x.id))
    && (forall id: nat | |s.inbox.requests| <= id :: posts(id) == None && back(id) == None)
    && (forall id: nat :: posts(id).Some? ==> posts(id).value <= s.now)
    && (forall id: nat :: back(id).Some? ==> back(id).value <= s.now)
    && (forall x | x in s.queues.pending || x in s.queues.first :: back(x.id) == None)
    && (forall x | x in s.queues.reaped && x.read.Some? :: back(x.id) == None)
  }

  /** `after` is `before` with the attempt's EAGAIN, if it met one and was the first. */
  ghost predicate Notes(
    before: nat -> Option<nat>, after: nat -> Option<nat>, attempt: Option<Attempt>, back: bool)
  {
    forall id: nat ::
      after(id) == if before(id).None? && MeetsFullQueue(attempt, back, id) then Some(attempt.value.at) else before(id)
  }

  /** A transfer at the head of a queue is nowhere else. */
  lemma HeadIsAlone(q: Queues, id: nat)
    requires PlacesOf(q, id) == 1
    ensures q.pending != [] && q.pending[0].id == id ==>
              && (forall x | x in q.pending[1..] || x in q.first || x in q.quiescing || x in q.reaped :: x.id != id)
    ensures q.quiescing != [] && q.quiescing[0].id == id ==>
              && (forall x | x in q.quiescing[1..] || x in q.pending || x in q.first || x in q.reaped :: x.id != id)
  {
    hide IdBag, CompletedBag;
    forall x: Item
      ensures x in q.pending ==> 0 < IdBag(q.pending)[x.id]
      ensures x in q.first ==> 0 < IdBag(q.first)[x.id]
      ensures x in q.quiescing ==> 0 < IdBag(q.quiescing)[x.id]
      ensures x in q.reaped ==> 0 < IdBag(q.reaped)[x.id]
    {
      MemberIsCounted(q.pending, x);
      MemberIsCounted(q.first, x);
      MemberIsCounted(q.quiescing, x);
      MemberIsCounted(q.reaped, x);
    }
    if q.pending != [] {
      BagsAfterPop(q.pending);
      forall x | x in q.pending[1..]
        ensures 0 < IdBag(q.pending[1..])[x.id]
      {
        MemberIsCounted(q.pending[1..], x);
      }
    }
    if q.quiescing != [] {
      BagsAfterPop(q.quiescing);
      forall x | x in q.quiescing[1..]
        ensures 0 < IdBag(q.quiescing[1..])[x.id]
      {
        MemberIsCounted(q.quiescing[1..], x);
      }
    }
  }

  lemma MemberIsCounted(q: seq<Item>, x: Item)
    ensures x in q ==> 0 < IdBag(q)[x.id]
  {
    if x in q {
      var k :| 0 <= k < |q| && q[k] == x;
      assert Ids(q)[k] == x.id;
    }
  }

  /** The head of a queue is a transfer that was received. */
  lemma HeadsAreKnown(s: State)
    requires Traced(s.cfg, s.inbox.requests, s.queues) && Tallied(s.queues, |s.inbox.requests|)
    ensures s.queues.pending != [] ==> PlacesOf(s.queues, s.queues.pending[0].id) == 1
    ensures s.queues.pending != [] ==> s.queues.pending[0].id < |s.inbox.requests|
    ensures s.queues.quiescing != [] ==> PlacesOf(s.queues, s.queues.quiescing[0].id) == 1
    ensures s.queues.quiescing != [] ==> s.queues.quiescing[0].id < |s.inbox.requests|
  {
    hide PlacesOf, PlannedRead, Prepare, IsFirstPost;
    if s.queues.pending != [] {
      assert Unposted(s.cfg, s.inbox.requests, s.queues.pending[0]);
    }
    if s.queues.quiescing != [] {
      assert AwaitingRead(s.cfg, s.inbox.requests, s.queues.quiescing[0]);
    }
  }

  /** The address resolves exactly when the provider takes it and has it, or could insert it. */
  lemma ResolvesWhenPeered(s: State, c: Client, address: Address, answer: Option<Handle>)
    ensures Resolved(s.cfg.format, s.accounts.peers, c, address, answer).Some? <==> Peered(s, address, answer)
  {
    hide Advertise;
  }

  // ----- What an attempt comes to -----

  datatype Fate = Lost(reason: Reason) | Waits(since: nat) | Flies

  /** What the answers say becomes of the operation, given the clock at its first EAGAIN. */
  function FateOf(deadline: nat, a: Attempt, first: Option<nat>): Fate {
    if !a.peered then Lost(NoPeer)
    else if !a.registered then Lost(NoRegistration)
    else match a.code
         case Accepted => Flies
         case Rejected => Lost(Refused)
         case Again =>
           var since := if first.Some? then first.value else a.at;
           if a.at < since + deadline then Waits(since) else Lost(Stalled)
  }

  /** The operation at the head of its queue meets its fate, and nothing else moves: it fails with that reason, goes to
      the back of its queue stamped with its first EAGAIN, or is libfabric's. */
  ghost predicate Meets(q: Queues, t: Queues, back: bool, fate: Fate) {
    && (if back then q.quiescing != [] else q.pending != [])
    && var x := if back then q.quiescing[0] else q.pending[0];
       var rest := if back then q.(quiescing := q.quiescing[1..]) else q.(pending := q.pending[1..]);
       match fate
       case Lost(reason) =>
         t == rest.(completions := q.completions + [Completion(x.id, x.request, Failed(reason), x.trail)])
       case Waits(since) =>
         var y := x.(stalled := Some(since));
         t == if back then rest.(quiescing := rest.quiescing + [y]) else rest.(pending := rest.pending + [y])
       case Flies =>
         exists y: Item :: y.id == x.id && y.request == x.request
           && t == if back then rest.(readBacks := q.readBacks + [y]) else rest.(first := q.first + [y])
  }

  lemma PostMeets(s: State, r: PostReply)
    requires CanTake(s, PostNext(r))
    requires s.queues.pending[0].stalled.Some? ==> s.queues.pending[0].stalled.value <= s.now
    ensures var a := AttemptOf(s, PostNext(r)).value;
            Meets(s.queues, Next(s, PostNext(r)).queues, false, FateOf(s.cfg.deadline, a, s.queues.pending[0].stalled))
  {
    hide Advertise, Resolved, Peered, FinishOp, WriteOut;
    var x := s.queues.pending[0];
    ResolvesWhenPeered(s, x.request.client, x.address, r.answer);
    var verdict := Judge(s.cfg, s.accounts.peers, x, x.address, r);
    if verdict.Goes? {
      var y := WriteOut(x, verdict.peer);
      WrittenOutIsTheSame(x, verdict.peer);
      assert Next(s, PostNext(r)).queues == s.queues.(pending := s.queues.pending[1..], first := s.queues.first + [y]);
    }
  }

  lemma WrittenOutIsTheSame(x: Item, peer: Binding)
    ensures WriteOut(x, peer).id == x.id && WriteOut(x, peer).request == x.request
    ensures x.read.Some? ==>
              var y := ReadBack(x, x.read.value, peer); y.id == x.id && y.request == x.request
  {}

  lemma QuiesceMeets(s: State, r: PostReply)
    requires CanTake(s, QuiesceNext(r))
    requires s.queues.quiescing[0].stalled.Some? ==> s.queues.quiescing[0].stalled.value <= s.now
    ensures var a := AttemptOf(s, QuiesceNext(r)).value;
            Meets(s.queues, Next(s, QuiesceNext(r)).queues, true,
                  FateOf(s.cfg.deadline, a, s.queues.quiescing[0].stalled))
  {
    hide Advertise, Resolved, Peered, FinishOp, ReadBack;
    var x := s.queues.quiescing[0];
    ResolvesWhenPeered(s, x.request.client, x.read.value.address.value, r.answer);
    var verdict := Judge(s.cfg, s.accounts.peers, x, x.read.value.address.value, r);
    if verdict.Goes? {
      var y := ReadBack(x, x.read.value, verdict.peer);
      WrittenOutIsTheSame(x, verdict.peer);
      assert Next(s, QuiesceNext(r)).queues
          == s.queues.(quiescing := s.queues.quiescing[1..], readBacks := s.queues.readBacks + [y]);
    }
  }

  // ----- The stamps through every step -----

  lemma PostStamps(
    s: State, t: State, a: Attempt, posts: nat -> Option<nat>, back: nat -> Option<nat>,
    posted: nat -> Option<nat>, backed: nat -> Option<nat>)
    requires Stamped(s, posts, back) && !a.back && s.queues.pending != [] && s.queues.pending[0].id == a.id
    requires Meets(s.queues, t.queues, false, FateOf(s.cfg.deadline, a, s.queues.pending[0].stalled))
    requires s.now <= t.now == a.at && t.inbox == s.inbox && a.id < |s.inbox.requests|
    requires PlacesOf(s.queues, a.id) == 1
    requires Notes(posts, posted, Some(a), false) && Notes(back, backed, Some(a), true)
    ensures Stamped(t, posted, backed)
  {
    hide PlacesOf;
    HeadIsAlone(s.queues, a.id);
    assert s.queues.pending[0] in s.queues.pending;
    assert posts(a.id) == s.queues.pending[0].stalled;
    forall x | x in s.queues.pending[1..]
      ensures x in s.queues.pending
    {}
  }

  lemma BackStamps(
    s: State, t: State, a: Attempt, posts: nat -> Option<nat>, back: nat -> Option<nat>,
    posted: nat -> Option<nat>, backed: nat -> Option<nat>)
    requires Stamped(s, posts, back) && a.back && s.queues.quiescing != [] && s.queues.quiescing[0].id == a.id
    requires Meets(s.queues, t.queues, true, FateOf(s.cfg.deadline, a, s.queues.quiescing[0].stalled))
    requires s.now <= t.now == a.at && t.inbox == s.inbox && a.id < |s.inbox.requests|
    requires PlacesOf(s.queues, a.id) == 1
    requires Notes(posts, posted, Some(a), false) && Notes(back, backed, Some(a), true)
    ensures Stamped(t, posted, backed)
  {
    hide PlacesOf;
    HeadIsAlone(s.queues, a.id);
    assert s.queues.quiescing[0] in s.queues.quiescing;
    assert back(a.id) == s.queues.quiescing[0].stalled;
    forall x | x in s.queues.quiescing[1..]
      ensures x in s.queues.quiescing
    {}
  }

  lemma HandlingStamps(
    s: State, message: Message, answer: Option<Handle>, posts: nat -> Option<nat>, back: nat -> Option<nat>)
    requires Stamped(s, posts, back)
    ensures Stamped(Handled(s, message, answer), posts, back)
  {
    hide Introduced, RemoveOrDefer, PlannedRead, OperandOf;
  }

  lemma ReapStamps(
    s: State, t: State, fromReads: bool, index: nat, ok: bool, posts: nat -> Option<nat>, back: nat -> Option<nat>)
    requires Stamped(s, posts, back) && index < |if fromReads then s.queues.readBacks else s.queues.first|
    requires fromReads ==> s.queues.readBacks[index].read.None?
    requires t.queues == Reap(s.queues, fromReads, index, ok) && t.inbox == s.inbox && t.now == s.now
    ensures Stamped(t, posts, back)
  {}

  lemma SortStamps(s: State, t: State, posts: nat -> Option<nat>, back: nat -> Option<nat>)
    requires Stamped(s, posts, back) && s.queues.reaped != []
    requires t.queues == Sorted(s.cfg, s.queues) && t.inbox == s.inbox && t.now == s.now
    ensures Stamped(t, posts, back)
  {
    hide IntoCompletion;
  }

  lemma RestStamps(s: State, t: State, posts: nat -> Option<nat>, back: nat -> Option<nat>)
    requires Stamped(s, posts, back) && t.inbox.requests == s.inbox.requests && t.now == s.now
    requires t.queues.pending == s.queues.pending && t.queues.first == s.queues.first
    requires t.queues.quiescing == s.queues.quiescing && t.queues.reaped == s.queues.reaped
    ensures Stamped(t, posts, back)
  {}

  lemma OthersLeaveStamps(s: State, step: Step)
    requires CanTake(s, step)
    requires !step.Receive? && !step.ParkedReceive? && !step.PostNext? && !step.QuiesceNext? && !step.ReapOne?
             && !step.Dispatch?
    ensures var t := Next(s, step);
            && t.inbox.requests == s.inbox.requests && t.now == s.now
            && t.queues.pending == s.queues.pending && t.queues.first == s.queues.first
            && t.queues.quiescing == s.queues.quiescing && t.queues.reaped == s.queues.reaped
            && AttemptOf(s, step).None?
  {
    hide IntoCompletion, ShouldFlush, Holds, Idle;
  }

  lemma AttemptsReadTheClock(s: State, step: Step)
    requires CanTake(s, step) && (step.PostNext? || step.QuiesceNext?)
    ensures var t := Next(s, step);
            && AttemptOf(s, step).Some? && t.now == AttemptOf(s, step).value.at && s.now <= t.now && t.inbox == s.inbox
            && AttemptOf(s, step).value.back == step.QuiesceNext?
  {
    hide Advertise, Judge, Peered, WriteOut, ReadBack, Retried, FinishOp;
  }

  lemma UnattemptedNotes(posts: nat -> Option<nat>, posted: nat -> Option<nat>, back: bool)
    requires Notes(posts, posted, None, back)
    ensures forall id :: posted(id) == posts(id)
  {}

  lemma SameStamps(
    s: State, posts: nat -> Option<nat>, back: nat -> Option<nat>, posted: nat -> Option<nat>,
      backed: nat -> Option<nat>)
    requires Stamped(s, posts, back) && (forall id :: posted(id) == posts(id)) && (forall id :: backed(id) == back(id))
    ensures Stamped(s, posted, backed)
  {}

  lemma TalliedAndTraced(s: State)
    requires Invariant(s)
    ensures Traced(s.cfg, s.inbox.requests, s.queues) && Tallied(s.queues, |s.inbox.requests|)
  {
    hide Tallied, Traced, WellFormed, Productive, ClientsAgree;
  }

  lemma StepStamps(
    s: State, step: Step, posts: nat -> Option<nat>, back: nat -> Option<nat>,
    posted: nat -> Option<nat>, backed: nat -> Option<nat>)
    requires CanTake(s, step) && Invariant(s) && Stamped(s, posts, back)
    requires Notes(posts, posted, AttemptOf(s, step), false) && Notes(back, backed, AttemptOf(s, step), true)
    ensures Stamped(Next(s, step), posted, backed)
  {
    hide Invariant, Stamped, Notes, Next, CanTake, AttemptOf, Meets, FateOf, PlacesOf;
    if step.PostNext? || step.QuiesceNext? {
      AttemptStamps(s, step, posts, back, posted, backed);
    } else {
      NoAttempt(s, step);
      UnattemptedNotes(posts, posted, false);
      UnattemptedNotes(back, backed, true);
      LeavingStamps(s, step, posts, back);
      SameStamps(Next(s, step), posts, back, posted, backed);
    }
  }

  lemma NoAttempt(s: State, step: Step)
    requires !step.PostNext? && !step.QuiesceNext?
    ensures AttemptOf(s, step).None?
  {}

  lemma LeavingStamps(s: State, step: Step, posts: nat -> Option<nat>, back: nat -> Option<nat>)
    requires CanTake(s, step) && Invariant(s) && Stamped(s, posts, back) && !step.PostNext? && !step.QuiesceNext?
    ensures Stamped(Next(s, step), posts, back)
  {
    hide Invariant, Stamped, Handled, Reap, Sorted, FinishOp, Moved, Traced, Tallied;
    if step.Receive? {
      RestStamps(s, Popped(s), posts, back);
      HandlingStamps(Popped(s), s.inbox.channel[0], step.answer, posts, back);
    } else if step.ParkedReceive? {
      RestStamps(s, Popped(s).(phase := Intake), posts, back);
      HandlingStamps(Popped(s).(phase := Intake), s.inbox.channel[0], step.answer, posts, back);
    } else if step.ReapOne? {
      TalliedAndTraced(s);
      ReadBacksHaveNoRead(s, step);
      ReapStamps(s, Next(s, step), step.fromReads, step.index, step.ok, posts, back);
    } else if step.Dispatch? {
      SortStamps(s, Next(s, step), posts, back);
    } else {
      OthersLeaveStamps(s, step);
      RestStamps(s, Next(s, step), posts, back);
    }
  }

  lemma StampsAreReadings(s: State, posts: nat -> Option<nat>, back: nat -> Option<nat>)
    requires Stamped(s, posts, back)
    ensures s.queues.pending != [] ==>
              var x := s.queues.pending[0]; x.stalled == posts(x.id) && (x.stalled.Some? ==> x.stalled.value <= s.now)
    ensures s.queues.quiescing != [] ==>
              var x := s.queues.quiescing[0]; x.stalled == back(x.id) && (x.stalled.Some? ==> x.stalled.value <= s.now)
  {
    if s.queues.pending != [] {
      assert s.queues.pending[0] in s.queues.pending;
    }
    if s.queues.quiescing != [] {
      assert s.queues.quiescing[0] in s.queues.quiescing;
    }
  }

  lemma AttemptStamps(
    s: State, step: Step, posts: nat -> Option<nat>, back: nat -> Option<nat>,
    posted: nat -> Option<nat>, backed: nat -> Option<nat>)
    requires CanTake(s, step) && Invariant(s) && Stamped(s, posts, back) && (step.PostNext? || step.QuiesceNext?)
    requires Notes(posts, posted, AttemptOf(s, step), false) && Notes(back, backed, AttemptOf(s, step), true)
    ensures Stamped(Next(s, step), posted, backed)
  {
    hide Invariant, Stamped, Notes, Next, Meets, FateOf, PlacesOf, Peered, Traced;
    TalliedAndTraced(s);
    HeadsAreKnown(s);
    AttemptsReadTheClock(s, step);
    StampsAreReadings(s, posts, back);
    var a := AttemptOf(s, step).value;
    if step.PostNext? {
      PostMeets(s, step.post);
      PostStamps(s, Next(s, step), a, posts, back, posted, backed);
    } else {
      QuiesceMeets(s, step.read);
      BackStamps(s, Next(s, step), a, posts, back, posted, backed);
    }
  }

  // ----- Over whole runs -----

  lemma NothingStampedYet(cfg: Config)
    ensures Stamped(Initial(cfg), _ => None, _ => None)
  {}

  lemma StallsGrow(states: seq<State>, steps: seq<Step>, i: nat, back: bool)
    requires i < |steps| && i + 1 < |states|
    ensures Notes(Stalls(states, steps, i, back), Stalls(states, steps, i + 1, back), AttemptOf(states[i], steps[i]),
                  back)
  {
    hide AttemptOf;
  }

  lemma {:induction false} RunIsStamped(cfg: Config, states: seq<State>, steps: seq<Step>, i: nat)
    requires FromStart(cfg, states, steps) && i < |states|
    ensures Stamped(states[i], Stalls(states, steps, i, false), Stalls(states, steps, i, true))
  {
    hide Next, CanTake, Answerable, Invariant, Stamped, AttemptOf, Notes;
    if i == 0 {
      NothingStampedYet(cfg);
      SameStamps(states[0], _ => None, _ => None, Stalls(states, steps, 0, false), Stalls(states, steps, 0, true));
    } else {
      var n: nat := i - 1;
      RunIsStamped(cfg, states, steps, n);
      RunKeepsInvariant(cfg, states, steps, n);
      assert Enabled(states[n], steps[n]);
      StallsGrow(states, steps, n, false);
      StallsGrow(states, steps, n, true);
      StepStamps(states[n], steps[n], Stalls(states, steps, n, false), Stalls(states, steps, n, true),
                 Stalls(states, steps, i, false), Stalls(states, steps, i, true));
    }
  }

  /** Over every run and for both queues, each attempt to post comes to what its answers say: without a peer or a
      registration, or refused, the operation fails for that; taken, it is libfabric's; and met by EAGAIN, it goes to
      the back of its queue stamped with its first EAGAIN there, unless the clock has reached that plus the deadline,
      and then it fails as stalled. */
  lemma {:induction false} AttemptsMeetTheirFate(cfg: Config, states: seq<State>, steps: seq<Step>, i: nat)
    requires FromStart(cfg, states, steps) && i < |steps| && AttemptOf(states[i], steps[i]).Some?
    ensures var a := AttemptOf(states[i], steps[i]).value;
            && (if a.back then states[i].queues.quiescing != [] && states[i].queues.quiescing[0].id == a.id
                else states[i].queues.pending != [] && states[i].queues.pending[0].id == a.id)
            && Meets(states[i].queues, states[i + 1].queues, a.back,
                     FateOf(cfg.deadline, a, FirstStall(states, steps, i, a.back, a.id)))
  {
    hide Next, CanTake, Answerable, Invariant, Stamped, Meets, FateOf, Peered;
    RunIsStamped(cfg, states, steps, i);
    RunKeepsInvariant(cfg, states, steps, i);
    assert Enabled(states[i], steps[i]);
    StampsAreReadings(states[i], Stalls(states, steps, i, false), Stalls(states, steps, i, true));
    if steps[i].PostNext? {
      PostMeets(states[i], steps[i].post);
    } else {
      QuiesceMeets(states[i], steps[i].read);
    }
  }

  /** Whatever waits is stamped with the clock at its own first EAGAIN in that queue, and with nothing before it. */
  lemma {:induction false} StampIsTheFirstStall(cfg: Config, states: seq<State>, steps: seq<Step>, i: nat, x: Item)
    requires FromStart(cfg, states, steps) && i < |states|
    ensures x in states[i].queues.pending ==> x.stalled == FirstStall(states, steps, i, false, x.id)
    ensures x in states[i].queues.quiescing ==> x.stalled == FirstStall(states, steps, i, true, x.id)
  {
    hide Path, AttemptOf;
    RunIsStamped(cfg, states, steps, i);
  }
}
