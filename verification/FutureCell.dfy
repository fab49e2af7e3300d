/** A transfer as a future: the cell its completion and its polls share, one step per lock acquisition, per
    release of the cell and per wake. */
module FutureCell {
  import opened Basics

  /** Whom a waker wakes; two wakers of one poller wake alike. */
  type Poller = nat

  /** What the cell holds under its lock. The outcome travels with the caller's context. */
  datatype Cell<T> = Cell(outcome: Option<T>, waker: Option<Poller>)

  /** The completion's thread: before its lock, with the waker it took, after letting the cell go, done. */
  datatype Delivery = Undelivered | Stored(taken: Option<Poller>) | Released(taken: Option<Poller>) | Done

  /** The future: alive, its waker cleared by its drop, gone. */
  datatype Future = Alive | Cleared | Gone

  /** Where the caller's context ended up: handed to `Ready`, or dropped, and how often. The last poll that
      answered `Pending`, and whether its poller has been woken since, are watched too. */
  datatype State<T> = State(
    cell: Cell<T>, strong: nat, delivery: Delivery, future: Future,
    handed: nat, dropped: nat, pendingFor: Option<Poller>, woken: bool)

  datatype Step<T> =
    | Poll(poller: Poller)
    | ClearWaker | DropFuture
    | Store(outcome: T) | ReleaseCell | Wake

  function Initial<T>(): State<T> {
    State(Cell(None, None), 2, Undelivered, Alive, 0, 0, None, false)
  }

  predicate Enabled<T>(s: State<T>, step: Step<T>) {
    match step
    case Poll(_) => s.future.Alive?
    case ClearWaker => s.future.Alive?
    case DropFuture => s.future.Cleared? && 0 < s.strong
    case Store(_) => s.delivery.Undelivered?
    case ReleaseCell => s.delivery.Stored? && 0 < s.strong
    case Wake => s.delivery.Released?
  }

  /** Let go of the cell; the last holder drops what is still in it. */
  function Let<T>(s: State<T>): State<T>
    requires 0 < s.strong
  {
    if s.strong == 1
    then s.(strong := 0, cell := Cell(None, None), dropped := s.dropped + if s.cell.outcome.Some? then 1 else 0)
    else s.(strong := s.strong - 1)
  }

  function Next<T>(s: State<T>, step: Step<T>): State<T>
    requires Enabled(s, step)
  {
    match step
    case Poll(poller) =>
      if s.cell.outcome.Some? then
        s.(cell := s.cell.(outcome := None), handed := s.handed + 1, pendingFor := None)
      else
        s.(cell := s.cell.(waker := Some(poller)), pendingFor := Some(poller), woken := false)
    case ClearWaker => s.(cell := s.cell.(waker := None), future := Cleared)
    case DropFuture => Let(s).(future := Gone)
    case Store(outcome) => s.(cell := Cell(Some(outcome), None), delivery := Stored(s.cell.waker))
    case ReleaseCell => Let(s).(delivery := Released(s.delivery.taken))
    case Wake => s.(delivery := Done, woken := s.woken || (s.delivery.taken.Some? && s.delivery.taken == s.pendingFor))
  }

  ghost predicate Path<T>(states: seq<State<T>>, steps: seq<Step<T>>) {
    && |states| == |steps| + 1 && states[0] == Initial()
    && forall i | 0 <= i < |steps| :: Enabled(states[i], steps[i]) && states[i + 1] == Next(states[i], steps[i])
  }

  function Bit(b: bool): nat {
    if b then 1 else 0
  }

  /** The context is in one place: with the worker until stored, then in the cell, handed over or dropped. */
  ghost predicate Accounted<T>(s: State<T>) {
    && s.strong == Bit(!s.future.Gone?) + Bit(s.delivery.Undelivered? || s.delivery.Stored?)
    && s.handed + s.dropped + Bit(s.cell.outcome.Some?) == Bit(!s.delivery.Undelivered?)
    && (s.delivery.Undelivered? ==> s.cell.outcome.None?)
    && (s.strong == 0 ==> s.cell.outcome.None?)
    && (0 < s.dropped ==> s.strong == 0)
  }

  /** Until the outcome is handed over, the poller of the last pending poll is in the cell, in the delivering
      thread's hands, or woken. */
  ghost predicate Owed<T>(s: State<T>) {
    && (s.future.Alive? && s.handed == 0 && s.pendingFor.Some? ==>
          match s.delivery
          case Undelivered => s.cell.waker == s.pendingFor
          case Stored(taken) => taken == s.pendingFor && s.cell.outcome.Some?
          case Released(taken) => taken == s.pendingFor && s.cell.outcome.Some?
          case Done => s.woken && s.cell.outcome.Some?)
    && (s.delivery.Undelivered? && s.future.Alive? ==> s.cell.waker == s.pendingFor)
    && (s.future.Alive? && s.handed == 0 && !s.delivery.Undelivered? ==> s.cell.outcome.Some?)
  }

  lemma {:induction false} RunKeepsAccounts<T>(states: seq<State<T>>, steps: seq<Step<T>>, i: nat)
    requires Path(states, steps) && i < |states|
    ensures Accounted(states[i]) && Owed(states[i])
  {
    if 0 < i {
      RunKeepsAccounts(states, steps, i - 1);
      StepKeepsAccounts(states[i - 1], steps[i - 1]);
    }
  }

  lemma StepKeepsAccounts<T>(s: State<T>, step: Step<T>)
    requires Enabled(s, step) && Accounted(s) && Owed(s)
    ensures Accounted(Next(s, step)) && Owed(Next(s, step))
  {}

  /** If the last poll answered `Pending` and the future is alive when delivery is over, the poller that polled
      has been woken since that poll, and its next poll is ready. */
  lemma {:induction false} PendingPollsAreWoken<T>(states: seq<State<T>>, steps: seq<Step<T>>, i: nat)
    requires Path(states, steps) && i < |states|
    requires states[i].delivery.Done? && states[i].future.Alive? && states[i].handed == 0
    ensures states[i].pendingFor.Some? ==> states[i].woken
    ensures forall poller: Poller :: Next(states[i], Poll(poller)).handed == 1
  {
    RunKeepsAccounts(states, steps, i);
  }

  /** At most one poll is ever ready, and the context is handed over or dropped, never both, once both ends
      have let go; while the worker still has it, neither. */
  lemma {:induction false} ContextEndsOnce<T>(states: seq<State<T>>, steps: seq<Step<T>>, i: nat)
    requires Path(states, steps) && i < |states|
    ensures states[i].handed + states[i].dropped <= 1
    ensures states[i].delivery.Undelivered? ==> states[i].handed == 0 && states[i].dropped == 0
    ensures states[i].future.Gone? && (states[i].delivery.Released? || states[i].delivery.Done?) ==>
              states[i].handed + states[i].dropped == 1
  {
    RunKeepsAccounts(states, steps, i);
  }

  /** A poller woken by the delivery never finds the delivering thread still holding the cell: the future alone
      keeps it, so the context of a future dropped then dies with it. */
  lemma {:induction false} WokenFuturesOwnTheCell<T>(states: seq<State<T>>, steps: seq<Step<T>>, i: nat)
    requires Path(states, steps) && i < |steps| && steps[i].Wake?
    ensures states[i].strong == Bit(!states[i].future.Gone?)
    ensures states[i].future.Cleared? && states[i].handed == 0 ==> Next(states[i], DropFuture).dropped == 1
  {
    RunKeepsAccounts(states, steps, i);
    RunKeepsStored(states, steps, i);
  }

  /** Nothing empties a stored cell but a ready poll or its last holder. */
  lemma {:induction false} RunKeepsStored<T>(states: seq<State<T>>, steps: seq<Step<T>>, i: nat)
    requires Path(states, steps) && i < |states|
    ensures states[i].handed == 0 && 0 < states[i].strong && !states[i].delivery.Undelivered? ==>
              states[i].cell.outcome.Some?
  {
    if 0 < i {
      RunKeepsStored(states, steps, i - 1);
      RunKeepsAccounts(states, steps, i - 1);
    }
  }

  // ----- The cell -----

  /** The cell behind its lock, updated in place by polls, by the future's drop and by delivery. */
  class TransferCell<T(0)> {
    var outcome: Option<T>
    var waker: Option<Poller>
    ghost var strong: nat
    ghost var delivery: Delivery
    ghost var future: Future
    ghost var handed: nat
    ghost var dropped: nat
    ghost var pendingFor: Option<Poller>
    ghost var woken: bool

    ghost function Now(): State<T>
      reads this
    {
      State(Cell(outcome, waker), strong, delivery, future, handed, dropped, pendingFor, woken)
    }

    constructor ()
      ensures Now() == Initial()
    {
      outcome, waker := None, None;
      strong, delivery, future, handed, dropped, pendingFor, woken := 2, Undelivered, Alive, 0, 0, None, false;
    }

    /** Take the outcome if it is there, or leave this poller's waker; one that would wake the same poller is kept. */
    method Poll(poller: Poller) returns (ready: Option<T>)
      requires Enabled(Now(), Step.Poll(poller))
      modifies this
      ensures Now() == Next(old(Now()), Step.Poll(poller)) && ready == old(outcome)
    {
      ready := outcome;
      if outcome.Some? {
        outcome := None;
        handed, pendingFor := handed + 1, None;
        return;
      }
      if waker != Some(poller) {
        waker := Some(poller);
      }
      pendingFor, woken := Some(poller), false;
    }

    /** The future's drop: nobody is left to wake. */
    method Forget()
      requires Enabled(Now(), ClearWaker)
      modifies this
      ensures Now() == Next(old(Now()), ClearWaker)
    {
      waker := None;
      future := Cleared;
    }

    /** The completion's lock: leave the outcome, take the waker. */
    method Deliver(finished: T) returns (taken: Option<Poller>)
      requires Enabled(Now(), Store(finished))
      modifies this
      ensures Now() == Next(old(Now()), Store(finished)) && taken == old(waker)
    {
      taken := waker;
      outcome, waker := Some(finished), None;
      delivery := Stored(taken);
    }
  }
}
