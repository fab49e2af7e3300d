/** The one-shot reply between the worker and a waiting caller, one step per lock acquisition and per
    notification. */
module Reply {
  import opened Basics

  datatype Slot<T> = Pending | Answered(value: T) | Abandoned

  /** The worker's end: unused, value stored but the caller not yet notified, notified, dropped. */
  datatype Sender = Unused | Settled | Notified | Gone

  /** The caller's end: about to take the lock, asleep on the condition variable, returned. */
  datatype Waiter<T> = Looking | Asleep | Returned(result: Option<T>)

  /** `sent` watches what `send` was called with, if it was. */
  datatype State<T> = State(slot: Slot<T>, sender: Sender, waiter: Waiter<T>, sent: Option<T>)

  datatype Step<T> = Settle(value: T) | Notify | DropAnswer | Look | Spurious

  function Initial<T>(): State<T> {
    State(Pending, Unused, Looking, None)
  }

  predicate Enabled<T>(s: State<T>, step: Step<T>) {
    match step
    case Settle(_) => s.sender.Unused?
    case Notify => s.sender.Settled?
    case DropAnswer => s.sender.Unused? || s.sender.Notified?
    case Look => s.waiter.Looking?
    case Spurious => s.waiter.Asleep?
  }

  /** A notification reaches the caller only if it is asleep. */
  function Woken<T>(w: Waiter<T>): Waiter<T> {
    if w.Asleep? then Looking else w
  }

  function Next<T>(s: State<T>, step: Step<T>): State<T>
    requires Enabled(s, step)
  {
    match step
    case Settle(value) => s.(slot := Answered(value), sender := Settled, sent := Some(value))
    case Notify => s.(sender := Notified, waiter := Woken(s.waiter))
    case DropAnswer =>
      if s.slot.Pending? then s.(slot := Abandoned, sender := Gone, waiter := Woken(s.waiter)) else s.(sender := Gone)
    case Look =>
      (match s.slot
       case Answered(value) => s.(slot := Pending, waiter := Returned(Some(value)))
       case Abandoned => s.(slot := Pending, waiter := Returned(None))
       case Pending => s.(waiter := Asleep))
    case Spurious => s.(waiter := Looking)
  }

  ghost predicate Path<T>(states: seq<State<T>>, steps: seq<Step<T>>) {
    && |states| == |steps| + 1 && states[0] == Initial()
    && forall i | 0 <= i < |steps| :: Enabled(states[i], steps[i]) && states[i + 1] == Next(states[i], steps[i])
  }

  /** Until the caller returns, the slot says what the worker's end has done, and a sleeper is owed a wakeup. */
  ghost predicate Handover<T>(s: State<T>) {
    if s.waiter.Returned? then
      && s.waiter.result == s.sent && !s.slot.Answered?
      && (s.sent.None? ==> s.sender.Gone?) && (s.sent.Some? ==> !s.sender.Unused?)
    else
      && (match s.sender
          case Unused => s.slot.Pending? && s.sent.None?
          case Settled => s.sent.Some? && s.slot == Answered(s.sent.value)
          case Notified => s.sent.Some? && s.slot == Answered(s.sent.value)
          case Gone => s.slot == if s.sent.Some? then Answered(s.sent.value) else Abandoned)
      && (s.waiter.Asleep? ==> s.sender.Unused? || s.sender.Settled?)
  }

  lemma {:induction false} RunKeepsHandover<T>(states: seq<State<T>>, steps: seq<Step<T>>, i: nat)
    requires Path(states, steps) && i < |states|
    ensures Handover(states[i])
  {
    if 0 < i {
      RunKeepsHandover(states, steps, i - 1);
    }
  }

  /** The caller gets `Some(v)` exactly when `send(v)` ran, and `None` exactly when the answer was dropped
      unsent, even though the drop inside `send` may find the slot emptied and mark it abandoned. */
  lemma {:induction false} WaitReturnsWhatWasSent<T>(states: seq<State<T>>, steps: seq<Step<T>>, i: nat, v: T)
    requires Path(states, steps) && i < |states| && states[i].waiter.Returned?
    ensures states[i].waiter.result == Some(v) <==> exists k :: 0 <= k < i && steps[k] == Settle(v)
    ensures states[i].waiter.result == None <==> (forall k | 0 <= k < i :: !steps[k].Settle?) && states[i].sender.Gone?
  {
    RunKeepsHandover(states, steps, i);
    SentIsWhatRan(states, steps, i);
  }

  lemma {:induction false} SentIsWhatRan<T>(states: seq<State<T>>, steps: seq<Step<T>>, i: nat)
    requires Path(states, steps) && i < |states|
    ensures states[i].sent.Some? ==>
              !states[i].sender.Unused? && exists k :: 0 <= k < i && steps[k] == Settle(states[i].sent.value)
    ensures forall k | 0 <= k < i && steps[k].Settle? :: states[i].sent == Some(steps[k].value)
    ensures states[i].sent.None? ==> forall k | 0 <= k < i :: !steps[k].Settle?
  {
    if 0 < i {
      SentIsWhatRan(states, steps, i - 1);
      if steps[i - 1].Settle? {
        assert states[i - 1].sent.None?;
      } else if states[i].sent.Some? {
        var k :| 0 <= k < i - 1 && steps[k] == Settle(states[i - 1].sent.value);
      }
    }
  }

  /** Both ends are done. */
  predicate Over<T>(s: State<T>) {
    s.waiter.Returned? && s.sender.Gone?
  }

  /** No wakeup is lost: a sleeping caller is owed one by an end that has yet to act, and once that end is
      gone the caller is awake and its next look returns. */
  lemma {:induction false} NoLostWakeup<T>(states: seq<State<T>>, steps: seq<Step<T>>, i: nat)
    requires Path(states, steps) && i < |states|
    ensures states[i].waiter.Asleep? ==>
              || (states[i].sender.Unused? && Woken(Next(states[i], DropAnswer).waiter).Looking?)
              || (states[i].sender.Settled? && Next(states[i], Notify).waiter.Looking?)
    ensures states[i].sender.Gone? && !states[i].waiter.Returned? ==>
              states[i].waiter.Looking? && Next(states[i], Look).waiter == Returned(states[i].sent)
    ensures !Over(states[i]) ==>
              Enabled(states[i], Notify) || Enabled(states[i], DropAnswer) || Enabled(states[i], Look)
  {
    RunKeepsHandover(states, steps, i);
  }

  function Spurious<T>(steps: seq<Step<T>>): nat {
    if steps == [] then 0 else Spurious(steps[..|steps| - 1]) + if steps[|steps| - 1].Spurious? then 1 else 0
  }

  function Left<T>(s: State<T>): nat {
    (match s.sender case Unused => 6 case Settled => 4 case Notified => 2 case Gone => 0)
    + if s.waiter.Looking? then 1 else 0
  }

  /** A run has at most seven steps, and two more for each spurious wakeup. */
  lemma {:induction false} RunsAreShort<T>(states: seq<State<T>>, steps: seq<Step<T>>)
    requires Path(states, steps)
    ensures |steps| + Left(states[|steps|]) <= 7 + 2 * Spurious(steps)
  {
    if steps != [] {
      var n := |steps| - 1;
      RunsAreShort(states[..n + 1], steps[..n]);
      assert Enabled(states[n], steps[n]) && states[n + 1] == Next(states[n], steps[n]);
    }
  }

  // ----- The slot -----

  /** The shared slot, updated in place: each method is one critical section or one notification. */
  class ReplySlot<T(0)> {
    var state: Slot<T>
    ghost var sender: Sender
    ghost var waiter: Waiter<T>
    ghost var sent: Option<T>

    ghost function Now(): State<T>
      reads this
    {
      State(state, sender, waiter, sent)
    }

    constructor ()
      ensures Now() == Initial()
    {
      state, sender, waiter, sent := Pending, Unused, Looking, None;
    }

    /** `send` up to the unlock. */
    method Settle(value: T)
      requires Enabled(Now(), Step.Settle(value))
      modifies this
      ensures Now() == Next(old(Now()), Step.Settle(value))
    {
      state := Answered(value);
      sender, sent := Settled, Some(value);
    }

    /** `notify_one` after it. */
    method NotifyOne()
      requires Enabled(Now(), Notify)
      modifies this
      ensures Now() == Next(old(Now()), Notify)
    {
      sender, waiter := Notified, Woken(waiter);
    }

    /** The answer's drop, unsent or at the end of `send`. */
    method DropAnswer()
      requires Enabled(Now(), Step.DropAnswer)
      modifies this
      ensures Now() == Next(old(Now()), Step.DropAnswer)
    {
      sender := Gone;
      if state.Pending? {
        state := Abandoned;
        waiter := Woken(waiter);
      }
    }

    /** One turn of the caller's loop: take what is there, or sleep. */
    method Look() returns (answer: Option<Option<T>>)
      requires Enabled(Now(), Step.Look)
      modifies this
      ensures Now() == Next(old(Now()), Step.Look)
      ensures answer == if waiter.Returned? then Some(waiter.result) else None
    {
      var found := state;
      state := Pending;
      match found {
        case Answered(value) =>
          waiter := Returned(Some(value));
          answer := Some(Some(value));
        case Abandoned =>
          waiter := Returned(None);
          answer := Some(None);
        case Pending =>
          waiter := Asleep;
          answer := None;
      }
    }
  }
}
