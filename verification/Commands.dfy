/** The module: its keyspace, the clients it blocks and answers, and its choice of a device for each command. */
module Commands {
  import opened Basics
  import opened WorkerModel
  import opened Transfers

  /** What a command answers at once. */
  datatype Immediate = Blocked | Null | TooLong | NoWorkers

  class Module {
    var keys: Keys
    /** Every reply delivered, in order. */
    var replies: seq<Replied>
    /** What each device's worker took, in order. */
    var submitted: seq<seq<Token>>
    var nextBlocked: BlockedId
    /** Rotates between equally loaded devices. */
    var rotation: nat
    /** Everything that finished or was answered at once, and where each blocked client is. */
    ghost const initial: Keys
    ghost var log: seq<Happening>
    ghost var places: map<BlockedId, Place>

    /** The keyspace and the replies are what happened made of them, and each client that was blocked is with one
        worker or was answered at once. */
    ghost predicate Valid()
      reads this
    {
      && keys == KeysAfter(initial, log) && replies == RepliesAfter(initial, log)
      && Placed(submitted, log, nextBlocked, places)
    }

    constructor (devices: nat, keys: Keys)
      ensures Valid() && this.keys == keys && replies == [] && log == [] && |submitted| == devices
      ensures forall d | 0 <= d < devices :: submitted[d] == []
    {
      this.keys, initial, replies, log, places, nextBlocked, rotation := keys, keys, [], [], map[], 0, 0;
      submitted := seq(devices, _ => []);
    }

    /** A device none is less loaded than; among equals each call prefers another. */
    method LeastLoaded(loads: seq<nat>) returns (chosen: Option<nat>)
      modifies `rotation
      ensures rotation == old(rotation) + 1
      ensures chosen.None? <==> loads == []
      ensures chosen.Some? ==> IsChosen(loads, old(rotation), chosen.value)
      ensures chosen.Some? ==>
                && chosen.value < |loads| && (forall j | 0 <= j < |loads| :: loads[chosen.value] <= loads[j])
                && forall j | 0 <= j < |loads| && loads[j] == loads[chosen.value] ::
                     (chosen.value + old(rotation)) % |loads| <= (j + old(rotation)) % |loads|
    {
      hide Before;
      var turn := rotation;
      BeforeItself(loads, turn);
      rotation := rotation + 1;
      if loads == [] {
        return None;
      }
      var best, i := 0, 1;
      while i < |loads|
        invariant 1 <= i <= |loads| && best < i
        invariant forall j: nat | j < i :: Before(loads, turn, best, j)
      {
        var former := best;
        if !Before(loads, turn, best, i) {
          best := i;
        }
        forall j: nat | j <= i
          ensures Before(loads, turn, best, j)
        {
          LaterIsNoBetter(loads, turn, former, i, j);
        }
        i := i + 1;
      }
      ChosenIsLeast(loads, turn, best);
      return Some(best);
    }

    /** Block the client and hand its token to a device's worker, or answer it at once when the worker is gone: when
        its channel no longer has anybody at the other end. */
    method Submit(device: Device, client: Client, peer: Advertisement, command: Command, alive: bool)
      requires Valid() && device < |submitted|
      modifies `submitted, `replies, `keys, `log, `places, `nextBlocked
      ensures Valid() && keys == old(keys) && nextBlocked == old(nextBlocked) + 1
      ensures HandedOver(old(submitted), submitted, old(replies), replies, device,
                         Token(old(nextBlocked), client, peer, command), alive)
      ensures log == old(log) + if alive then [] else [AtOnce(Token(old(nextBlocked), client, peer, command))]
    {
      hide KeysAfter, RepliesAfter, Placed, Finish;
      var token := Token(nextBlocked, client, peer, command);
      nextBlocked := nextBlocked + 1;
      if alive {
        TakenIsPlaced(submitted, log, token.blocked, places, device, token);
        places := places[token.blocked := With(device, |submitted[device]|)];
        submitted := submitted[device := submitted[device] + [token]];
      } else {
        AnsweredIsPlaced(submitted, log, token.blocked, places, token);
        LogGrows(initial, log, AtOnce(token));
        FailureAnswers(keys, token);
        var finished := Finish(keys, token, Failed(WorkerGone), None, false);
        keys := finished.0;
        replies := replies + [Replied(token.blocked, finished.1)];
        places := places[token.blocked := Answered(|log|)];
        log := log + [AtOnce(token)];
      }
    }

    /** `DMA.GET`: nothing at the key answers null, a value past the client's capacity an error, and otherwise
        the value's bytes go to the least loaded device. */
    method DmaGet(
      client: Client, peer: Advertisement, key: Key, capacity: nat, want: bool, loads: seq<nat>, alive: seq<bool>)
      returns (now: Immediate)
      requires Valid() && |loads| == |alive| == |submitted|
      modifies this
      ensures Valid() && keys == old(keys)
      ensures now.Null? <==> key !in keys
      ensures now.TooLong? <==> key in keys && capacity < keys[key].length
      ensures now.NoWorkers? <==> key in keys && keys[key].length <= capacity && loads == []
      ensures !now.Blocked? ==> submitted == old(submitted) && replies == old(replies)
      ensures now.Blocked? ==>
                exists d: nat :: IsChosen(loads, old(rotation), d)
                  && HandedOver(old(submitted), submitted, old(replies), replies, d,
                                Token(old(nextBlocked), client, peer, GetCommand(keys[key].length, want)), alive[d])
    {
      hide KeysAfter, RepliesAfter, Placed;
      if key !in keys {
        return Null;
      }
      var length := keys[key].length;
      if capacity < length {
        return TooLong;
      }
      var server := LeastLoaded(loads);
      if server.None? {
        return NoWorkers;
      }
      Submit(server.value, client, peer, GetCommand(length, want), alive[server.value]);
      return Blocked;
    }

    /** `DMA.SET`: the keyspace is left alone until the completion. */
    method DmaSet(
      client: Client, peer: Advertisement, key: Key, length: nat, expected: Option<nat>, loads: seq<nat>,
      alive: seq<bool>)
      returns (now: Immediate)
      requires Valid() && |loads| == |alive| == |submitted|
      modifies this
      ensures Valid() && keys == old(keys) && (now.Blocked? || now.NoWorkers?)
      ensures now.NoWorkers? <==> loads == []
      ensures !now.Blocked? ==> submitted == old(submitted) && replies == old(replies)
      ensures now.Blocked? ==>
                exists d: nat :: IsChosen(loads, old(rotation), d)
                  && HandedOver(old(submitted), submitted, old(replies), replies, d,
                                Token(old(nextBlocked), client, peer, SetCommand(length, key, expected)), alive[d])
    {
      hide KeysAfter, RepliesAfter, Placed;
      var server := LeastLoaded(loads);
      if server.None? {
        return NoWorkers;
      }
      Submit(server.value, client, peer, SetCommand(length, key, expected), alive[server.value]);
      return Blocked;
    }

    /** Finish a batch of completions, whichever device it comes from: the keyspace half of each in order under the
        lock, then the replies. */
    method CompleteBatch(batch: seq<Happening>)
      requires Valid() && forall h | h in batch :: h.Finished?
      modifies `keys, `replies, `log
      ensures Valid() && log == old(log) + batch
    {
      hide KeysAfter, RepliesAfter, Placed, Finish;
      var staged: seq<Replied> := [];
      var i := 0;
      while i < |batch|
        invariant i <= |batch| && log == old(log) + batch[..i] && Placed(submitted, log, nextBlocked, places)
        invariant keys == KeysAfter(initial, log) && replies + staged == RepliesAfter(initial, log)
      {
        var h := batch[i];
        LogGrows(initial, log, h);
        FinishedKeepsPlaces(submitted, log, nextBlocked, places, h);
        assert old(log) + batch[..i + 1] == log + [h];
        var finished := Finish(keys, h.token, h.completion.outcome, h.landed, h.stores);
        keys := finished.0;
        staged := staged + [Replied(h.token.blocked, finished.1)];
        log := log + [h];
        i := i + 1;
      }
      assert batch[..i] == batch;
      i := 0;
      while i < |staged|
        invariant i <= |staged| && replies + staged[i..] == RepliesAfter(initial, log)
                  && keys == KeysAfter(initial, log)
        invariant log == old(log) + batch && Placed(submitted, log, nextBlocked, places)
      {
        assert staged[i..] == [staged[i]] + staged[i + 1..];
        replies := replies + [staged[i]];
        i := i + 1;
      }
      assert replies + staged[i..] == replies;
    }
  }

  /** One more happening is applied last. */
  lemma LogGrows(keys: Keys, log: seq<Happening>, h: Happening)
    ensures KeysAfter(keys, log + [h]) == HappensTo(KeysAfter(keys, log), h).0
    ensures RepliesAfter(keys, log + [h])
            == RepliesAfter(keys, log) + [Replied(h.token.blocked, HappensTo(KeysAfter(keys, log), h).1)]
  {
    hide HappensTo;
    assert (log + [h])[..|log|] == log;
  }

  lemma FailureAnswers(keys: Keys, token: Token)
    ensures Finish(keys, token, Failed(WorkerGone), None, false) == (keys, TransferError(WorkerGone))
  {}

  lemma TakenIsPlaced(
    tokens: seq<seq<Token>>, log: seq<Happening>, blocked: BlockedId, places: map<BlockedId, Place>, d: Device,
    token: Token)
    requires Placed(tokens, log, blocked, places) && d < |tokens| && token.blocked == blocked
    ensures Placed(tokens[d := tokens[d] + [token]], log, blocked + 1, places[blocked := With(d, |tokens[d]|)])
  {
    var after: seq<seq<Token>> := tokens[d := tokens[d] + [token]];
    var moved := places[blocked := With(d, |tokens[d]|)];
    forall e, i | 0 <= e < |after| && 0 <= i < |after[e]|
      ensures after[e][i].blocked in moved && moved[after[e][i].blocked] == With(e, i)
    {
      if e != d || i < |tokens[d]| {
        assert after[e][i] == tokens[e][i];
      }
    }
  }

  lemma AnsweredIsPlaced(
    tokens: seq<seq<Token>>, log: seq<Happening>, blocked: BlockedId, places: map<BlockedId, Place>, token: Token)
    requires Placed(tokens, log, blocked, places) && token.blocked == blocked
    ensures Placed(tokens, log + [AtOnce(token)], blocked + 1, places[blocked := Answered(|log|)])
  {}

  lemma BeforeItself(loads: seq<nat>, rotation: nat)
    ensures forall i: nat | i < |loads| :: Before(loads, rotation, i, i)
  {}

  /** The comparison is an order: whichever of `former` and `i` comes first comes before all `former` did. */
  lemma LaterIsNoBetter(loads: seq<nat>, rotation: nat, former: nat, i: nat, j: nat)
    requires former < |loads| && i < |loads| && j < |loads|
    ensures Before(loads, rotation, former, i) && j == i ==> Before(loads, rotation, former, j)
    ensures !Before(loads, rotation, former, i) && (j == i || Before(loads, rotation, former, j)) ==>
              Before(loads, rotation, i, j)
  {}

  /** One token went to one device's worker, or was answered at once because that worker is gone. */
  ghost predicate HandedOver(
    before: seq<seq<Token>>, after: seq<seq<Token>>, answered: seq<Replied>, answers: seq<Replied>, device: nat,
    token: Token, alive: bool)
  {
    && device < |before|
    && if alive then after == before[device := before[device] + [token]] && answers == answered
       else after == before && answers == answered + [Replied(token.blocked, TransferError(WorkerGone))]
  }

  /** The module beside its devices' workers, however their deliveries interleaved: every key holds the
      verified value stored into it last or is as it was, nobody was answered twice, and once every worker has returned
      and the pool is done everybody was answered. */
  lemma {:induction false} ModuleKeepsItsPromises(m: Module, workers: seq<Worker>)
    requires m.Valid() && TokensOf(workers) == m.submitted && Interleaves(workers, m.log)
    ensures forall key: Key :: HoldsTheLast(workers, m.log, |m.log|, m.initial, m.keys, key)
    ensures NoneTwice(m.replies)
    ensures AllDone(workers, m.log) ==> forall b: BlockedId | b < m.nextBlocked :: HasReply(m.replies, b)
  {
    hide Interleaves, KeysAfter, RepliesAfter, Placed, AllDone, HoldsTheLast, NoneTwice, HasReply;
    forall key: Key
      ensures HoldsTheLast(workers, m.log, |m.log|, m.initial, m.keys, key)
    {
      KeysHoldTheLastVerifiedValue(workers, m.log, m.initial, key);
    }
    NobodyIsAnsweredTwice(workers, m.log, m.initial, m.nextBlocked, m.places);
    if AllDone(workers, m.log) {
      forall b: BlockedId | b < m.nextBlocked
        ensures HasReply(m.replies, b)
      {
        EveryClientIsAnswered(workers, m.log, m.initial, m.nextBlocked, m.places, b);
      }
    }
  }
}
