/** What the worker's queues hold, as multisets of transfers and of their clients, and what is left to do
    for them. */
module WorkerQueues {
  import opened Basics
  import opened WorkerModel

  function Ids(q: seq<Item>): (r: seq<nat>)
    ensures |r| == |q| && forall i | 0 <= i < |q| :: r[i] == q[i].id
  {
    seq(|q|, i requires 0 <= i < |q| => q[i].id)
  }

  function Clients(q: seq<Item>): (r: seq<Client>)
    ensures |r| == |q| && forall i | 0 <= i < |q| :: r[i] == q[i].request.client
  {
    seq(|q|, i requires 0 <= i < |q| => q[i].request.client)
  }

  function CompletedIds(q: seq<Completion>): (r: seq<nat>)
    ensures |r| == |q| && forall i | 0 <= i < |q| :: r[i] == q[i].id
  {
    seq(|q|, i requires 0 <= i < |q| => q[i].id)
  }

  function ReadyIds(entries: seq<CqEntry>): (r: seq<nat>)
    ensures |r| == |entries| && forall i | 0 <= i < |entries| :: r[i] == entries[i].id
  {
    seq(|entries|, i requires 0 <= i < |entries| => entries[i].id)
  }

  ghost function ReadyBag(entries: seq<CqEntry>): multiset<nat> { multiset(ReadyIds(entries)) }

  ghost function IdBag(q: seq<Item>): multiset<nat> { multiset(Ids(q)) }

  ghost function ClientBag(q: seq<Item>): multiset<Client> { multiset(Clients(q)) }

  ghost function CompletedBag(q: seq<Completion>): multiset<nat> { multiset(CompletedIds(q)) }

  /** Moves a reaped item still has coming: it may yet need its quiesce read. */
  function Owed(item: Item): nat {
    if item.ok && item.read.Some? then 6 else 3
  }

  function Load(q: seq<Item>): nat {
    if q == [] then 0 else Owed(q[0]) + Load(q[1..])
  }

  /** Ticks before a queued item's post stops being retried. */
  function Patience(cfg: Config, item: Item, now: nat): nat {
    if item.stalled.None? then cfg.deadline + 1 else Saturating(item.stalled.value + cfg.deadline, now)
  }

  function TotalPatience(cfg: Config, q: seq<Item>, now: nat): nat {
    if q == [] then 0 else Patience(cfg, q[0], now) + TotalPatience(cfg, q[1..], now)
  }

  lemma BagsOfEmpty()
    ensures IdBag([]) == multiset{} && ClientBag([]) == multiset{} && CompletedBag([]) == multiset{}
  {}

  lemma BagsAfterAppend(q: seq<Item>, x: Item)
    ensures IdBag(q + [x]) == IdBag(q) + multiset{x.id}
    ensures ClientBag(q + [x]) == ClientBag(q) + multiset{x.request.client}
  {
    assert Ids(q + [x]) == Ids(q) + [x.id];
    assert Clients(q + [x]) == Clients(q) + [x.request.client];
  }

  lemma BagsAfterPop(q: seq<Item>)
    requires q != []
    ensures IdBag(q) == IdBag(q[1..]) + multiset{q[0].id}
    ensures ClientBag(q) == ClientBag(q[1..]) + multiset{q[0].request.client}
  {
    assert Ids(q) == [q[0].id] + Ids(q[1..]);
    assert Clients(q) == [q[0].request.client] + Clients(q[1..]);
  }

  lemma BagsAfterRemoval(q: seq<Item>, k: nat)
    requires k < |q|
    ensures IdBag(q) == IdBag(Without(q, k)) + multiset{q[k].id}
    ensures ClientBag(q) == ClientBag(Without(q, k)) + multiset{q[k].request.client}
  {
    assert Ids(Without(q, k)) == Ids(q)[..k] + Ids(q)[k + 1..];
    assert Ids(q) == Ids(q)[..k] + [q[k].id] + Ids(q)[k + 1..];
    assert Clients(Without(q, k)) == Clients(q)[..k] + Clients(q)[k + 1..];
    assert Clients(q) == Clients(q)[..k] + [q[k].request.client] + Clients(q)[k + 1..];
  }

  lemma BagsAfterConcat(q: seq<Item>, r: seq<Item>)
    ensures IdBag(q + r) == IdBag(q) + IdBag(r)
  {
    assert Ids(q + r) == Ids(q) + Ids(r);
  }

  lemma CompletedAfterConcat(q: seq<Completion>, r: seq<Completion>)
    ensures CompletedBag(q + r) == CompletedBag(q) + CompletedBag(r)
  {
    assert CompletedIds(q + r) == CompletedIds(q) + CompletedIds(r);
  }

  lemma CompletedOne(c: Completion)
    ensures CompletedBag([c]) == multiset{c.id}
  {
    assert CompletedIds([c]) == [c.id];
  }

  lemma {:induction false} LoadAfterAppend(q: seq<Item>, x: Item)
    ensures Load(q + [x]) == Load(q) + Owed(x)
  {
    if q == [] {
      assert q + [x] == [x];
    } else {
      LoadAfterAppend(q[1..], x);
      assert (q + [x])[1..] == q[1..] + [x];
    }
  }

  lemma {:induction false} PatienceAfterAppend(cfg: Config, q: seq<Item>, x: Item, now: nat)
    ensures TotalPatience(cfg, q + [x], now) == TotalPatience(cfg, q, now) + Patience(cfg, x, now)
  {
    if q == [] {
      assert q + [x] == [x];
    } else {
      PatienceAfterAppend(cfg, q[1..], x, now);
      assert (q + [x])[1..] == q[1..] + [x];
    }
  }

  lemma {:induction false} PatienceWearsOut(cfg: Config, q: seq<Item>, now: nat, later: nat)
    requires now <= later
    ensures TotalPatience(cfg, q, later) <= TotalPatience(cfg, q, now)
  {
    if q != [] {
      PatienceWearsOut(cfg, q[1..], now, later);
    }
  }
}
