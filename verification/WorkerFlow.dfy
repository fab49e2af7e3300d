/** How each part of a step moves transfers between places: nothing is lost, nothing doubled. */
module WorkerFlow {
  import opened Basics
  import opened WorkerModel
  import opened WorkerQueues
  import opened WorkerInvariant

  function One(b: bool): nat {
    if b then 1 else 0
  }

  /** The same transfers in the same hands, but for `id` coming in and one operation of `c` coming in or going. */
  lemma QueueFlow(q: Queues, item: Item, id: nat, c: Client)
    ensures var t := q.(pending := q.pending + [item]);
            && PlacesOf(t, id) == PlacesOf(q, id) + One(id == item.id)
            && OpsOf(t, c) == OpsOf(q, c) + One(c == item.request.client)
            && Work(t) == Work(q) + 8
  {
    hide IdBag, ClientBag, CompletedBag, Load;
    BagsAfterAppend(q.pending, item);
  }

  lemma CompleteFlow(q: Queues, done: Completion, id: nat, c: Client)
    ensures var t := Complete(q, done);
            PlacesOf(t, id) == PlacesOf(q, id) + One(id == done.id) && OpsOf(t, c) == OpsOf(q, c)
              && Work(t) == Work(q) + 2
  {
    hide IdBag, ClientBag, CompletedBag, Load;
    CompletedAfterConcat(q.completions, [done]);
    CompletedOne(done);
  }

  /** The first pending transfer leaves its queue. */
  lemma PendingFlow(q: Queues, id: nat, c: Client)
    requires q.pending != []
    ensures var t := q.(pending := q.pending[1..]); var item := q.pending[0];
            && PlacesOf(q, id) == PlacesOf(t, id) + One(id == item.id)
            && OpsOf(q, c) == OpsOf(t, c) + One(c == item.request.client)
            && Work(q) == Work(t) + 8
  {
    hide IdBag, ClientBag, CompletedBag, Load;
    BagsAfterPop(q.pending);
  }

  lemma FirstFlow(q: Queues, item: Item, id: nat, c: Client)
    ensures var t := q.(first := q.first + [item]);
            && PlacesOf(t, id) == PlacesOf(q, id) + One(id == item.id)
            && OpsOf(t, c) == OpsOf(q, c) + One(c == item.request.client)
            && Work(t) == Work(q) + 7
  {
    hide IdBag, ClientBag, CompletedBag, Load;
    BagsAfterAppend(q.first, item);
  }

  lemma WaitingFlow(q: Queues, id: nat, c: Client)
    requires q.quiescing != []
    ensures var t := q.(quiescing := q.quiescing[1..]); var item := q.quiescing[0];
            && PlacesOf(q, id) == PlacesOf(t, id) + One(id == item.id)
            && OpsOf(q, c) == OpsOf(t, c) + One(c == item.request.client)
            && Work(q) == Work(t) + 5
  {
    hide IdBag, ClientBag, CompletedBag, Load;
    BagsAfterPop(q.quiescing);
  }

  lemma AwaitFlow(q: Queues, item: Item, id: nat, c: Client)
    ensures var t := q.(quiescing := q.quiescing + [item]);
            && PlacesOf(t, id) == PlacesOf(q, id) + One(id == item.id)
            && OpsOf(t, c) == OpsOf(q, c) + One(c == item.request.client)
            && Work(t) == Work(q) + 5
  {
    hide IdBag, ClientBag, CompletedBag, Load;
    BagsAfterAppend(q.quiescing, item);
  }

  lemma ReadBackFlow(q: Queues, item: Item, id: nat, c: Client)
    ensures var t := q.(readBacks := q.readBacks + [item]);
            && PlacesOf(t, id) == PlacesOf(q, id) + One(id == item.id)
            && OpsOf(t, c) == OpsOf(q, c) + One(c == item.request.client)
            && Work(t) == Work(q) + 4
  {
    hide IdBag, ClientBag, CompletedBag, Load;
    BagsAfterAppend(q.readBacks, item);
  }

  /** A completion moves its operation from libfabric to the reaped, whichever operation it names. */
  lemma ReapFlow(q: Queues, fromReads: bool, index: nat, ok: bool, id: nat, c: Client)
    requires index < |if fromReads then q.readBacks else q.first|
    requires fromReads ==> q.readBacks[index].read.None?
    ensures var t := Reap(q, fromReads, index, ok);
            PlacesOf(t, id) == PlacesOf(q, id) && OpsOf(t, c) == OpsOf(q, c) && Work(t) + 1 <= Work(q)
  {
    hide IdBag, ClientBag, CompletedBag, Load;
    var from := if fromReads then q.readBacks else q.first;
    BagsAfterRemoval(from, index);
    BagsAfterAppend(q.reaped, Landed(from[index], ok));
    LoadAfterAppend(q.reaped, Landed(from[index], ok));
  }

  lemma ReapedFlow(q: Queues, id: nat, c: Client)
    requires q.reaped != []
    ensures var t := q.(reaped := q.reaped[1..]); var item := q.reaped[0];
            && PlacesOf(q, id) == PlacesOf(t, id) + One(id == item.id)
            && OpsOf(q, c) == OpsOf(t, c) + One(c == item.request.client)
            && Work(q) == Work(t) + Owed(item)
  {
    hide IdBag, ClientBag, CompletedBag;
    BagsAfterPop(q.reaped);
  }

  lemma HashFlow(q: Queues, item: Item, id: nat, c: Client)
    ensures var t := q.(crc := q.crc + [item]);
            PlacesOf(t, id) == PlacesOf(q, id) + One(id == item.id) && OpsOf(t, c) == OpsOf(q, c)
              && Work(t) == Work(q) + 2
  {
    hide IdBag, ClientBag, CompletedBag, Load;
    BagsAfterAppend(q.crc, item);
  }

  /** A reaped transfer goes exactly one way, and stays outstanding only if its quiesce read is due. */
  lemma SortFlow(cfg: Config, q: Queues, id: nat, c: Client)
    requires q.reaped != []
    ensures var t := Sorted(cfg, q); var item := q.reaped[0];
            && PlacesOf(t, id) == PlacesOf(q, id)
            && OpsOf(q, c) == OpsOf(t, c) + One(!NeedsRead(item) && c == item.request.client)
            && Work(t) < Work(q)
  {
    hide PlacesOf, OpsOf, Work;
    var item := q.reaped[0];
    var rest := q.(reaped := q.reaped[1..]);
    ReapedFlow(q, id, c);
    if NeedsRead(item) {
      AwaitFlow(rest, item.(stalled := None), id, c);
    } else if item.request.wantChecksum {
      HashFlow(rest, item, id, c);
    } else {
      CompleteFlow(rest, IntoCompletion(cfg, item), id, c);
    }
  }

  lemma FlushFlow(q: Queues, id: nat, c: Client)
    ensures var t := q.(pool := q.pool + q.crc, crc := []);
            PlacesOf(t, id) == PlacesOf(q, id) && OpsOf(t, c) == OpsOf(q, c) && Work(t) + |q.crc| == Work(q)
  {
    BagsAfterConcat(q.pool, q.crc);
    BagsOfEmpty();
    hide IdBag, ClientBag, CompletedBag, Load;
  }

  lemma DeliverFlow(q: Queues, id: nat, c: Client)
    ensures var t := q.(delivered := q.delivered + q.completions, completions := []);
            PlacesOf(t, id) == PlacesOf(q, id) && OpsOf(t, c) == OpsOf(q, c) && Work(t) + 2 * |q.completions| == Work(q)
  {
    hide IdBag, ClientBag, CompletedBag, Load;
    CompletedAfterConcat(q.delivered, q.completions);
    BagsOfEmpty();
  }

  lemma PoolFlow(cfg: Config, q: Queues, job: nat, id: nat, c: Client)
    requires job < |q.pool|
    ensures var t := PoolDone(cfg, q, job);
            PlacesOf(t, id) == PlacesOf(q, id) && OpsOf(t, c) == OpsOf(q, c) && Work(t) < Work(q)
  {
    hide IdBag, ClientBag, CompletedBag, Load;
    BagsAfterRemoval(q.pool, job);
    var done := IntoCompletion(cfg, q.pool[job]);
    CompletedAfterConcat(q.delivered, [done]);
    CompletedOne(done);
  }
}
