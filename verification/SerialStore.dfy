/**
 * What the queue is for. Operations read a stored value, wait, and write what they make of it; because those of one key
 * never overlap, the value stored under a key is at all times what its settled operations give one after the other.
 * The collection protocol may therefore take each queued transaction as one step.
 */
module SerialStore {
  import opened Common
  import opened MutationQueue

  /** `read` is what each operation found when it started. */
  datatype State<S> = State(tails: map<Key, nat>, operations: seq<Operation>, stored: S, read: map<nat, S>)

  datatype Event = Enqueues(key: Key) | Starts(id: nat) | Settles(id: nat, resolved: bool) | CleansUp(id: nat)

  function Begin<S>(stored: S): State<S> { State(map[], [], stored, map[]) }

  /**
   * One event, for the value stored under `key`. `effect` is what operation `id` writes for what it read, when it
   * resolves and when it rejects.
   */
  function Next<S>(s: State<S>, key: Key, effect: (nat, bool, S) -> S, e: Event): State<S> {
    match e
    case Enqueues(k) =>
      s.(tails := s.tails[k := |s.operations|], operations := Enqueued(s.tails, s.operations, k))
    case Starts(id) =>
      if id >= |s.operations| || !Ready(s.operations, id) then s
      else s.(operations := s.operations[id := s.operations[id].(status := Running)], read := s.read[id := s.stored])
    case Settles(id, resolved) =>
      if id >= |s.operations| || !s.operations[id].status.Running? then s
      else
        s.(operations := s.operations[id := s.operations[id].(status := Settled(resolved))],
           stored := if s.operations[id].key == key && id in s.read then effect(id, resolved, s.read[id]) else s.stored)
    case CleansUp(id) =>
      if id >= |s.operations| || !s.operations[id].status.Settled? then s
      else s.(tails := CleanedTails(s.tails, s.operations[id].key, id),
              operations := s.operations[id := s.operations[id].(cleaned := true)])
  }

  /** Operation `id` with another status, if it is there. */
  function WithStatus(operations: seq<Operation>, id: nat, status: Status): seq<Operation>
    requires id < |operations|
  {
    operations[id := Operation(operations[id].key, operations[id].after, status, operations[id].cleaned)]
  }

  /**
   * What the events do, on the queue as `Queues` does it: an enqueued operation is chained to its key's tail, one that is
   * ready starts and reads what is stored, one that settles writes what it makes of what it read, if it is the key's, and
   * one that cleans up drops its entry.
   */
  lemma EventsDo<S>(s: State<S>, key: Key, effect: (nat, bool, S) -> S, id: nat, resolved: bool, k: Key)
    requires id < |s.operations|
    ensures var n := Next(s, key, effect, Starts(id));
            if Ready(s.operations, id) then
              n == State(s.tails, WithStatus(s.operations, id, Running), s.stored, s.read[id := s.stored])
            else n == s
    ensures var n, op := Next(s, key, effect, Settles(id, resolved)), s.operations[id];
            if op.status.Running? then
              && n.operations == WithStatus(s.operations, id, Settled(resolved)) && n.tails == s.tails && n.read == s.read
              && (id in s.read ==> n.stored == if op.key == key then effect(id, resolved, s.read[id]) else s.stored)
            else n == s
    ensures var n, op := Next(s, key, effect, CleansUp(id)), s.operations[id];
            if op.status.Settled? then
              && n.operations == s.operations[id := Operation(op.key, op.after, op.status, true)]
              && n.tails == (if op.key in s.tails && s.tails[op.key] == id then s.tails - {op.key} else s.tails)
              && n.stored == s.stored && n.read == s.read
            else n == s
    ensures var n := Next(s, key, effect, Enqueues(k));
            && n.operations
               == s.operations + [Operation(k, if k in s.tails then Some(s.tails[k]) else None, Waiting, false)]
            && n.tails == s.tails[k := |s.operations|] && n.stored == s.stored && n.read == s.read
  {
  }

  function Play<S>(s: State<S>, key: Key, effect: (nat, bool, S) -> S, events: seq<Event>): State<S>
    decreases |events|
  {
    if events == [] then s else Play(Next(s, key, effect, events[0]), key, effect, events[1..])
  }

  /** The settled operations of the key applied one after the other, in the order in which they were enqueued. */
  function InOrder<S>(key: Key, effect: (nat, bool, S) -> S, operations: seq<Operation>, first: S): S {
    if operations == [] then first
    else
      var id := |operations| - 1;
      var before := InOrder(key, effect, operations[..id], first);
      var op := operations[id];
      if op.key == key && op.status.Settled? then effect(id, op.status.resolved, before) else before
  }

  /** Operations that are settled alike give the same value. */
  lemma {:induction false} InOrderAgrees<S>(
    key: Key, effect: (nat, bool, S) -> S, operations: seq<Operation>, others: seq<Operation>, first: S)
    requires |operations| == |others|
    requires forall i | 0 <= i < |operations| ::
               && operations[i].key == others[i].key
               && (operations[i].key == key && (operations[i].status.Settled? || others[i].status.Settled?) ==>
                     operations[i].status == others[i].status)
    ensures InOrder(key, effect, operations, first) == InOrder(key, effect, others, first)
  {
    if operations != [] {
      var n := |operations| - 1;
      InOrderAgrees(key, effect, operations[..n], others[..n], first);
    }
  }

  /** Operations that have not settled do not count. */
  lemma {:induction false} InOrderSkips<S>(
    key: Key, effect: (nat, bool, S) -> S, operations: seq<Operation>, first: S, from: nat)
    requires from <= |operations|
    requires forall i | from <= i < |operations| && operations[i].key == key :: !operations[i].status.Settled?
    ensures InOrder(key, effect, operations, first) == InOrder(key, effect, operations[..from], first)
    decreases |operations|
  {
    if from == |operations| {
      assert operations[..from] == operations;
    } else {
      var n := |operations| - 1;
      InOrderSkips(key, effect, operations[..n], first, from);
      assert operations[..n][..from] == operations[..from];
    }
  }

  ghost predicate Inv<S>(s: State<S>, key: Key, effect: (nat, bool, S) -> S, first: S) {
    && QueueInv(s.tails, s.operations)
    && s.stored == InOrder(key, effect, s.operations, first)
    && forall i | 0 <= i < |s.operations| && s.operations[i].key == key && s.operations[i].status.Running? ::
         i in s.read && s.read[i] == s.stored
  }

  /** Around a running operation, those of its key have settled before it and wait after it. */
  lemma AroundRunning(tails: map<Key, nat>, operations: seq<Operation>, id: nat, j: nat)
    requires QueueInv(tails, operations) && id < |operations| && operations[id].status.Running?
    requires j < |operations| && j != id && operations[j].key == operations[id].key
    ensures if j < id then operations[j].status.Settled? else operations[j].status.Waiting?
  {
    if j < id { NeverOverlap(tails, operations, id, j); }
    else if !operations[j].status.Waiting? { NeverOverlap(tails, operations, j, id); }
  }

  lemma SettleOwnStores<S>(s: State<S>, key: Key, effect: (nat, bool, S) -> S, first: S, id: nat, resolved: bool)
    requires Inv(s, key, effect, first) && id < |s.operations| && s.operations[id].status.Running?
    requires s.operations[id].key == key
    ensures InOrder(key, effect, s.operations[id := s.operations[id].(status := Settled(resolved))], first)
            == effect(id, resolved, s.stored)
  {
    var operations := s.operations[id := s.operations[id].(status := Settled(resolved))];
    forall j | 0 <= j < |s.operations| && s.operations[j].key == key && j > id
      ensures !s.operations[j].status.Settled?
    {
      AroundRunning(s.tails, s.operations, id, j);
    }
    InOrderSkips(key, effect, s.operations, first, id);
    InOrderSkips(key, effect, operations, first, id + 1);
    assert operations[..id + 1][..id] == s.operations[..id];
  }

  lemma SettleKept<S>(s: State<S>, key: Key, effect: (nat, bool, S) -> S, first: S, id: nat, resolved: bool)
    requires Inv(s, key, effect, first) && id < |s.operations| && s.operations[id].status.Running?
    ensures Inv(Next(s, key, effect, Settles(id, resolved)), key, effect, first)
  {
    var n := Next(s, key, effect, Settles(id, resolved));
    MoveKeeps(s.tails, s.operations, id, Settled(resolved));
    if s.operations[id].key != key {
      InOrderAgrees(key, effect, s.operations, n.operations, first);
    } else {
      SettleOwnStores(s, key, effect, first, id, resolved);
      forall j | 0 <= j < |s.operations| && s.operations[j].key == key && j != id
        ensures !s.operations[j].status.Running?
      {
        AroundRunning(s.tails, s.operations, id, j);
      }
    }
  }

  lemma NextKept<S>(s: State<S>, key: Key, effect: (nat, bool, S) -> S, first: S, e: Event)
    requires Inv(s, key, effect, first)
    ensures Inv(Next(s, key, effect, e), key, effect, first)
  {
    var n := Next(s, key, effect, e);
    match e
    case Enqueues(k) =>
      EnqueueKeeps(s.tails, s.operations, k);
      InOrderSkips(key, effect, n.operations, first, |s.operations|);
      assert n.operations[..|s.operations|] == s.operations;
    case Starts(id) =>
      if id < |s.operations| && Ready(s.operations, id) {
        MoveKeeps(s.tails, s.operations, id, Running);
        InOrderAgrees(key, effect, s.operations, n.operations, first);
      }
    case Settles(id, resolved) =>
      if id < |s.operations| && s.operations[id].status.Running? { SettleKept(s, key, effect, first, id, resolved); }
    case CleansUp(id) =>
      if id < |s.operations| && s.operations[id].status.Settled? {
        CleanUpKeeps(s.tails, s.operations, id);
        InOrderAgrees(key, effect, s.operations, n.operations, first);
      }
  }

  lemma {:induction false} PlayKept<S>(
    s: State<S>, key: Key, effect: (nat, bool, S) -> S, first: S, events: seq<Event>)
    requires Inv(s, key, effect, first)
    ensures Inv(Play(s, key, effect, events), key, effect, first)
    decreases |events|
  {
    if events != [] {
      NextKept(s, key, effect, first, events[0]);
      PlayKept(Next(s, key, effect, events[0]), key, effect, first, events[1..]);
    }
  }

  /**
   * However enqueueing, starts, ends and cleanups interleave, what is stored under a key is what its settled operations
   * give one after the other in the order in which they were enqueued, and one that is under way has read just that.
   */
  lemma OperationsAreSerial<S>(key: Key, effect: (nat, bool, S) -> S, first: S, events: seq<Event>)
    ensures var s := Play(Begin(first), key, effect, events);
            && s.stored == InOrder(key, effect, s.operations, first)
            && (forall i | 0 <= i < |s.operations| && s.operations[i].key == key && s.operations[i].status.Running? ::
                  i in s.read && s.read[i] == s.stored)
  {
    PlayKept(Begin(first), key, effect, first, events);
  }
}
