/**
 * The promise chain per storage key that serializes storage mutations.
 *
 * Every enqueued operation waits for the one its key's entry named when it was enqueued, whether that one resolves or
 * rejects. Its cleanup drops the key's entry only while the entry still names it.
 */
module MutationQueue {
  import opened Common

  type Key = string

  datatype Status = Waiting | Running | Settled(resolved: bool)

  /** `after` is the operation this one was chained to; None when the key had no entry. */
  datatype Operation = Operation(key: Key, after: Option<nat>, status: Status, cleaned: bool)

  /** Positions in `operations` are in enqueue order. */
  ghost predicate QueueInv(tails: map<Key, nat>, operations: seq<Operation>) {
    && AllChained(operations)
    && (forall k | k in tails :: IsTail(operations, k, tails[k]) && !operations[tails[k]].cleaned)
    && (forall i | 0 <= i < |operations| && operations[i].key !in tails :: operations[i].status.Settled?)
  }

  /** Operation `i` is chained to the last earlier one of its key, or every earlier one of its key has settled. */
  ghost predicate Chained(operations: seq<Operation>, i: nat)
    requires i < |operations|
  {
    var op := operations[i];
    && (op.cleaned ==> op.status.Settled?)
    && match op.after
       case None => forall j | 0 <= j < i && operations[j].key == op.key :: operations[j].status.Settled?
       case Some(p) =>
         && p < i && operations[p].key == op.key
         && (forall j | p < j < i :: operations[j].key != op.key)
         && (!op.status.Waiting? ==> operations[p].status.Settled?)
  }

  ghost predicate AllChained(operations: seq<Operation>) { forall i | 0 <= i < |operations| :: Chained(operations, i) }

  ghost predicate IsTail(operations: seq<Operation>, k: Key, t: nat) {
    t < |operations| && operations[t].key == k && forall j | t < j < |operations| :: operations[j].key != k
  }

  /** An operation may start once the one it is chained to has settled, resolved or rejected. */
  predicate Ready(operations: seq<Operation>, i: nat)
    requires i < |operations|
  {
    operations[i].status.Waiting? &&
    match operations[i].after
    case None => true
    case Some(p) => p < |operations| && operations[p].status.Settled?
  }

  /** Moving one operation forward keeps every operation properly chained. */
  lemma ForwardKeepsChains(operations: seq<Operation>, id: nat, op: Operation)
    requires id < |operations| && AllChained(operations)
    requires op.key == operations[id].key && op.after == operations[id].after
    requires operations[id].status.Settled? ==> op.status.Settled?
    requires op.status.Waiting? ==> operations[id].status.Waiting?
    requires operations[id].status.Waiting? && !op.status.Waiting? ==> Ready(operations, id)
    requires op.cleaned ==> op.status.Settled?
    ensures AllChained(operations[id := op])
  {
    var next := operations[id := op];
    forall i | 0 <= i < |operations|
      ensures Chained(next, i)
    {
      assert Chained(operations, i);
    }
  }

  /** Once an operation has started, every earlier one of its key has settled. */
  lemma {:induction false} EarlierSettled(tails: map<Key, nat>, operations: seq<Operation>, i: nat, j: nat)
    requires QueueInv(tails, operations) && j < |operations| && i < |operations|
    requires operations[i].key == operations[j].key && !operations[i].status.Waiting?
    requires j <= i && (j == i ==> operations[i].status.Settled?)
    ensures operations[j].status.Settled?
    decreases i
  {
    assert Chained(operations, i);
    if j < i && operations[i].after.Some? {
      var p := operations[i].after.value;
      if j != p { EarlierSettled(tails, operations, p, j); }
    }
  }

  /** A new operation is chained to its key's tail and becomes the tail. */
  function Enqueued(tails: map<Key, nat>, operations: seq<Operation>, key: Key): seq<Operation> {
    operations + [Operation(key, if key in tails then Some(tails[key]) else None, Waiting, false)]
  }

  lemma EnqueueKeeps(tails: map<Key, nat>, operations: seq<Operation>, key: Key)
    requires QueueInv(tails, operations)
    ensures QueueInv(tails[key := |operations|], Enqueued(tails, operations, key))
  {
    var next := Enqueued(tails, operations, key);
    forall i | 0 <= i < |next|
      ensures Chained(next, i)
    {
      if i < |operations| {
        assert Chained(operations, i);
      } else if key in tails {
        assert IsTail(operations, key, tails[key]);
      }
    }
  }

  /** Starting and settling keep the queue in order. */
  lemma MoveKeeps(tails: map<Key, nat>, operations: seq<Operation>, id: nat, status: Status)
    requires QueueInv(tails, operations) && id < |operations|
    requires (status.Running? && Ready(operations, id)) || (status.Settled? && operations[id].status.Running?)
    ensures QueueInv(tails, operations[id := operations[id].(status := status)])
  {
    assert Chained(operations, id);
    ForwardKeepsChains(operations, id, operations[id].(status := status));
  }

  /** The tails once operation `id` cleaned up: its entry goes, but not one that has come after it. */
  function CleanedTails(tails: map<Key, nat>, key: Key, id: nat): map<Key, nat> {
    if key in tails && tails[key] == id then tails - {key} else tails
  }

  lemma CleanUpKeeps(tails: map<Key, nat>, operations: seq<Operation>, id: nat)
    requires QueueInv(tails, operations) && id < |operations| && operations[id].status.Settled?
    ensures QueueInv(CleanedTails(tails, operations[id].key, id), operations[id := operations[id].(cleaned := true)])
  {
    var key := operations[id].key;
    if key in tails && tails[key] == id {
      forall j | 0 <= j < |operations| && operations[j].key == key
        ensures operations[j].status.Settled?
      {
        EarlierSettled(tails, operations, id, j);
      }
    }
    ForwardKeepsChains(operations, id, operations[id].(cleaned := true));
  }

  class Queues {
    var tails: map<Key, nat>
    var operations: seq<Operation>

    ghost predicate Valid() reads this { QueueInv(tails, operations) }

    constructor ()
      ensures Valid() && operations == []
    {
      tails, operations := map[], [];
    }

    method Enqueue(key: Key) returns (id: nat)
      requires Valid()
      modifies this
      ensures Valid() && id == |old(operations)|
      ensures operations == old(operations) +
        [Operation(key, if key in old(tails) then Some(old(tails)[key]) else None, Waiting, false)]
      ensures tails == old(tails)[key := id]
    {
      id := |operations|;
      EnqueueKeeps(tails, operations, key);
      var previous := if key in tails then Some(tails[key]) else None;
      operations := operations + [Operation(key, previous, Waiting, false)];
      tails := tails[key := id];
    }

    method Start(id: nat)
      requires Valid() && id < |operations| && Ready(operations, id)
      modifies this`operations
      ensures Valid() && operations == old(operations)[id := old(operations)[id].(status := Running)]
    {
      MoveKeeps(tails, operations, id, Running);
      operations := operations[id := operations[id].(status := Running)];
    }

    method Settle(id: nat, resolved: bool)
      requires Valid() && id < |operations| && operations[id].status.Running?
      modifies this`operations
      ensures Valid() && operations == old(operations)[id := old(operations)[id].(status := Settled(resolved))]
    {
      MoveKeeps(tails, operations, id, Settled(resolved));
      operations := operations[id := operations[id].(status := Settled(resolved))];
    }

    /** The `finally` of an enqueued operation. Later operations of the key keep the key's entry. */
    method CleanUp(id: nat)
      requires Valid() && id < |operations| && operations[id].status.Settled?
      modifies this
      ensures Valid() && operations == old(operations)[id := old(operations)[id].(cleaned := true)]
      ensures var k := operations[id].key;
              tails == if k in old(tails) && old(tails)[k] == id then old(tails) - {k} else old(tails)
    {
      var key := operations[id].key;
      CleanUpKeeps(tails, operations, id);
      if key in tails && tails[key] == id { tails := tails - {key}; }
      operations := operations[id := operations[id].(cleaned := true)];
    }
  }

  /** Operations of one key never overlap, and they start in the order they were enqueued. */
  lemma NeverOverlap(tails: map<Key, nat>, operations: seq<Operation>, i: nat, j: nat)
    requires QueueInv(tails, operations) && j < i < |operations| && operations[i].key == operations[j].key
    requires !operations[i].status.Waiting?
    ensures operations[j].status.Settled?
  {
    EarlierSettled(tails, operations, i, j);
  }

  /** A queue never stalls: the first unsettled operation of a key is running, or ready to start. */
  lemma NeverStalls(tails: map<Key, nat>, operations: seq<Operation>, i: nat)
    requires QueueInv(tails, operations) && i < |operations| && operations[i].status.Waiting?
    requires forall j | 0 <= j < i && operations[j].key == operations[i].key :: operations[j].status.Settled?
    ensures Ready(operations, i)
  {
    assert Chained(operations, i);
  }

  /** A key keeps an entry only while an operation of it has not cleaned up. */
  lemma EntriesAreCleaned(tails: map<Key, nat>, operations: seq<Operation>, k: Key)
    requires QueueInv(tails, operations)
    ensures k in tails ==> exists i :: 0 <= i < |operations| && operations[i].key == k && !operations[i].cleaned
  {
  }
}
