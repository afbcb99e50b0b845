/**
 * The advisory locks of the formula steps: for each organisation its product-mapping lock and then its ABC lock,
 * organisations in ascending order, all held to the end of the transaction.
 *
 * Any number of transactions run at once. The database locks hashes of the keys, so the discipline is worth as much as
 * the hash: with no collision among their keys no wait cycle is possible, and with one there can be.
 */
module FormulaLocks {
  import opened Common

  datatype Kind = ProductMapping | MasterProductAbc

  datatype Key = Key(organization: nat, kind: Kind)

  function LockKeys(organization: nat): seq<Key> {
    [Key(organization, ProductMapping), Key(organization, MasterProductAbc)]
  }

  /** The locks of a step over some organisations, in the order it takes them. */
  function Plan(organizations: seq<nat>): seq<Key> {
    if organizations == [] then [] else LockKeys(organizations[0]) + Plan(organizations[1..])
  }

  ghost predicate Ascending(organizations: seq<nat>) {
    forall i, j | 0 <= i < j < |organizations| :: organizations[i] < organizations[j]
  }

  /** Where a key stands in the order every transaction follows. */
  function Rank(k: Key): nat { 2 * k.organization + (if k.kind.ProductMapping? then 0 else 1) }

  ghost predicate Ordered(plan: seq<Key>) { forall i, j | 0 <= i < j < |plan| :: Rank(plan[i]) < Rank(plan[j]) }

  lemma {:induction false} PlanIsOrdered(organizations: seq<nat>)
    requires Ascending(organizations)
    ensures Ordered(Plan(organizations))
    ensures forall k | k in Plan(organizations) :: k.organization in organizations
  {
    if organizations != [] {
      var o, rest := organizations[0], Plan(organizations[1..]);
      PlanIsOrdered(organizations[1..]);
      forall k | k in rest ensures o < k.organization && k.organization in organizations {
        assert k.organization in organizations[1..];
      }
      OrderedAfter(o, rest);
    }
  }

  lemma OrderedAfter(o: nat, rest: seq<Key>)
    requires Ordered(rest) && forall k | k in rest :: o < k.organization
    ensures Ordered(LockKeys(o) + rest)
  {
  }

  // ---- Transactions at once --------------------------------------------------------------------------------------

  /** A transaction, with how many of its locks it has taken. */
  datatype Transaction = Transaction(plan: seq<Key>, taken: nat, ended: bool)

  ghost predicate Valid(t: Transaction) { t.taken <= |t.plan| && Ordered(t.plan) }

  ghost predicate AllValid(ts: seq<Transaction>) { forall i | 0 <= i < |ts| :: Valid(ts[i]) }

  predicate Holds(hash: Key -> int, t: Transaction, h: int) {
    !t.ended && t.taken <= |t.plan| && exists i | 0 <= i < t.taken :: hash(t.plan[i]) == h
  }

  /** `p` waits for `q`: it asks for a lock that `q` holds. A transaction never waits for itself. */
  predicate WaitsFor(hash: Key -> int, ts: seq<Transaction>, p: nat, q: nat)
    requires p < |ts| && q < |ts|
  {
    p != q && !ts[p].ended && ts[p].taken < |ts[p].plan| && Holds(hash, ts[q], hash(ts[p].plan[ts[p].taken]))
  }

  ghost predicate Planned(ts: seq<Transaction>, k: Key) { exists t | t in ts :: k in t.plan }

  /** No two different keys of these transactions have the same hash. */
  ghost predicate NoCollision(hash: Key -> int, ts: seq<Transaction>) {
    forall a, b | Planned(ts, a) && Planned(ts, b) && hash(a) == hash(b) :: a == b
  }

  /** What a waiting transaction asks for comes before whatever the one it waits for asks for. */
  lemma WaitingClimbs(hash: Key -> int, ts: seq<Transaction>, p: nat, q: nat)
    requires NoCollision(hash, ts) && AllValid(ts) && p < |ts| && q < |ts| && WaitsFor(hash, ts, p, q)
    requires ts[q].taken < |ts[q].plan|
    ensures Rank(ts[p].plan[ts[p].taken]) < Rank(ts[q].plan[ts[q].taken])
  {
    var k := ts[p].plan[ts[p].taken];
    var i :| 0 <= i < ts[q].taken && hash(ts[q].plan[i]) == hash(k);
    assert ts[p] in ts && k in ts[p].plan && ts[q] in ts && ts[q].plan[i] in ts[q].plan;
    assert Planned(ts, k) && Planned(ts, ts[q].plan[i]);
  }

  ghost predicate IsCycle(hash: Key -> int, ts: seq<Transaction>, cycle: seq<nat>) {
    && cycle != [] && (forall i | 0 <= i < |cycle| :: cycle[i] < |ts|)
    && (forall i | 0 <= i < |cycle| - 1 :: WaitsFor(hash, ts, cycle[i], cycle[i + 1]))
    && WaitsFor(hash, ts, cycle[|cycle| - 1], cycle[0])
  }

  lemma {:induction false} ChainClimbs(hash: Key -> int, ts: seq<Transaction>, cycle: seq<nat>, n: nat)
    requires NoCollision(hash, ts) && AllValid(ts) && IsCycle(hash, ts, cycle) && n < |cycle|
    ensures ts[cycle[0]].taken < |ts[cycle[0]].plan| && ts[cycle[n]].taken < |ts[cycle[n]].plan|
    ensures Rank(ts[cycle[0]].plan[ts[cycle[0]].taken]) <= Rank(ts[cycle[n]].plan[ts[cycle[n]].taken])
  {
    if n < |cycle| - 1 { assert WaitsFor(hash, ts, cycle[n], cycle[n + 1]); }
    if n > 0 {
      ChainClimbs(hash, ts, cycle, n - 1);
      assert WaitsFor(hash, ts, cycle[n - 1], cycle[n]);
      WaitingClimbs(hash, ts, cycle[n - 1], cycle[n]);
    }
  }

  /** Without hash collisions no transactions, however many and wherever they are, wait for each other in a cycle. */
  lemma NoWaitCycle(hash: Key -> int, ts: seq<Transaction>, cycle: seq<nat>)
    requires NoCollision(hash, ts) && AllValid(ts)
    ensures !IsCycle(hash, ts, cycle)
  {
    if IsCycle(hash, ts, cycle) {
      ChainClimbs(hash, ts, cycle, |cycle| - 1);
      WaitingClimbs(hash, ts, cycle[|cycle| - 1], cycle[0]);
      assert false;
    }
  }

  predicate Blocked(hash: Key -> int, ts: seq<Transaction>, p: nat)
    requires p < |ts|
  {
    exists q | 0 <= q < |ts| :: WaitsFor(hash, ts, p, q)
  }

  /** A step of one transaction: it takes its next lock, or ends when it has them all. */
  function Step(ts: seq<Transaction>, p: nat): seq<Transaction>
    requires p < |ts|
  {
    var t := ts[p];
    ts[p := if t.taken < |t.plan| then t.(taken := t.taken + 1) else t.(ended := true)]
  }

  predicate CanStep(hash: Key -> int, ts: seq<Transaction>, p: nat) {
    p < |ts| && !ts[p].ended && !Blocked(hash, ts, p)
  }

  /** The whole order is bounded by some rank. */
  ghost predicate Below(ts: seq<Transaction>, bound: nat) {
    forall i, j | 0 <= i < |ts| && 0 <= j < |ts[i].plan| :: Rank(ts[i].plan[j]) < bound
  }

  lemma {:induction false} PlanBound(plan: seq<Key>) returns (bound: nat)
    ensures forall j | 0 <= j < |plan| :: Rank(plan[j]) < bound
  {
    bound := 0;
    if plan != [] {
      var rest := PlanBound(plan[1..]);
      bound := Max(rest, Rank(plan[0]) + 1);
      forall j | 0 <= j < |plan| ensures Rank(plan[j]) < bound {
        if j > 0 { assert plan[j] == plan[1..][j - 1]; }
      }
    }
  }

  lemma {:induction false} SomeBound(ts: seq<Transaction>) returns (bound: nat)
    ensures Below(ts, bound)
  {
    bound := 0;
    if ts != [] {
      var first := PlanBound(ts[0].plan);
      var rest := SomeBound(ts[1..]);
      bound := Max(first, rest);
      forall i, j | 0 <= i < |ts| && 0 <= j < |ts[i].plan| ensures Rank(ts[i].plan[j]) < bound {
        if i > 0 { assert ts[i] == ts[1..][i - 1]; }
      }
    }
  }

  lemma {:induction false} FollowWaiting(hash: Key -> int, ts: seq<Transaction>, p: nat, bound: nat) returns (q: nat)
    requires NoCollision(hash, ts) && AllValid(ts) && Below(ts, bound) && p < |ts| && !ts[p].ended
    ensures CanStep(hash, ts, q)
    decreases if ts[p].taken < |ts[p].plan| then bound - Rank(ts[p].plan[ts[p].taken]) else 0
  {
    q := p;
    if Blocked(hash, ts, p) {
      var next :| 0 <= next < |ts| && WaitsFor(hash, ts, p, next);
      if ts[next].taken < |ts[next].plan| {
        WaitingClimbs(hash, ts, p, next);
        q := FollowWaiting(hash, ts, next, bound);
      } else {
        q := next;
      }
    }
  }

  /** Whenever a transaction has not ended, one of them can go on: following who waits for whom leads to it. */
  lemma SomeoneMoves(hash: Key -> int, ts: seq<Transaction>, p: nat) returns (q: nat)
    requires NoCollision(hash, ts) && AllValid(ts) && p < |ts| && !ts[p].ended
    ensures CanStep(hash, ts, q)
  {
    var bound := SomeBound(ts);
    q := FollowWaiting(hash, ts, p, bound);
  }

  function Remaining(ts: seq<Transaction>): int {
    if ts == [] then 0
    else
      var t := ts[|ts| - 1];
      Remaining(ts[..|ts| - 1]) + (if t.ended then 0 else 1 + Max(0, |t.plan| - t.taken))
  }

  lemma {:induction false} StepsRemain(ts: seq<Transaction>, p: nat)
    requires p < |ts| && !ts[p].ended
    ensures 0 <= Remaining(Step(ts, p)) < Remaining(ts)
  {
    var n := |ts| - 1;
    if p == n {
      assert Step(ts, p)[..n] == ts[..n];
      RemainingIsNat(ts[..n]);
    } else {
      assert Step(ts, p)[..n] == Step(ts[..n], p);
      StepsRemain(ts[..n], p);
    }
  }

  lemma {:induction false} RemainingIsNat(ts: seq<Transaction>)
    ensures 0 <= Remaining(ts)
  {
    if ts != [] { RemainingIsNat(ts[..|ts| - 1]); }
  }

  function Run(ts: seq<Transaction>, schedule: seq<nat>): seq<Transaction>
    decreases |schedule|
  {
    if schedule == [] || schedule[0] >= |ts| then ts else Run(Step(ts, schedule[0]), schedule[1..])
  }

  /** Every step of the schedule is one its transaction can take when it comes. */
  predicate Feasible(hash: Key -> int, ts: seq<Transaction>, schedule: seq<nat>)
    decreases |schedule|
  {
    schedule == [] || (CanStep(hash, ts, schedule[0]) && Feasible(hash, Step(ts, schedule[0]), schedule[1..]))
  }

  lemma SamePlans(ts: seq<Transaction>, p: nat)
    requires p < |ts|
    ensures forall k :: Planned(Step(ts, p), k) ==> Planned(ts, k)
  {
    forall k | Planned(Step(ts, p), k) ensures Planned(ts, k) {
      var t :| t in Step(ts, p) && k in t.plan;
      var i :| 0 <= i < |ts| && Step(ts, p)[i] == t;
      assert ts[i] in ts && ts[i].plan == t.plan;
    }
  }

  /** From wherever they are, the transactions can all be run to their ends, without any of them being aborted. */
  lemma {:induction false} AllCanEnd(hash: Key -> int, ts: seq<Transaction>) returns (schedule: seq<nat>)
    requires NoCollision(hash, ts) && AllValid(ts)
    ensures Feasible(hash, ts, schedule)
    ensures forall i | 0 <= i < |Run(ts, schedule)| :: Run(ts, schedule)[i].ended
    decreases Remaining(ts)
  {
    schedule := [];
    if exists p | 0 <= p < |ts| :: !ts[p].ended {
      var p :| 0 <= p < |ts| && !ts[p].ended;
      var q := SomeoneMoves(hash, ts, p);
      StepsRemain(ts, q);
      SamePlans(ts, q);
      var rest := AllCanEnd(hash, Step(ts, q));
      schedule := [q] + rest;
      assert schedule[1..] == rest;
    }
  }

  // ---- What the hash is needed for -------------------------------------------------------------------------------

  /**
   * If the first key of one organisation and the second of a later one collide, two transactions that both follow the
   * order can come to wait for each other: one over both organisations, and one over the later one.
   */
  lemma CollisionCanDeadlock(hash: Key -> int, a: nat, b: nat)
    requires a < b && hash(Key(a, ProductMapping)) == hash(Key(b, MasterProductAbc))
    requires hash(Key(b, ProductMapping)) !in {hash(Key(a, ProductMapping)), hash(Key(a, MasterProductAbc))}
    ensures var start := [Transaction(Plan([a, b]), 0, false), Transaction(Plan([b]), 0, false)];
            AllValid(start) && Feasible(hash, start, [0, 0, 1]) && IsCycle(hash, Run(start, [0, 0, 1]), [0, 1])
  {
  }
}
