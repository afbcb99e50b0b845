/**
 * Exactly when the lock discipline deadlocks, for any hash of the keys.
 *
 * A collision of two keys does no harm by itself. What does is that some transactions can come to hold locks of which
 * each of them asks for one that the next one holds.
 */
module FormulaDeadlock {
  import opened Common
  import opened FormulaLocks

  /** The transactions that take these plans, none of them begun. */
  function Fresh(plans: seq<seq<Key>>): seq<Transaction> {
    seq(|plans|, i requires 0 <= i < |plans| => Transaction(plans[i], 0, false))
  }

  /** The same, each having taken as many of its locks. */
  function At(plans: seq<seq<Key>>, taken: seq<nat>): seq<Transaction>
    requires |taken| == |plans|
  {
    seq(|plans|, i requires 0 <= i < |plans| => Transaction(plans[i], taken[i], false))
  }

  ghost predicate Positions(plans: seq<seq<Key>>, taken: seq<nat>) {
    |taken| == |plans| && forall i | 0 <= i < |plans| :: taken[i] <= |plans[i]|
  }

  /** One of the first `n` locks of the plan hashes to `h`. */
  predicate Takes(hash: Key -> int, plan: seq<Key>, n: nat, h: int)
    requires n <= |plan|
  {
    exists i | 0 <= i < n :: hash(plan[i]) == h
  }

  /** The first `m` locks of one plan and the first `n` of another have no hash in common. */
  ghost predicate Disjoint(hash: Key -> int, p: seq<Key>, m: nat, q: seq<Key>, n: nat)
    requires m <= |p| && n <= |q|
  {
    forall h :: !(Takes(hash, p, m, h) && Takes(hash, q, n, h))
  }

  /** No lock is held by two of them. */
  ghost predicate Compatible(hash: Key -> int, plans: seq<seq<Key>>, taken: seq<nat>)
    requires Positions(plans, taken)
  {
    forall i, j | 0 <= i < |plans| && 0 <= j < |plans| && i != j ::
      Disjoint(hash, plans[i], taken[i], plans[j], taken[j])
  }

  // ---- What can be reached ---------------------------------------------------------------------------------------

  /** No lock is held by two transactions. */
  ghost predicate Exclusive(hash: Key -> int, ts: seq<Transaction>) {
    forall i, j, h | 0 <= i < |ts| && 0 <= j < |ts| && i != j :: !(Holds(hash, ts[i], h) && Holds(hash, ts[j], h))
  }

  lemma StepExclusive(hash: Key -> int, ts: seq<Transaction>, p: nat)
    requires Exclusive(hash, ts) && CanStep(hash, ts, p)
    ensures Exclusive(hash, Step(ts, p))
  {
    var next, t := Step(ts, p), ts[p];
    forall i, j, h | 0 <= i < |ts| && 0 <= j < |ts| && i != j
      ensures !(Holds(hash, next[i], h) && Holds(hash, next[j], h))
    {
      assert !(Holds(hash, ts[i], h) && Holds(hash, ts[j], h));
      assert !WaitsFor(hash, ts, p, i) && !WaitsFor(hash, ts, p, j);
      StepHolds(hash, t, h);
    }
  }

  lemma StepHolds(hash: Key -> int, t: Transaction, h: int)
    requires !t.ended
    ensures t.taken < |t.plan| && Holds(hash, t.(taken := t.taken + 1), h) ==>
              Holds(hash, t, h) || hash(t.plan[t.taken]) == h
  {
  }

  lemma {:induction false} RunExclusive(hash: Key -> int, ts: seq<Transaction>, schedule: seq<nat>)
    requires Exclusive(hash, ts) && Feasible(hash, ts, schedule)
    ensures Exclusive(hash, Run(ts, schedule)) && |Run(ts, schedule)| == |ts|
    ensures forall i | 0 <= i < |ts| :: Run(ts, schedule)[i].plan == ts[i].plan
    decreases |schedule|
  {
    if schedule != [] {
      StepExclusive(hash, ts, schedule[0]);
      RunExclusive(hash, Step(ts, schedule[0]), schedule[1..]);
    }
  }

  lemma {:induction false} RunThenStep(hash: Key -> int, ts: seq<Transaction>, schedule: seq<nat>, p: nat)
    requires Feasible(hash, ts, schedule) && CanStep(hash, Run(ts, schedule), p)
    ensures Feasible(hash, ts, schedule + [p]) && Run(ts, schedule + [p]) == Step(Run(ts, schedule), p)
    decreases |schedule|
  {
    if schedule == [] {
      assert schedule + [p] == [p] && [p][1..] == [];
    } else {
      assert (schedule + [p])[1..] == schedule[1..] + [p];
      RunThenStep(hash, Step(ts, schedule[0]), schedule[1..], p);
    }
  }

  function Sum(taken: seq<nat>): nat { if taken == [] then 0 else taken[0] + Sum(taken[1..]) }

  lemma {:induction false} SumLess(taken: seq<nat>, p: nat)
    requires p < |taken| && taken[p] > 0
    ensures Sum(taken[p := taken[p] - 1]) < Sum(taken)
  {
    var less := taken[p := taken[p] - 1];
    if p == 0 {
      assert less[1..] == taken[1..];
    } else {
      assert less[1..] == taken[1..][p - 1 := taken[p] - 1];
      SumLess(taken[1..], p - 1);
    }
  }

  lemma FewerAreCompatible(hash: Key -> int, plans: seq<seq<Key>>, taken: seq<nat>, p: nat)
    requires Positions(plans, taken) && Compatible(hash, plans, taken) && p < |taken| && taken[p] > 0
    ensures var less := taken[p := taken[p] - 1]; Positions(plans, less) && Compatible(hash, plans, less)
  {
    var less := taken[p := taken[p] - 1];
    forall i, j, h | 0 <= i < |plans| && 0 <= j < |plans| && i != j
      ensures !(Takes(hash, plans[i], less[i], h) && Takes(hash, plans[j], less[j], h))
    {
      assert Disjoint(hash, plans[i], taken[i], plans[j], taken[j]);
      if Takes(hash, plans[i], less[i], h) { assert Takes(hash, plans[i], taken[i], h); }
      if Takes(hash, plans[j], less[j], h) { assert Takes(hash, plans[j], taken[j], h); }
    }
  }

  /** Any positions at which no lock is held twice can be reached: nobody is in the way of taking them one by one. */
  lemma {:induction false} ReachPositions(hash: Key -> int, plans: seq<seq<Key>>, taken: seq<nat>)
    returns (schedule: seq<nat>)
    requires Positions(plans, taken) && Compatible(hash, plans, taken)
    ensures Feasible(hash, Fresh(plans), schedule) && Run(Fresh(plans), schedule) == At(plans, taken)
    decreases Sum(taken)
  {
    if p :| 0 <= p < |taken| && taken[p] > 0 {
      var less := taken[p := taken[p] - 1];
      SumLess(taken, p);
      FewerAreCompatible(hash, plans, taken, p);
      var before := ReachPositions(hash, plans, less);
      NotBlocked(hash, plans, taken, p);
      RunThenStep(hash, Fresh(plans), before, p);
      assert Step(At(plans, less), p) == At(plans, taken);
      schedule := before + [p];
    } else {
      schedule := [];
      assert At(plans, taken) == Fresh(plans);
    }
  }

  lemma NotBlocked(hash: Key -> int, plans: seq<seq<Key>>, taken: seq<nat>, p: nat)
    requires Positions(plans, taken) && Compatible(hash, plans, taken) && p < |taken| && taken[p] > 0
    ensures CanStep(hash, At(plans, taken[p := taken[p] - 1]), p)
  {
    var ts, h := At(plans, taken[p := taken[p] - 1]), hash(plans[p][taken[p] - 1]);
    assert Takes(hash, plans[p], taken[p], h);
    forall q | 0 <= q < |ts| ensures !WaitsFor(hash, ts, p, q) {
      if q != p { assert Disjoint(hash, plans[p], taken[p], plans[q], taken[q]); }
    }
  }

  // ---- Deadlock --------------------------------------------------------------------------------------------------

  /** Begun together, transactions with these plans can come to wait for each other in a cycle. */
  ghost predicate CanDeadlock(hash: Key -> int, plans: seq<seq<Key>>) {
    exists schedule: seq<nat>, cycle: seq<nat> ::
      Feasible(hash, Fresh(plans), schedule) && IsCycle(hash, Run(Fresh(plans), schedule), cycle)
  }

  /** There are places in these plans at which no lock is held twice and the next locks close a cycle. */
  ghost predicate Entangled(hash: Key -> int, plans: seq<seq<Key>>) {
    exists taken: seq<nat>, cycle: seq<nat> ::
      Positions(plans, taken) && Compatible(hash, plans, taken) && IsCycle(hash, At(plans, taken), cycle)
  }

  /** Where transactions stand that have not ended; those that have hold nothing, as if they had not begun. */
  function TakenBy(ts: seq<Transaction>): seq<nat> {
    seq(|ts|, i requires 0 <= i < |ts| => if ts[i].ended || ts[i].taken > |ts[i].plan| then 0 else ts[i].taken)
  }

  lemma SameHolds(hash: Key -> int, ts: seq<Transaction>, plans: seq<seq<Key>>, i: nat, h: int)
    requires |ts| == |plans| && i < |ts| && ts[i].plan == plans[i]
    ensures Positions(plans, TakenBy(ts)) ==>
              (Takes(hash, plans[i], TakenBy(ts)[i], h) <==> Holds(hash, ts[i], h))
              && (Holds(hash, At(plans, TakenBy(ts))[i], h) <==> Holds(hash, ts[i], h))
  {
  }

  lemma CycleAtPositions(hash: Key -> int, ts: seq<Transaction>, plans: seq<seq<Key>>, cycle: seq<nat>)
    requires |ts| == |plans| && forall i | 0 <= i < |ts| :: ts[i].plan == plans[i]
    requires Exclusive(hash, ts) && IsCycle(hash, ts, cycle)
    ensures Entangled(hash, plans)
  {
    var taken := TakenBy(ts);
    assert Positions(plans, taken);
    var at := At(plans, taken);
    forall i, j, h | 0 <= i < |plans| && 0 <= j < |plans| && i != j
      ensures !(Takes(hash, plans[i], taken[i], h) && Takes(hash, plans[j], taken[j], h))
    {
      SameHolds(hash, ts, plans, i, h);
      SameHolds(hash, ts, plans, j, h);
    }
    forall p, q | 0 <= p < |ts| && 0 <= q < |ts| && WaitsFor(hash, ts, p, q) ensures WaitsFor(hash, at, p, q) {
      SameHolds(hash, ts, plans, q, hash(ts[p].plan[ts[p].taken]));
    }
    assert IsCycle(hash, at, cycle);
  }

  lemma FreshIsExclusive(hash: Key -> int, plans: seq<seq<Key>>)
    ensures Exclusive(hash, Fresh(plans))
  {
  }

  /** A set of transactions can deadlock if and only if their plans are entangled, whatever the hash. */
  lemma DeadlockIff(hash: Key -> int, plans: seq<seq<Key>>)
    ensures CanDeadlock(hash, plans) <==> Entangled(hash, plans)
  {
    if CanDeadlock(hash, plans) {
      var schedule: seq<nat>, cycle: seq<nat> :|
        Feasible(hash, Fresh(plans), schedule) && IsCycle(hash, Run(Fresh(plans), schedule), cycle);
      FreshIsExclusive(hash, plans);
      RunExclusive(hash, Fresh(plans), schedule);
      CycleAtPositions(hash, Run(Fresh(plans), schedule), plans, cycle);
    }
    if Entangled(hash, plans) {
      var taken: seq<nat>, cycle: seq<nat> :|
        Positions(plans, taken) && Compatible(hash, plans, taken) && IsCycle(hash, At(plans, taken), cycle);
      var schedule := ReachPositions(hash, plans, taken);
      assert IsCycle(hash, Run(Fresh(plans), schedule), cycle);
    }
  }

  /** Steps in ascending order whose keys all hash differently are not entangled, however many there are. */
  lemma NoCollisionNoDeadlock(hash: Key -> int, plans: seq<seq<Key>>)
    requires forall i | 0 <= i < |plans| :: Ordered(plans[i])
    requires NoCollision(hash, Fresh(plans))
    ensures !CanDeadlock(hash, plans)
  {
    DeadlockIff(hash, plans);
    forall taken: seq<nat>, cycle: seq<nat> | Positions(plans, taken) ensures !IsCycle(hash, At(plans, taken), cycle) {
      var at := At(plans, taken);
      forall k | Planned(at, k) ensures Planned(Fresh(plans), k) {
        var t :| t in at && k in t.plan;
        var i :| 0 <= i < |at| && at[i] == t;
        assert Fresh(plans)[i] in Fresh(plans);
      }
      NoWaitCycle(hash, at, cycle);
    }
  }

  // ---- Two transactions ------------------------------------------------------------------------------------------

  /**
   * The plans take two locks in opposite orders, the one at `i` in `p` and the one at `j` in `q`, and no lock that both
   * of them take before keeps them apart.
   */
  ghost predicate CrossAt(hash: Key -> int, p: seq<Key>, q: seq<Key>, i: nat, j: nat) {
    && i < |p| && j < |q| && Disjoint(hash, p, i, q, j)
    && Takes(hash, q, j, hash(p[i])) && Takes(hash, p, i, hash(q[j]))
  }

  ghost predicate Cross(hash: Key -> int, p: seq<Key>, q: seq<Key>) { exists i, j :: CrossAt(hash, p, q, i, j) }

  lemma CrossEntangles(hash: Key -> int, p: seq<Key>, q: seq<Key>, i: nat, j: nat)
    requires CrossAt(hash, p, q, i, j)
    ensures Entangled(hash, [p, q])
  {
    var plans, taken := [p, q], [i, j];
    forall h ensures !(Takes(hash, q, j, h) && Takes(hash, p, i, h)) {
      assert !(Takes(hash, p, i, h) && Takes(hash, q, j, h));
    }
    assert Compatible(hash, plans, taken);
    var at := At(plans, taken);
    assert WaitsFor(hash, at, 0, 1) && WaitsFor(hash, at, 1, 0);
    assert IsCycle(hash, at, [0, 1]);
  }

  lemma EntangledCross(hash: Key -> int, p: seq<Key>, q: seq<Key>, taken: seq<nat>, cycle: seq<nat>)
    requires Positions([p, q], taken) && Compatible(hash, [p, q], taken) && IsCycle(hash, At([p, q], taken), cycle)
    ensures CrossAt(hash, p, q, taken[0], taken[1])
  {
    var at := At([p, q], taken);
    var x, y := cycle[0], if |cycle| == 1 then cycle[0] else cycle[1];
    assert WaitsFor(hash, at, x, y);
    var z := if |cycle| <= 2 then cycle[0] else cycle[2];
    assert WaitsFor(hash, at, y, z);
    assert WaitsFor(hash, at, 0, 1) && WaitsFor(hash, at, 1, 0);
    assert Disjoint(hash, [p, q][0], taken[0], [p, q][1], taken[1]);
  }

  /** Two transactions can deadlock if and only if they cross: both must take a pair of locks, in opposite orders. */
  lemma PairDeadlockIff(hash: Key -> int, p: seq<Key>, q: seq<Key>)
    ensures CanDeadlock(hash, [p, q]) <==> Cross(hash, p, q)
  {
    DeadlockIff(hash, [p, q]);
    if Cross(hash, p, q) {
      var i, j :| CrossAt(hash, p, q, i, j);
      CrossEntangles(hash, p, q, i, j);
    }
    if Entangled(hash, [p, q]) {
      var taken: seq<nat>, cycle: seq<nat> :|
        Positions([p, q], taken) && Compatible(hash, [p, q], taken) && IsCycle(hash, At([p, q], taken), cycle);
      EntangledCross(hash, p, q, taken, cycle);
    }
  }

  /** A collision of the first locks does no harm: whoever comes second waits before it holds anything. */
  lemma GateKeepsApart(hash: Key -> int, p: seq<Key>, q: seq<Key>)
    requires p != [] && q != [] && hash(p[0]) == hash(q[0])
    ensures !CanDeadlock(hash, [p, q])
  {
    PairDeadlockIff(hash, p, q);
    forall i: nat, j: nat ensures !CrossAt(hash, p, q, i, j) {
      if i > 0 && j > 0 && i < |p| && j < |q| {
        assert Takes(hash, p, i, hash(p[0])) && Takes(hash, q, j, hash(p[0]));
      }
    }
  }

  lemma PlanOfOne(o: nat)
    ensures Plan([o]) == LockKeys(o)
  {
    assert [o][1..] == [];
    assert LockKeys(o) + Plan([]) == LockKeys(o);
  }

  /**
   * When the first key of one organisation collides with the second of a later one, a step over both and one over the
   * later can deadlock, unless the first keys collide as well.
   */
  lemma CollisionDeadlocksIff(hash: Key -> int, a: nat, b: nat)
    requires a < b && hash(Key(a, ProductMapping)) == hash(Key(b, MasterProductAbc))
    ensures CanDeadlock(hash, [Plan([a, b]), Plan([b])])
            <==> hash(Key(b, ProductMapping)) != hash(Key(a, ProductMapping))
  {
    var p, q := Plan([a, b]), Plan([b]);
    PlanOfOne(b);
    assert [a, b][1..] == [b];
    assert p == LockKeys(a) + q;
    if hash(Key(b, ProductMapping)) == hash(Key(a, ProductMapping)) {
      GateKeepsApart(hash, p, q);
    } else {
      PairDeadlockIff(hash, p, q);
      var i := if hash(Key(b, ProductMapping)) == hash(Key(a, MasterProductAbc)) then 1 else 2;
      assert hash(q[0]) == hash(p[i]) && hash(p[0]) == hash(q[1]);
      assert CrossAt(hash, p, q, i, 1);
    }
  }
}
