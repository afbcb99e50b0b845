/**
 * Reading a thread's history: starting from the rows without a parent, the recursive query takes one row at a time and
 * adds the rows whose parent it is.
 */
module HistoryQuery {
  import opened Common
  import opened RunHistory

  predicate IsRoot(rows: seq<Row>, thread: ThreadId, i: nat) {
    i < |rows| && rows[i].thread == thread && rows[i].parent.None?
  }

  predicate IsChild(rows: seq<Row>, thread: ThreadId, parent: nat, i: nat) {
    && parent < |rows| && i < |rows| && rows[i].thread == thread && rows[i].parent == Some(rows[parent].run)
  }

  ghost predicate Distinct(s: seq<nat>) { forall i, j | 0 <= i < j < |s| :: s[i] != s[j] }

  /** What the query has come to: rows taken, and rows still to be taken. */
  ghost predicate Walk(rows: seq<Row>, thread: ThreadId, taken: seq<nat>, queue: seq<nat>) {
    && Distinct(taken + queue)
    && (forall i | i in taken + queue :: i < |rows| && rows[i].thread == thread)
    && (forall i | IsRoot(rows, thread, i) :: i in taken + queue)
    && (forall p, i | p in taken && IsChild(rows, thread, p, i) :: i in taken + queue)
    && (forall i | i in taken + queue :: rows[i].parent.Some? ==> exists p | p in taken :: IsChild(rows, thread, p, i))
  }

  /** A row's parent is one row. */
  lemma OneParent(rows: seq<Row>, thread: ThreadId, p: nat, q: nat, i: nat)
    requires RowsOk(rows) && IsChild(rows, thread, p, i) && IsChild(rows, thread, q, i)
    requires rows[p].thread == thread && rows[q].thread == thread
    ensures p == q
  {
  }

  /** The rows without a parent, in order. */
  method Roots(rows: seq<Row>, thread: ThreadId) returns (found: seq<nat>)
    ensures Distinct(found) && forall i: nat :: i in found <==> IsRoot(rows, thread, i)
  {
    found := [];
    for i := 0 to |rows|
      invariant forall k | k in found :: k < i
      invariant Distinct(found) && forall k: nat :: k in found <==> k < i && IsRoot(rows, thread, k)
    {
      if IsRoot(rows, thread, i) { found := found + [i]; }
    }
  }

  method Children(rows: seq<Row>, thread: ThreadId, parent: nat) returns (found: seq<nat>)
    ensures Distinct(found) && forall i: nat :: i in found <==> IsChild(rows, thread, parent, i)
  {
    found := [];
    for i := 0 to |rows|
      invariant forall k | k in found :: k < i
      invariant Distinct(found) && forall k: nat :: k in found <==> k < i && IsChild(rows, thread, parent, k)
    {
      if IsChild(rows, thread, parent, i) { found := found + [i]; }
    }
  }

  /** Distinct numbers below `n` are at most `n`. */
  lemma {:induction false} AtMost(s: seq<nat>, n: nat)
    requires Distinct(s) && forall i | i in s :: i < n
    ensures |s| <= n
  {
    assert s == [] || s[0] in s;
    if n == 0 {
      assert s == [];
    } else if exists k | 0 <= k < |s| :: s[k] == n - 1 {
      var k :| 0 <= k < |s| && s[k] == n - 1;
      var rest := s[..k] + s[k + 1..];
      forall i | i in rest ensures i < n - 1 {
        assert i in s;
      }
      AtMost(rest, n - 1);
    } else {
      AtMost(s, n - 1);
    }
  }

  lemma TakeOne(rows: seq<Row>, thread: ThreadId, taken: seq<nat>, queue: seq<nat>, children: seq<nat>)
    requires RowsOk(rows) && Walk(rows, thread, taken, queue) && queue != []
    requires Distinct(children) && forall i: nat :: i in children <==> IsChild(rows, thread, queue[0], i)
    ensures Walk(rows, thread, taken + [queue[0]], queue[1..] + children)
  {
    var p := queue[0];
    var taken', queue' := taken + [p], queue[1..] + children;
    var before, after := taken + queue, taken' + queue';
    assert after == before + children;
    assert p in before && rows[p].thread == thread;
    forall i | i in children ensures i !in before {
      if i in before {
        var q :| q in taken && IsChild(rows, thread, q, i);
        assert q in before;
        OneParent(rows, thread, p, q, i);
        TakenIsNotHead(taken, queue, q);
        assert false;
      }
    }
    DistinctConcat(before, children);
    forall i | i in after && rows[i].parent.Some? ensures exists q | q in taken' :: IsChild(rows, thread, q, i) {
      if i in before {
        var q :| q in taken && IsChild(rows, thread, q, i);
        assert q in taken';
      } else {
        assert i in children && p in taken';
      }
    }
  }

  lemma DistinctConcat(a: seq<nat>, b: seq<nat>)
    requires Distinct(a) && Distinct(b) && forall i | i in b :: i !in a
    ensures Distinct(a + b)
  {
    var s := a + b;
    forall i, j | 0 <= i < j < |s| ensures s[i] != s[j] {
      if i < |a| <= j { assert s[j] in b && s[i] in a; }
    }
  }

  lemma TakenIsNotHead(taken: seq<nat>, queue: seq<nat>, q: nat)
    requires Distinct(taken + queue) && queue != [] && q in taken
    ensures q != queue[0]
  {
    var k :| 0 <= k < |taken| && taken[k] == q;
    assert (taken + queue)[k] == q && (taken + queue)[|taken|] == queue[0];
  }

  /** When nothing is left to take, every row of the thread was taken: its parent is an earlier row. */
  lemma {:induction false} AllTaken(rows: seq<Row>, thread: ThreadId, taken: seq<nat>, i: nat)
    requires RowsOk(rows) && Walk(rows, thread, taken, []) && i < |rows| && rows[i].thread == thread
    ensures i in taken
    decreases i
  {
    assert taken + [] == taken;
    if rows[i].parent.None? {
      assert IsRoot(rows, thread, i);
    } else {
      assert HasRun(rows[..i], thread, rows[i].parent.value);
      var r :| r in rows[..i] && r.thread == thread && r.run == rows[i].parent.value;
      var p :| 0 <= p < |rows[..i]| && rows[..i][p] == r;
      AllTaken(rows, thread, taken, p);
      assert IsChild(rows, thread, p, i);
    }
  }

  /** The query ends, and gives every row of the thread exactly once and no other row. */
  method HistoricRuns(rows: seq<Row>, thread: ThreadId) returns (taken: seq<nat>)
    requires RowsOk(rows)
    ensures Distinct(taken) && forall i: nat :: i in taken <==> i < |rows| && rows[i].thread == thread
  {
    taken := [];
    var queue := Roots(rows, thread);
    assert [] + queue == queue;
    while queue != []
      invariant Walk(rows, thread, taken, queue)
      decreases |rows| - |taken|
    {
      AtMost(taken + queue, |rows|);
      var children := Children(rows, thread, queue[0]);
      TakeOne(rows, thread, taken, queue, children);
      taken, queue := taken + [queue[0]], queue[1..] + children;
    }
    assert taken + [] == taken;
    forall i | 0 <= i < |rows| && rows[i].thread == thread ensures i in taken {
      AllTaken(rows, thread, taken, i);
    }
  }
}
