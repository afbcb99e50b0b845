/** What one migration's run answers and what it leaves in its row, for every fate of its statements. */
module LedgerEffects {
  import opened Common
  import opened Ledger

  // ---- The statements of one run, in order -----------------------------------------------------------------------

  /** The row is read, marked as running, the transaction runs, and the row is marked as succeeded. */
  predicate Marks(db: Db, id: Id, f: Fates) { f.read.Done? && !SucceededIn(db, id) }

  predicate Transacts(db: Db, id: Id, f: Fates) { Marks(db, id, f) && f.running.Done? }

  predicate Succeeds(db: Db, id: Id, f: Fates) { Transacts(db, id, f) && f.transaction.Done? }

  /** The run throws inside its `try`, with the process alive: then the row is marked as failed. */
  predicate Fails(db: Db, id: Id, f: Fates) {
    || (Transacts(db, id, f) && f.transaction in {Lost, AckLost})
    || (Succeeds(db, id, f) && f.succeeded in {Lost, AckLost})
  }

  /** The process dies at a statement that it gets to. */
  predicate DiesIn(db: Db, id: Id, f: Fates) {
    || Kills(f.read)
    || (Marks(db, id, f) && Kills(f.running))
    || (Transacts(db, id, f) && Kills(f.transaction))
    || (Succeeds(db, id, f) && Kills(f.succeeded))
    || (Fails(db, id, f) && Kills(f.failed))
  }

  predicate Kills(f: Fate) { f in {DiesBefore, DiesAfter} }

  /** The statement is carried out, whether or not the process learns of it. */
  predicate Lands(f: Fate) { f in {Done, AckLost, DiesAfter} }

  /** What the caller of one run learns: nothing if the process dies, and an error unless each statement is answered. */
  lemma ApplyAnswers(db: Db, id: Id, source: Hash, git: nat, f: Fates)
    ensures var outcome := Apply(db, id, source, git, f).1;
            && (outcome.Died? <==> DiesIn(db, id, f))
            && (outcome.Skipped? <==> f.read.Done? && SucceededIn(db, id))
            && (outcome.Skipped? ==> outcome.affected == db.rows[id].affected)
            && (outcome.Applied? <==> Succeeds(db, id, f) && f.succeeded.Done?)
            && (outcome.Applied? ==> outcome.affected == f.affected)
  {
  }

  /**
   * The row of a run that gets to its first mark and has it carried out: the source and the commit are recorded, it
   * counts the rows changed if it was marked as succeeded, and it is failed, succeeded or still running, by the last of
   * its marks that is carried out. Otherwise the row is as it was.
   */
  lemma ApplyLeaves(db: Db, id: Id, source: Hash, git: nat, f: Fates)
    ensures var next := Apply(db, id, source, git, f).0;
            var succeeds, fails := Succeeds(db, id, f) && Lands(f.succeeded), Fails(db, id, f) && Lands(f.failed);
            if Marks(db, id, f) && Lands(f.running) then
              && id in next.rows
              && next.rows[id] == Row(if fails then Failed else if succeeds then Succeeded else Running,
                                      if succeeds then f.affected else 0, Some(git), Some(source))
            else
              (id in next.rows <==> id in db.rows) && (id in db.rows ==> next.rows[id] == db.rows[id])
  {
  }

  // ---- A whole `up` ----------------------------------------------------------------------------------------------

  /** The database when the run at place `k` of the selection begins, if the command gets there. */
  function Before(db: Db, c: Call, k: nat): Db
    requires CallOk(c) && k <= |c.ids|
  {
    if k == 0 then db
    else Apply(Before(db, c, k - 1), c.ids[k - 1], c.current[c.ids[k - 1]], c.git, c.fates[k - 1]).0
  }

  /** What that run answers. */
  function AnswerAt(db: Db, c: Call, k: nat): Outcome
    requires CallOk(c) && k < |c.ids|
  {
    Apply(Before(db, c, k), c.ids[k], c.current[c.ids[k]], c.git, c.fates[k]).1
  }

  predicate GoesOn(outcome: Outcome) { outcome.Skipped? || outcome.Applied? }

  function Rest(c: Call): Call
    requires CallOk(c) && c.ids != []
  {
    c.(ids := c.ids[1..], fates := c.fates[1..])
  }

  lemma {:induction false} BeforeLater(db: Db, c: Call, k: nat)
    requires CallOk(c) && 0 < k <= |c.ids|
    ensures Before(db, c, k) == Before(Before(db, c, 1), Rest(c), k - 1)
    ensures k < |c.ids| ==> AnswerAt(db, c, k) == AnswerAt(Before(db, c, 1), Rest(c), k - 1)
  {
    if k > 1 { BeforeLater(db, c, k - 1); }
  }

  /** Each result is the answer of its migration's run. */
  ghost predicate Answers(db: Db, c: Call, results: seq<Outcome>)
    requires CallOk(c)
  {
    |results| <= |c.ids| && forall k | 0 <= k < |results| :: results[k] == AnswerAt(db, c, k) && GoesOn(results[k])
  }

  /** The command ends with the run at place `n`, the first that gives no result, or after the last one. */
  ghost predicate EndsAt(db: Db, c: Call, n: nat, next: Db, ending: Ending)
    requires CallOk(c) && n <= |c.ids|
  {
    if n == |c.ids| then next == Before(db, c, n) && ending.Completed?
    else
      && next == Before(db, c, n + 1)
      && if AnswerAt(db, c, n).Died? then ending.Crashed? else AnswerAt(db, c, n).Threw? && ending.Aborted?
  }

  ghost predicate Ran(db: Db, c: Call, up: UpResult)
    requires CallOk(c)
  {
    Answers(db, c, up.results) && EndsAt(db, c, |up.results|, up.db, up.ending)
  }

  lemma {:induction false} ApplyAllRuns(db: Db, c: Call)
    requires CallOk(c)
    ensures Ran(db, c, ApplyAll(db, c.ids, c.current, c.git, c.fates))
    decreases |c.ids|
  {
    if c.ids != [] {
      var (next, outcome) := Apply(db, c.ids[0], c.current[c.ids[0]], c.git, c.fates[0]);
      assert Before(db, c, 0) == db && Before(db, c, 1) == next && AnswerAt(db, c, 0) == outcome;
      if GoesOn(outcome) {
        ApplyAllRuns(next, Rest(c));
        RanLater(db, c, ApplyAll(next, c.ids[1..], c.current, c.git, c.fates[1..]));
      }
    }
  }

  lemma AnswersLater(db: Db, c: Call, results: seq<Outcome>)
    requires CallOk(c) && c.ids != [] && GoesOn(AnswerAt(db, c, 0)) && Answers(Before(db, c, 1), Rest(c), results)
    ensures Answers(db, c, [AnswerAt(db, c, 0)] + results)
  {
    var all := [AnswerAt(db, c, 0)] + results;
    forall k | 0 <= k < |all| ensures all[k] == AnswerAt(db, c, k) && GoesOn(all[k]) {
      if k > 0 {
        assert all[k] == results[k - 1];
        BeforeLater(db, c, k);
      }
    }
  }

  lemma EndsLater(db: Db, c: Call, n: nat, next: Db, ending: Ending)
    requires CallOk(c) && n < |c.ids| && EndsAt(Before(db, c, 1), Rest(c), n, next, ending)
    ensures EndsAt(db, c, n + 1, next, ending)
  {
    BeforeLater(db, c, n + 1);
    if n + 1 < |c.ids| { BeforeLater(db, c, n + 2); }
  }

  lemma RanLater(db: Db, c: Call, rest: UpResult)
    requires CallOk(c) && c.ids != [] && GoesOn(AnswerAt(db, c, 0)) && Ran(Before(db, c, 1), Rest(c), rest)
    ensures Ran(db, c, rest.(results := [AnswerAt(db, c, 0)] + rest.results))
  {
    AnswersLater(db, c, rest.results);
    EndsLater(db, c, |rest.results|, rest.db, rest.ending);
  }

  /**
   * An `up` that can read the rows and is not to refuse drift, or finds none, runs its selection in order, each migration
   * on what the ones before it left, and stops after the first that throws or at which the process dies.
   */
  lemma UpRuns(db: Db, c: Call)
    requires CallOk(c)
    ensures var up, drifted := Up(db, c), exists id :: id in c.ids && Drifted(db, id, c.current[id]);
            && (!c.readable ==> up == UpResult(db, [], Aborted))
            && (c.readable && c.failOnDrift && drifted ==> up == UpResult(db, [], Refused))
            && (c.readable && !(c.failOnDrift && drifted) ==> Ran(db, c, up))
  {
    DriftIff(db, c.ids, c.current);
    ApplyAllRuns(db, c);
  }

  /** The drifted migrations of a selection: in its order, with the source each ran from and the commit it ran at. */
  lemma {:induction false} DriftIs(db: Db, ids: seq<Id>, more: seq<Id>, current: map<Id, Hash>, id: Id)
    requires (forall i | i in ids + more :: i in current) && id in current
    ensures (forall i | i in ids :: i in ids + more) && (forall i | i in more :: i in ids + more)
    ensures Drift(db, ids + more, current) == Drift(db, ids, current) + Drift(db, more, current)
    ensures var row := if id in db.rows then Some(db.rows[id]) else None;
            Drift(db, [id], current) ==
            if row.Some? && row.value.status.Succeeded? && row.value.recorded.Some? &&
               row.value.recorded != Some(current[id])
            then [DriftEntry(id, row.value.recorded.value, current[id], row.value.gitSha)] else []
  {
    assert [id][..0] == [];
    if more == [] {
      assert ids + more == ids;
    } else {
      assert (ids + more)[..|ids + more| - 1] == ids + more[..|more| - 1];
      DriftIs(db, ids, more[..|more| - 1], current, id);
    }
  }
}
