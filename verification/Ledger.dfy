/**
 * The `data_migration_runs` ledger: one row per migration id, and the `up` command that runs what has not succeeded.
 *
 * Every statement of a run can fail, lose its answer, or be the last thing the process does. `Apply` and `Up` are the
 * database after one migration and one whole command for any such course of events.
 */
module Ledger {
  import opened Common

  type Id = nat
  type Hash = nat

  datatype Status = Running | Succeeded | Failed

  /** `recorded` is the source the row's run executed; rows older than the record have none. */
  datatype Row = Row(status: Status, affected: nat, gitSha: Option<nat>, recorded: Option<Hash>)

  datatype Commit = Commit(id: Id, source: Hash)

  /** The ledger rows and, in order, the migration transactions that committed. */
  datatype Db = Db(rows: map<Id, Row>, commits: seq<Commit>)

  /** What becomes of one statement and of the process that sent it. */
  datatype Fate = Done | Lost | AckLost | DiesBefore | DiesAfter

  predicate TakesEffect(f: Fate) { f.Done? || f.AckLost? || f.DiesAfter? }

  predicate Dies(f: Fate) { f.DiesBefore? || f.DiesAfter? }

  /** A transaction that is rolled back, by its migration or by the database, is lost. */
  datatype Fates = Fates(read: Fate, running: Fate, transaction: Fate, affected: nat, succeeded: Fate, failed: Fate)

  datatype Outcome = Skipped(affected: nat) | Applied(affected: nat) | Threw | Died

  /** Where the process is after a statement that was not answered. */
  function Unanswered(f: Fate): Outcome { if Dies(f) then Died else Threw }

  predicate SucceededIn(db: Db, id: Id) { id in db.rows && db.rows[id].status == Succeeded }

  // ---- One migration ---------------------------------------------------------------------------------------------

  function MarkedRunning(db: Db, id: Id, source: Hash, git: nat): Db {
    db.(rows := db.rows[id := Row(Running, 0, Some(git), Some(source))])
  }

  function Committed(db: Db, id: Id, source: Hash): Db { db.(commits := db.commits + [Commit(id, source)]) }

  function MarkedSucceeded(db: Db, id: Id, source: Hash, git: nat, affected: nat): Db {
    if id in db.rows then db.(rows := db.rows[id := Row(Succeeded, affected, Some(git), Some(source))]) else db
  }

  function MarkedFailed(db: Db, id: Id): Db {
    if id in db.rows then db.(rows := db.rows[id := db.rows[id].(status := Failed)]) else db
  }

  /** The `catch` block: whatever becomes of its statement, the migration's error is what the caller sees. */
  function Fail(db: Db, id: Id, f: Fates): (Db, Outcome) {
    (if TakesEffect(f.failed) then MarkedFailed(db, id) else db, Unanswered(f.failed))
  }

  /** The row once the run was marked as succeeded, if it was. */
  function AfterMark(db: Db, id: Id, source: Hash, git: nat, f: Fates): Db {
    if TakesEffect(f.succeeded) then MarkedSucceeded(db, id, source, git, f.affected) else db
  }

  function Finish(db: Db, id: Id, source: Hash, git: nat, f: Fates): (Db, Outcome) {
    var marked := AfterMark(db, id, source, git, f);
    match f.succeeded
    case Done => (marked, Applied(f.affected))
    case DiesBefore => (marked, Died)
    case DiesAfter => (marked, Died)
    case _ => Fail(marked, id, f)
  }

  function Execute(db: Db, id: Id, source: Hash, git: nat, f: Fates): (Db, Outcome) {
    var ran := if TakesEffect(f.transaction) then Committed(db, id, source) else db;
    match f.transaction
    case Done => Finish(ran, id, source, git, f)
    case DiesBefore => (ran, Died)
    case DiesAfter => (ran, Died)
    case _ => Fail(ran, id, f)
  }

  /** Marking the row as running is outside the `try`: its failure marks nothing as failed. */
  function Apply(db: Db, id: Id, source: Hash, git: nat, f: Fates): (Db, Outcome) {
    if !f.read.Done? then (db, Unanswered(f.read))
    else if SucceededIn(db, id) then (db, Skipped(db.rows[id].affected))
    else
      var marked := if TakesEffect(f.running) then MarkedRunning(db, id, source, git) else db;
      if !f.running.Done? then (marked, Unanswered(f.running)) else Execute(marked, id, source, git, f)
  }

  // ---- Source drift ----------------------------------------------------------------------------------------------

  datatype DriftEntry = DriftEntry(id: Id, ran: Hash, current: Hash, gitSha: Option<nat>)

  /** The row succeeded from a source on record that is not the current one. */
  predicate Drifted(db: Db, id: Id, current: Hash) {
    SucceededIn(db, id) && db.rows[id].recorded.Some? && db.rows[id].recorded.value != current
  }

  /** The drifted migrations of a selection, in its order. */
  function Drift(db: Db, ids: seq<Id>, current: map<Id, Hash>): seq<DriftEntry>
    requires forall id | id in ids :: id in current
  {
    if ids == [] then []
    else
      var last := ids[|ids| - 1];
      Drift(db, ids[..|ids| - 1], current) +
      (if Drifted(db, last, current[last])
       then [DriftEntry(last, db.rows[last].recorded.value, current[last], db.rows[last].gitSha)] else [])
  }

  // ---- One `up` --------------------------------------------------------------------------------------------------

  /** The results of the migrations that were answered, and how the command went on from there. */
  datatype Ending = Completed | Refused | Aborted | Crashed

  datatype UpResult = UpResult(db: Db, results: seq<Outcome>, ending: Ending)

  function ApplyAll(db: Db, ids: seq<Id>, current: map<Id, Hash>, git: nat, fates: seq<Fates>): UpResult
    requires |fates| == |ids| && forall id | id in ids :: id in current
    decreases |ids|
  {
    if ids == [] then UpResult(db, [], Completed)
    else
      var (next, outcome) := Apply(db, ids[0], current[ids[0]], git, fates[0]);
      match outcome
      case Threw => UpResult(next, [], Aborted)
      case Died => UpResult(next, [], Crashed)
      case _ =>
        var rest := ApplyAll(next, ids[1..], current, git, fates[1..]);
        rest.(results := [outcome] + rest.results)
  }

  /** One `up` of a selection with the sources read for it. `readable` says whether the preflight could read the rows. */
  datatype Call = Call(ids: seq<Id>, current: map<Id, Hash>, git: nat, failOnDrift: bool, readable: bool,
                       fates: seq<Fates>)

  /** The command reads the source of every selected migration first, or does not start. */
  ghost predicate CallOk(c: Call) { |c.fates| == |c.ids| && forall id | id in c.ids :: id in c.current }

  function Up(db: Db, c: Call): UpResult
    requires CallOk(c)
  {
    if !c.readable then UpResult(db, [], Aborted)
    else if c.failOnDrift && Drift(db, c.ids, c.current) != [] then UpResult(db, [], Refused)
    else ApplyAll(db, c.ids, c.current, c.git, c.fates)
  }

  function Ups(db: Db, calls: seq<Call>): Db
    requires forall c | c in calls :: CallOk(c)
    decreases |calls|
  {
    if calls == [] then db else Ups(Up(db, calls[0]).db, calls[1..])
  }

  // ---- What one migration does -----------------------------------------------------------------------------------

  /** The transactions of one migration among some. */
  function CommitsOf(commits: seq<Commit>, id: Id): seq<Commit> {
    if commits == [] then []
    else
      var last := commits[|commits| - 1];
      CommitsOf(commits[..|commits| - 1], id) + (if last.id == id then [last] else [])
  }

  lemma CommitAppends(commits: seq<Commit>, c: Commit, id: Id)
    ensures CommitsOf(commits + [c], id) == CommitsOf(commits, id) + (if c.id == id then [c] else [])
  {
  }

  /** If the migration succeeded with its source on record, that is the source its last transaction committed from. */
  ghost predicate TruthOf(db: Db, id: Id) {
    SucceededIn(db, id) && db.rows[id].recorded.Some? ==>
      var runs := CommitsOf(db.commits, id);
      runs != [] && runs[|runs| - 1].source == db.rows[id].recorded.value
  }

  ghost predicate RecordsTruth(db: Db) { forall id :: TruthOf(db, id) }

  /** Row and transactions of a migration are as before. */
  ghost predicate SameFor(before: Db, after: Db, id: Id) {
    && (id in after.rows <==> id in before.rows)
    && (id in before.rows ==> after.rows[id] == before.rows[id])
    && CommitsOf(after.commits, id) == CommitsOf(before.commits, id)
  }

  /** One migration commits its own transaction at most once, and only if it had not succeeded. */
  lemma ApplyCommits(db: Db, id: Id, source: Hash, git: nat, f: Fates)
    ensures var now := Apply(db, id, source, git, f).0.commits;
            now == db.commits || (!SucceededIn(db, id) && now == db.commits + [Commit(id, source)])
  {
  }

  /** It writes no other row. */
  lemma ApplyWrites(db: Db, id: Id, source: Hash, git: nat, f: Fates, other: Id)
    requires other != id || SucceededIn(db, id)
    ensures var next := Apply(db, id, source, git, f).0;
            (other in next.rows <==> other in db.rows) && (other in db.rows ==> next.rows[other] == db.rows[other])
  {
  }

  lemma ApplyIsLocal(db: Db, id: Id, source: Hash, git: nat, f: Fates, other: Id)
    requires other != id || SucceededIn(db, id)
    ensures SameFor(db, Apply(db, id, source, git, f).0, other)
  {
    ApplyWrites(db, id, source, git, f, other);
    ApplyCommits(db, id, source, git, f);
    CommitAppends(db.commits, Commit(id, source), other);
  }

  /** A run that made its migration succeed committed it, from the source it stored. */
  lemma ApplySucceedsTruly(db: Db, id: Id, source: Hash, git: nat, f: Fates)
    requires !SucceededIn(db, id) && SucceededIn(Apply(db, id, source, git, f).0, id)
    ensures var next := Apply(db, id, source, git, f).0;
            next.rows[id].recorded == Some(source) && next.commits == db.commits + [Commit(id, source)]
  {
  }

  lemma ApplyKeepsTruthOf(db: Db, id: Id, source: Hash, git: nat, f: Fates, other: Id)
    requires TruthOf(db, other)
    ensures TruthOf(Apply(db, id, source, git, f).0, other)
  {
    var next := Apply(db, id, source, git, f).0;
    if other != id || SucceededIn(db, id) {
      ApplyIsLocal(db, id, source, git, f, other);
    } else if SucceededIn(next, id) {
      ApplySucceedsTruly(db, id, source, git, f);
      CommitAppends(db.commits, Commit(id, source), id);
    }
  }

  lemma ApplyKeepsTruth(db: Db, id: Id, source: Hash, git: nat, f: Fates)
    requires RecordsTruth(db)
    ensures RecordsTruth(Apply(db, id, source, git, f).0)
  {
    forall other ensures TruthOf(Apply(db, id, source, git, f).0, other) {
      assert TruthOf(db, other);
      ApplyKeepsTruthOf(db, id, source, git, f, other);
    }
  }

  /**
   * What one run of a migration that had not succeeded leaves: it succeeded exactly when its transaction was answered
   * and the mark took effect, and was not taken back because its answer was lost.
   */
  lemma SucceedsExactlyWhen(db: Db, id: Id, source: Hash, git: nat, f: Fates)
    requires !SucceededIn(db, id)
    ensures SucceededIn(Apply(db, id, source, git, f).0, id) <==>
              && f.read.Done? && f.running.Done? && f.transaction.Done? && TakesEffect(f.succeeded)
              && !(f.succeeded.AckLost? && TakesEffect(f.failed))
    ensures Apply(db, id, source, git, f).1.Applied? ==> SucceededIn(Apply(db, id, source, git, f).0, id)
  {
  }

  /**
   * A row that was just marked as succeeded is not yet final: the same run overwrites it with a failure exactly when the
   * answer to the mark is lost and the failure is stored.
   */
  lemma SuccessTakenBack(db: Db, id: Id, source: Hash, git: nat, f: Fates)
    requires id in db.rows && db.rows[id].status.Running?
    ensures SucceededIn(AfterMark(db, id, source, git, f), id) && !SucceededIn(Finish(db, id, source, git, f).0, id)
            <==> f.succeeded.AckLost? && TakesEffect(f.failed)
  {
  }

  // ---- What one `up` does ----------------------------------------------------------------------------------------

  lemma {:induction false} ApplyAllKeepsSucceeded(
    db: Db, ids: seq<Id>, current: map<Id, Hash>, git: nat, fates: seq<Fates>, id: Id)
    requires |fates| == |ids| && forall i | i in ids :: i in current
    requires SucceededIn(db, id) || id !in ids
    ensures SameFor(db, ApplyAll(db, ids, current, git, fates).db, id)
    decreases |ids|
  {
    if ids != [] {
      ApplyIsLocal(db, ids[0], current[ids[0]], git, fates[0], id);
      var next := Apply(db, ids[0], current[ids[0]], git, fates[0]).0;
      ApplyAllKeepsSucceeded(next, ids[1..], current, git, fates[1..], id);
    }
  }

  lemma {:induction false} ApplyAllKeepsTruth(
    db: Db, ids: seq<Id>, current: map<Id, Hash>, git: nat, fates: seq<Fates>)
    requires |fates| == |ids| && forall i | i in ids :: i in current
    requires RecordsTruth(db)
    ensures RecordsTruth(ApplyAll(db, ids, current, git, fates).db)
    decreases |ids|
  {
    if ids != [] {
      ApplyKeepsTruth(db, ids[0], current[ids[0]], git, fates[0]);
      ApplyAllKeepsTruth(Apply(db, ids[0], current[ids[0]], git, fates[0]).0, ids[1..], current, git, fates[1..]);
    }
  }

  /**
   * The command goes through its selection in order and stops at the first migration that throws, or at which the
   * process dies: those after it are untouched, and all of those before it have succeeded.
   */
  lemma {:induction false} StopsAtFirstFailure(
    db: Db, ids: seq<Id>, current: map<Id, Hash>, git: nat, fates: seq<Fates>)
    requires |fates| == |ids| && forall i | i in ids :: i in current
    requires forall i, j | 0 <= i < j < |ids| :: ids[i] != ids[j]
    ensures var up := ApplyAll(db, ids, current, git, fates); var n := |up.results|;
            && n <= |ids| && !up.ending.Refused? && (up.ending.Completed? <==> n == |ids|)
            && (forall i | 0 <= i < n :: SucceededIn(up.db, ids[i]))
            && (forall i | n < i < |ids| :: SameFor(db, up.db, ids[i]))
    decreases |ids|
  {
    if ids != [] {
      var (next, outcome) := Apply(db, ids[0], current[ids[0]], git, fates[0]);
      forall i | 0 < i < |ids| ensures SameFor(db, next, ids[i]) {
        ApplyIsLocal(db, ids[0], current[ids[0]], git, fates[0], ids[i]);
      }
      if outcome.Skipped? || outcome.Applied? {
        if !SucceededIn(db, ids[0]) { SucceedsExactlyWhen(db, ids[0], current[ids[0]], git, fates[0]); }
        StopsAtFirstFailure(next, ids[1..], current, git, fates[1..]);
        ApplyAllKeepsSucceeded(next, ids[1..], current, git, fates[1..], ids[0]);
      }
    }
  }

  lemma {:induction false} DriftIff(db: Db, ids: seq<Id>, current: map<Id, Hash>)
    requires forall id | id in ids :: id in current
    ensures Drift(db, ids, current) != [] <==> exists id :: id in ids && Drifted(db, id, current[id])
  {
    if ids != [] {
      var last := ids[|ids| - 1];
      DriftIff(db, ids[..|ids| - 1], current);
      assert ids == ids[..|ids| - 1] + [last];
    }
  }

  /**
   * Refused if and only if asked to refuse drift, and some selected migration succeeded from a source on record that has
   * changed since; and then the database is as it was.
   */
  lemma RefusedIff(db: Db, c: Call)
    requires CallOk(c) && c.readable
    ensures Up(db, c).ending.Refused? <==>
              c.failOnDrift && exists id :: id in c.ids && Drifted(db, id, c.current[id])
    ensures Up(db, c).ending.Refused? ==> Up(db, c).db == db
  {
    DriftIff(db, c.ids, c.current);
    NeverRefusedMidway(db, c.ids, c.current, c.git, c.fates);
  }

  lemma {:induction false} NeverRefusedMidway(
    db: Db, ids: seq<Id>, current: map<Id, Hash>, git: nat, fates: seq<Fates>)
    requires |fates| == |ids| && forall i | i in ids :: i in current
    ensures !ApplyAll(db, ids, current, git, fates).ending.Refused?
    decreases |ids|
  {
    if ids != [] {
      NeverRefusedMidway(Apply(db, ids[0], current[ids[0]], git, fates[0]).0, ids[1..], current, git, fates[1..]);
    }
  }

  /** `up` writes rows with the current source only, so it adds no drift. */
  lemma {:induction false} ApplyAllAddsNoDrift(
    db: Db, ids: seq<Id>, current: map<Id, Hash>, git: nat, fates: seq<Fates>, id: Id)
    requires |fates| == |ids| && (forall i | i in ids :: i in current) && id in current
    ensures Drifted(ApplyAll(db, ids, current, git, fates).db, id, current[id]) ==> Drifted(db, id, current[id])
    decreases |ids|
  {
    if ids != [] {
      var next := Apply(db, ids[0], current[ids[0]], git, fates[0]).0;
      ApplyAllAddsNoDrift(next, ids[1..], current, git, fates[1..], id);
      if id != ids[0] || SucceededIn(db, id) { ApplyIsLocal(db, ids[0], current[ids[0]], git, fates[0], id); }
    }
  }

  lemma UpAddsNoDrift(db: Db, c: Call, id: Id)
    requires CallOk(c) && id in c.current && Drifted(Up(db, c).db, id, c.current[id])
    ensures Drifted(db, id, c.current[id])
  {
    ApplyAllAddsNoDrift(db, c.ids, c.current, c.git, c.fates, id);
  }

  /** No `up` changes a succeeded row or runs its migration again, whatever the sources are by then. */
  lemma UpKeepsSucceeded(db: Db, c: Call, id: Id)
    requires CallOk(c) && SucceededIn(db, id)
    ensures SameFor(db, Up(db, c).db, id)
  {
    ApplyAllKeepsSucceeded(db, c.ids, c.current, c.git, c.fates, id);
  }

  // ---- Any sequence of commands ----------------------------------------------------------------------------------

  lemma {:induction false} SucceededIsFinal(db: Db, calls: seq<Call>, id: Id)
    requires (forall c | c in calls :: CallOk(c)) && SucceededIn(db, id)
    ensures SameFor(db, Ups(db, calls), id)
    decreases |calls|
  {
    if calls != [] {
      UpKeepsSucceeded(db, calls[0], id);
      SucceededIsFinal(Up(db, calls[0]).db, calls[1..], id);
    }
  }

  lemma {:induction false} RecordsStayTrue(db: Db, calls: seq<Call>)
    requires (forall c | c in calls :: CallOk(c)) && RecordsTruth(db)
    ensures RecordsTruth(Ups(db, calls))
    decreases |calls|
  {
    if calls != [] {
      assert CallOk(calls[0]);
      ApplyAllKeepsTruth(db, calls[0].ids, calls[0].current, calls[0].git, calls[0].fates);
      RecordsStayTrue(Up(db, calls[0]).db, calls[1..]);
    }
  }

  /**
   * A migration can commit twice before it succeeds: when the answer to its first transaction is lost, the ledger says
   * failed, and the next `up` runs it again. Migrations must therefore be repeatable.
   */
  lemma CommitsTwice(id: Id, source: Hash, git: nat)
    ensures var lost := Fates(Done, Done, AckLost, 0, Done, Done);
            var well := Fates(Done, Done, Done, 0, Done, Done);
            var first := Call([id], map[id := source], git, false, true, [lost]);
            var db := Ups(Db(map[], []), [first, first.(fates := [well])]);
            SucceededIn(db, id) && CommitsOf(db.commits, id) == [Commit(id, source), Commit(id, source)]
  {
    var lost, well := Fates(Done, Done, AckLost, 0, Done, Done), Fates(Done, Done, Done, 0, Done, Done);
    var first := Call([id], map[id := source], git, false, true, [lost]);
    var second := first.(fates := [well]);
    var run := Commit(id, source);
    var db1 := Apply(Db(map[], []), id, source, git, lost).0;
    OneMigration(Db(map[], []), first);
    assert db1.commits == [run] && db1.rows[id].status == Failed;
    RunsAgain(db1, id, source, git);
    OneMigration(db1, second);
    TwoCalls(Db(map[], []), first, second);
  }

  lemma RunsAgain(db: Db, id: Id, source: Hash, git: nat)
    requires !SucceededIn(db, id) && db.commits == [Commit(id, source)]
    ensures var next := Apply(db, id, source, git, Fates(Done, Done, Done, 0, Done, Done)).0;
            SucceededIn(next, id) && CommitsOf(next.commits, id) == [Commit(id, source), Commit(id, source)]
  {
    var run := Commit(id, source);
    CommitAppends([], run, id);
    assert [] + [run] == [run];
    CommitAppends([run], run, id);
  }

  lemma TwoCalls(db: Db, first: Call, second: Call)
    requires CallOk(first) && CallOk(second)
    ensures Ups(db, [first, second]) == Up(Up(db, first).db, second).db
  {
    var calls := [first, second];
    var db1 := Up(db, first).db;
    assert calls[1..] == [second] && calls[1..][1..] == [];
    assert Ups(db, calls) == Ups(db1, calls[1..]) == Ups(Up(db1, second).db, calls[1..][1..]);
  }

  lemma OneMigration(db: Db, c: Call)
    requires CallOk(c) && |c.ids| == 1 && c.readable && !c.failOnDrift
    ensures Up(db, c).db == Apply(db, c.ids[0], c.current[c.ids[0]], c.git, c.fates[0]).0
  {
    var next := Apply(db, c.ids[0], c.current[c.ids[0]], c.git, c.fates[0]).0;
    assert c.ids[1..] == [];
    assert ApplyAll(next, c.ids[1..], c.current, c.git, c.fates[1..]).db == next;
  }

  /** Each `up` commits a migration at most once, and only if it had not succeeded. */
  lemma {:induction false} CommitsAtMostOnce(
    db: Db, ids: seq<Id>, current: map<Id, Hash>, git: nat, fates: seq<Fates>, id: Id)
    requires |fates| == |ids| && forall i | i in ids :: i in current
    requires forall i, j | 0 <= i < j < |ids| :: ids[i] != ids[j]
    ensures var was, now := CommitsOf(db.commits, id),
                            CommitsOf(ApplyAll(db, ids, current, git, fates).db.commits, id);
            now == was || (!SucceededIn(db, id) && id in ids && now == was + [Commit(id, current[id])])
    decreases |ids|
  {
    if ids != [] {
      var next := Apply(db, ids[0], current[ids[0]], git, fates[0]).0;
      if ids[0] == id && !SucceededIn(db, id) {
        ApplyCommits(db, id, current[id], git, fates[0]);
        CommitAppends(db.commits, Commit(id, current[id]), id);
        ApplyAllKeepsSucceeded(next, ids[1..], current, git, fates[1..], id);
      } else {
        ApplyIsLocal(db, ids[0], current[ids[0]], git, fates[0], id);
        CommitsAtMostOnce(next, ids[1..], current, git, fates[1..], id);
      }
    }
  }

  /** The statements of a run get as far as its transaction, and that takes effect. */
  predicate RunCommits(f: Fates) { f.read.Done? && f.running.Done? && TakesEffect(f.transaction) }

  lemma ApplyCommitsIff(db: Db, id: Id, source: Hash, git: nat, f: Fates)
    ensures Apply(db, id, source, git, f).0.commits
            == db.commits + (if !SucceededIn(db, id) && RunCommits(f) then [Commit(id, source)] else [])
  {
  }

  /** A run is answered, so that the command goes on: the migration had succeeded, or succeeds with every answer. */
  predicate RunAnswers(db: Db, id: Id, f: Fates) {
    f.read.Done? && (SucceededIn(db, id) || (f.running.Done? && f.transaction.Done? && f.succeeded.Done?))
  }

  /** Each run before place `k` is answered, so that the command gets there. */
  predicate GetsTo(db: Db, ids: seq<Id>, fates: seq<Fates>, k: nat)
    requires k <= |ids| == |fates|
  {
    forall j | 0 <= j < k :: RunAnswers(db, ids[j], fates[j])
  }

  lemma ApplyAnswersIff(db: Db, id: Id, source: Hash, git: nat, f: Fates)
    ensures var outcome := Apply(db, id, source, git, f).1;
            (outcome.Skipped? || outcome.Applied?) <==> RunAnswers(db, id, f)
  {
  }

  lemma {:induction false} AllCommitsIff(
    db: Db, ids: seq<Id>, current: map<Id, Hash>, git: nat, fates: seq<Fates>, k: nat)
    requires |fates| == |ids| && forall i | i in ids :: i in current
    requires k < |ids| && forall i, j | 0 <= i < j < |ids| :: ids[i] != ids[j]
    ensures var up := ApplyAll(db, ids, current, git, fates);
            CommitsOf(up.db.commits, ids[k])
            == CommitsOf(db.commits, ids[k])
               + (if k <= |up.results| && !SucceededIn(db, ids[k]) && RunCommits(fates[k])
                  then [Commit(ids[k], current[ids[k]])] else [])
    decreases |ids|
  {
    var id := ids[k];
    var (next, outcome) := Apply(db, ids[0], current[ids[0]], git, fates[0]);
    if k == 0 {
      ApplyCommitsIff(db, id, current[id], git, fates[0]);
      CommitAppends(db.commits, Commit(id, current[id]), id);
      ApplyAllKeepsSucceeded(next, ids[1..], current, git, fates[1..], id);
    } else {
      ApplyIsLocal(db, ids[0], current[ids[0]], git, fates[0], id);
      if outcome.Skipped? || outcome.Applied? {
        assert ids[1..][k - 1] == id;
        AllCommitsIff(next, ids[1..], current, git, fates[1..], k - 1);
      }
    }
  }

  /** Whether the later runs are answered does not depend on the first one. */
  lemma GetsToLater(
    db: Db, next: Db, ids: seq<Id>, current: map<Id, Hash>, git: nat, fates: seq<Fates>, k: nat)
    requires |fates| == |ids| && (forall i | i in ids :: i in current) && 0 < k < |ids|
    requires forall i, j | 0 <= i < j < |ids| :: ids[i] != ids[j]
    requires next == Apply(db, ids[0], current[ids[0]], git, fates[0]).0 && RunAnswers(db, ids[0], fates[0])
    ensures GetsTo(db, ids, fates, k) <==> GetsTo(next, ids[1..], fates[1..], k - 1)
  {
    forall j | 0 < j < k ensures RunAnswers(db, ids[j], fates[j]) == RunAnswers(next, ids[1..][j - 1], fates[1..][j - 1]) {
      ApplyIsLocal(db, ids[0], current[ids[0]], git, fates[0], ids[j]);
    }
    if GetsTo(db, ids, fates, k) {
      forall j | 0 <= j < k - 1 ensures RunAnswers(next, ids[1..][j], fates[1..][j]) {
        assert RunAnswers(db, ids[j + 1], fates[j + 1]);
      }
    }
    if GetsTo(next, ids[1..], fates[1..], k - 1) {
      forall j | 0 <= j < k ensures RunAnswers(db, ids[j], fates[j]) {
        if j > 0 { assert RunAnswers(next, ids[1..][j - 1], fates[1..][j - 1]); }
      }
    }
  }

  lemma {:induction false} GetsToIff(
    db: Db, ids: seq<Id>, current: map<Id, Hash>, git: nat, fates: seq<Fates>, k: nat)
    requires |fates| == |ids| && forall i | i in ids :: i in current
    requires k < |ids| && forall i, j | 0 <= i < j < |ids| :: ids[i] != ids[j]
    ensures k <= |ApplyAll(db, ids, current, git, fates).results| <==> GetsTo(db, ids, fates, k)
    decreases |ids|
  {
    if k > 0 {
      var (next, outcome) := Apply(db, ids[0], current[ids[0]], git, fates[0]);
      ApplyAnswersIff(db, ids[0], current[ids[0]], git, fates[0]);
      if outcome.Skipped? || outcome.Applied? {
        GetsToIff(next, ids[1..], current, git, fates[1..], k - 1);
        GetsToLater(db, next, ids, current, git, fates, k);
      } else {
        assert !RunAnswers(db, ids[0], fates[0]);
      }
    }
  }

  /**
   * When an `up` commits the migration it has selected at place `k`: exactly if it can read the rows, it was not asked to
   * refuse drift or no selected migration has drifted, each one selected before had succeeded or succeeds with every
   * statement answered, and the migration itself has not succeeded yet, its row is read and marked as running, and its
   * transaction takes effect. It then commits it once, from the current source; otherwise its transactions stay as they
   * were.
   */
  lemma UpCommitsIff(db: Db, c: Call, k: nat)
    requires CallOk(c) && k < |c.ids| && forall i, j | 0 <= i < j < |c.ids| :: c.ids[i] != c.ids[j]
    ensures var id := c.ids[k];
            CommitsOf(Up(db, c).db.commits, id)
            == CommitsOf(db.commits, id)
               + (if c.readable
                     && !(c.failOnDrift && exists i :: i in c.ids && Drifted(db, i, c.current[i]))
                     && GetsTo(db, c.ids, c.fates, k)
                     && !SucceededIn(db, id) && RunCommits(c.fates[k])
                  then [Commit(id, c.current[id])] else [])
  {
    AllCommitsIff(db, c.ids, c.current, c.git, c.fates, k);
    GetsToIff(db, c.ids, c.current, c.git, c.fates, k);
    DriftIff(db, c.ids, c.current);
  }

  /** A run whose transaction took effect leaves its migration succeeded. */
  predicate LeavesSucceeded(f: Fates) {
    f.transaction.Done? && TakesEffect(f.succeeded) && !(f.succeeded.AckLost? && TakesEffect(f.failed))
  }

  /**
   * A migration commits twice exactly if its first run commits it without leaving it succeeded. Two runs that both get to
   * their transactions and let them take effect add one commit if the first left the migration succeeded, and else two.
   */
  lemma CommitsTwiceIff(db: Db, id: Id, source: Hash, git: nat, f: Fates, source': Hash, git': nat, g: Fates)
    requires !SucceededIn(db, id) && RunCommits(f) && RunCommits(g)
    ensures var first := Apply(db, id, source, git, f).0; var second := Apply(first, id, source', git', g).0;
            second.commits == db.commits + [Commit(id, source)]
                              + (if LeavesSucceeded(f) then [] else [Commit(id, source')])
  {
    var first := Apply(db, id, source, git, f).0;
    ApplyCommitsIff(db, id, source, git, f);
    SucceedsExactlyWhen(db, id, source, git, f);
    ApplyCommitsIff(first, id, source', git', g);
  }

  /** A first run on an empty ledger whose success is stored, but not answered, ends with a failed row. */
  lemma SuccessTakenBackHappens(id: Id, source: Hash, git: nat)
    ensures var f := Fates(Done, Done, Done, 0, AckLost, Done);
            var marked := AfterMark(Committed(MarkedRunning(Db(map[], []), id, source, git), id, source),
                                    id, source, git, f);
            var after := Apply(Db(map[], []), id, source, git, f).0;
            && SucceededIn(marked, id) && after.rows[id].status == Failed && after.commits == [Commit(id, source)]
  {
  }
}
