/**
 * The ledger commands as they are run against the database, statement by statement. `Database` is updated in place;
 * every command is proved to leave it as `Ledger` says.
 */
module LedgerRunner {
  import opened Common
  import opened Ledger
  import SourceIdentity

  class Database {
    var rows: map<Id, Row>
    ghost var commits: seq<Commit>

    ghost function View(): Db reads this { Db(rows, commits) }

    method MarkRunning(id: Id, source: Hash, git: nat)
      modifies this`rows
      ensures View() == MarkedRunning(old(View()), id, source, git)
    {
      rows := rows[id := Row(Running, 0, Some(git), Some(source))];
    }

    method MarkSucceeded(id: Id, source: Hash, git: nat, affected: nat)
      modifies this`rows
      ensures View() == MarkedSucceeded(old(View()), id, source, git, affected)
    {
      if id in rows { rows := rows[id := Row(Succeeded, affected, Some(git), Some(source))]; }
    }

    method MarkFailed(id: Id)
      modifies this`rows
      ensures View() == MarkedFailed(old(View()), id)
    {
      if id in rows { rows := rows[id := rows[id].(status := Failed)]; }
    }

    /** Runs one migration unless its row already succeeded. */
    method ApplyDataMigration(id: Id, source: Hash, git: nat, f: Fates) returns (outcome: Outcome)
      modifies this
      ensures (View(), outcome) == Apply(old(View()), id, source, git, f)
    {
      if !f.read.Done? { return Unanswered(f.read); }
      if id in rows && rows[id].status == Succeeded { return Skipped(rows[id].affected); }
      if TakesEffect(f.running) { MarkRunning(id, source, git); }
      if !f.running.Done? { return Unanswered(f.running); }
      outcome := RunMarked(id, source, git, f);
    }

    /** The `try` block and its `catch`. */
    method RunMarked(id: Id, source: Hash, git: nat, f: Fates) returns (outcome: Outcome)
      modifies this
      ensures (View(), outcome) == Execute(old(View()), id, source, git, f)
    {
      if TakesEffect(f.transaction) { commits := commits + [Commit(id, source)]; }
      if Dies(f.transaction) { return Died; }
      if f.transaction.Done? {
        if TakesEffect(f.succeeded) { MarkSucceeded(id, source, git, f.affected); }
        if Dies(f.succeeded) { return Died; }
        if f.succeeded.Done? { return Applied(f.affected); }
      }
      if TakesEffect(f.failed) { MarkFailed(id); }
      return Unanswered(f.failed);
    }

    /** The selected migrations whose succeeded row records a source that is not the current one. */
    method FindAppliedSourceDrift(ids: seq<Id>, current: map<Id, Hash>) returns (drift: seq<DriftEntry>)
      requires forall id | id in ids :: id in current
      ensures drift == Drift(View(), ids, current)
    {
      drift := [];
      for i := 0 to |ids|
        invariant drift == Drift(View(), ids[..i], current)
      {
        var id := ids[i];
        assert ids[..i + 1][..i] == ids[..i];
        if id !in rows || rows[id].status != Succeeded || rows[id].recorded.None? { continue; }
        if rows[id].recorded.value == current[id] { continue; }
        drift := drift + [DriftEntry(id, rows[id].recorded.value, current[id], rows[id].gitSha)];
      }
      assert ids[..|ids|] == ids;
    }

    method ApplyEach(c: Call) returns (results: seq<Outcome>, ending: Ending)
      requires CallOk(c)
      modifies this
      ensures UpResult(View(), results, ending) == ApplyAll(old(View()), c.ids, c.current, c.git, c.fates)
    {
      results := [];
      assert c.ids[0..] == c.ids && c.fates[0..] == c.fates;
      for i := 0 to |c.ids|
        invariant var rest := ApplyAll(View(), c.ids[i..], c.current, c.git, c.fates[i..]);
                  ApplyAll(old(View()), c.ids, c.current, c.git, c.fates)
                  == rest.(results := results + rest.results)
      {
        assert c.ids[i..][1..] == c.ids[i + 1..] && c.fates[i..][1..] == c.fates[i + 1..];
        ghost var rest := ApplyAll(View(), c.ids[i..], c.current, c.git, c.fates[i..]);
        var outcome := ApplyDataMigration(c.ids[i], c.current[c.ids[i]], c.git, c.fates[i]);
        if outcome.Threw? || outcome.Died? {
          assert results + rest.results == results;
          return results, if outcome.Died? then Crashed else Aborted;
        }
        ghost var after := ApplyAll(View(), c.ids[i + 1..], c.current, c.git, c.fates[i + 1..]);
        assert results + ([outcome] + after.results) == (results + [outcome]) + after.results;
        results := results + [outcome];
      }
      assert results + [] == results;
      ending := Completed;
    }

    /** `up` for a selection: the drift preflight first, then each migration in turn. */
    method ApplyDataMigrations(c: Call) returns (results: seq<Outcome>, ending: Ending)
      requires CallOk(c)
      modifies this
      ensures UpResult(View(), results, ending) == Up(old(View()), c)
    {
      if !c.readable { return [], Aborted; }
      var drift := FindAppliedSourceDrift(c.ids, c.current);
      if drift != [] && c.failOnDrift { return [], Refused; }
      results, ending := ApplyEach(c);
    }
  }

  // ---- The status report -----------------------------------------------------------------------------------------

  /** A ledger row, and the hash of its source as it was at the row's commit, when the checkout has that commit. */
  datatype LedgerRun = LedgerRun(id: Id, row: Row, atCommit: Option<Hash>)

  datatype StatusEntry = StatusEntry(id: Id, check: SourceIdentity.SourceCheck, ran: Hash, current: Hash)

  /** The hash to compare a row with: the recorded one, or the one derived through the row's commit. */
  function Ran(run: LedgerRun): Option<Hash> {
    if run.row.recorded.Some? then run.row.recorded
    else if run.row.gitSha.Some? then run.atCommit
    else None
  }

  /** The row succeeded, and not from the current source as far as can be told. */
  predicate Differs(run: LedgerRun, current: map<Id, Hash>) {
    run.id in current && run.row.status == Succeeded && Ran(run).Some? && Ran(run).value != current[run.id]
  }

  function StatusDrift(runs: seq<LedgerRun>, current: map<Id, Hash>): seq<StatusEntry> {
    if runs == [] then []
    else
      var last := runs[|runs| - 1];
      StatusDrift(runs[..|runs| - 1], current) +
      (if Differs(last, current)
       then [StatusEntry(last.id, if last.row.recorded.Some? then SourceIdentity.Drift else SourceIdentity.DerivedDrift,
                         Ran(last).value, current[last.id])]
       else [])
  }

  /**
   * Labels every row with its source check, and lists the succeeded rows that ran from another source. The label of a
   * registered row does not depend on whether it succeeded; being listed does.
   */
  method CheckLedgerSources(runs: seq<LedgerRun>, current: map<Id, Hash>, retired: set<Id>)
    returns (checks: seq<SourceIdentity.SourceCheck>, drift: seq<StatusEntry>)
    ensures |checks| == |runs| && drift == StatusDrift(runs, current)
    ensures forall i | 0 <= i < |runs| && runs[i].id in current ::
              && (checks[i].Unknown? <==> Ran(runs[i]).None?)
              && (checks[i].Match? || checks[i].DerivedMatch? <==> Ran(runs[i]) == Some(current[runs[i].id]))
              && (checks[i].Match? || checks[i].Drift? <==> runs[i].row.recorded.Some?)
    ensures forall i | 0 <= i < |runs| && runs[i].id !in current ::
              checks[i] == if runs[i].id in retired then SourceIdentity.Retired else SourceIdentity.Unregistered
  {
    checks, drift := [], [];
    for i := 0 to |runs|
      invariant |checks| == i && drift == StatusDrift(runs[..i], current)
      invariant forall k | 0 <= k < i && runs[k].id in current ::
                  && (checks[k].Unknown? <==> Ran(runs[k]).None?)
                  && (checks[k].Match? || checks[k].DerivedMatch? <==> Ran(runs[k]) == Some(current[runs[k].id]))
                  && (checks[k].Match? || checks[k].Drift? <==> runs[k].row.recorded.Some?)
      invariant forall k | 0 <= k < i && runs[k].id !in current ::
                  checks[k] == if runs[k].id in retired then SourceIdentity.Retired else SourceIdentity.Unregistered
    {
      var run := runs[i];
      var registered := run.id in current;
      var now := if registered then Some(current[run.id]) else None;
      var recorded := if registered then run.row.recorded else None;
      var derived := if registered && recorded.None? && run.row.gitSha.Some? then run.atCommit else None;
      var check := SourceIdentity.Classify(registered, run.id in retired, recorded, now, derived);
      checks := checks + [check];
      var ran := if recorded.Some? then recorded else derived;
      assert runs[..i + 1][..i] == runs[..i];
      if registered && ran.Some? && run.row.status == Succeeded && (check.Drift? || check.DerivedDrift?) {
        drift := drift + [StatusEntry(run.id, check, ran.value, now.value)];
      }
    }
    assert runs[..|runs|] == runs;
  }

  function DriftExitCode(drift: seq<StatusEntry>, failOnDrift: bool): int {
    if failOnDrift && exists entry | entry in drift :: entry.check.Drift? then 3 else 0
  }

  /** The row succeeded from a source on record that is not the current one. */
  predicate HasRecordedDrift(run: LedgerRun, current: map<Id, Hash>) {
    run.row.recorded.Some? && Differs(run, current)
  }

  lemma {:induction false} StatusDriftListed(runs: seq<LedgerRun>, current: map<Id, Hash>)
    ensures (exists entry | entry in StatusDrift(runs, current) :: entry.check.Drift?)
            <==> exists run | run in runs :: HasRecordedDrift(run, current)
  {
    if runs != [] {
      var init, last := runs[..|runs| - 1], runs[|runs| - 1];
      StatusDriftListed(init, current);
      var before, all := StatusDrift(init, current), StatusDrift(runs, current);
      assert runs == init + [last];
      if Differs(last, current) {
        var entry := all[|before|];
        assert all == before + [entry] && (entry.check.Drift? <==> HasRecordedDrift(last, current));
        if HasRecordedDrift(last, current) { assert entry in all && last in runs; }
      } else {
        assert all == before;
      }
    }
  }

  /** `status` exits 3 exactly when asked to and some succeeded row has a hash on record that is not the current one. */
  lemma ExitsThreeIff(runs: seq<LedgerRun>, current: map<Id, Hash>, failOnDrift: bool)
    ensures DriftExitCode(StatusDrift(runs, current), failOnDrift) == 3
            <==> failOnDrift && exists run | run in runs :: HasRecordedDrift(run, current)
  {
    StatusDriftListed(runs, current);
  }
}
