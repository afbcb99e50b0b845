/** One reconcile run over all the issues a pull request is attached to, with what it reports. */
module ReconcileRun {
  import opened Common
  import opened PrLabels
  import opened Reconcile

  datatype PrLabel = PrLabel(id: nat, name: string, createdAt: int)

  // ---- The label -------------------------------------------------------------------------------------------------

  /** The first of the labels that no other is older than. */
  function Oldest(labels: seq<PrLabel>): PrLabel
    requires labels != []
  {
    if |labels| == 1 then labels[0]
    else
      var rest := Oldest(labels[1..]);
      if rest.createdAt < labels[0].createdAt then rest else labels[0]
  }

  predicate IsOldestAt(labels: seq<PrLabel>, i: nat)
    requires i < |labels|
  {
    && (forall j | 0 <= j < |labels| :: labels[i].createdAt <= labels[j].createdAt)
    && (forall j | 0 <= j < i :: labels[i].createdAt < labels[j].createdAt)
  }

  lemma {:induction false} PlaceOfOldest(labels: seq<PrLabel>) returns (i: nat)
    requires labels != []
    ensures i < |labels| && IsOldestAt(labels, i) && labels[i] == Oldest(labels)
  {
    i := 0;
    if |labels| > 1 {
      var rest := PlaceOfOldest(labels[1..]);
      var found := labels[1..][rest];
      forall j | 1 <= j < |labels| ensures found.createdAt <= labels[j].createdAt { assert labels[j] == labels[1..][j - 1]; }
      if found.createdAt < labels[0].createdAt {
        forall j | 1 <= j < rest + 1 ensures found.createdAt < labels[j].createdAt { assert labels[j] == labels[1..][j - 1]; }
        i := rest + 1;
      }
    }
  }

  /**
   * What Linear answers while a label is found or made: the labels with the prefix at first, the label the create call
   * made or its failure, and the labels with the prefix after that, once more after either.
   */
  datatype LabelAnswers = LabelAnswers(existing: seq<PrLabel>, created: Result<PrLabel, nat>, again: seq<PrLabel>)

  ghost predicate AnswersOk(prefix: string, a: LabelAnswers) {
    && (forall l | l in a.existing + a.again :: prefix <= l.name)
    && (a.created.Ok? ==> prefix <= a.created.value.name)
  }

  /** An orphaned label is one this run made and does not use. */
  datatype Found = Found(chosen: PrLabel, created: bool, orphaned: Option<string>)

  /** There is no label and none can be made. */
  predicate NoLabel(a: LabelAnswers) { a.existing == [] && a.created.Rejected? && a.again == [] }

  /** This run makes a label. */
  predicate Makes(a: LabelAnswers) { a.existing == [] && a.created.Ok? }

  /** The oldest of the labels seen last; a label this run made is known by its id. */
  function Winner(a: LabelAnswers): PrLabel
    requires !NoLabel(a)
  {
    var seen := if a.existing != [] then a.existing else a.again;
    if seen == [] || (Makes(a) && Oldest(seen).id == a.created.value.id) then a.created.value else Oldest(seen)
  }

  /** The label at this place of those seen is the one that is taken. */
  predicate TakenAt(a: LabelAnswers, seen: seq<PrLabel>, i: nat, w: PrLabel)
    requires i < |seen|
  {
    && IsOldestAt(seen, i)
    && w == if |a.existing| == 0 && a.created.Ok? && seen[i].id == a.created.value.id then a.created.value else seen[i]
  }

  lemma WinnerAt(a: LabelAnswers, seen: seq<PrLabel>) returns (i: nat)
    requires seen != [] && seen == if a.existing != [] then a.existing else a.again
    ensures !NoLabel(a) && i < |seen| && TakenAt(a, seen, i, Winner(a))
  {
    i := PlaceOfOldest(seen);
    var oldest := Oldest(seen);
    if Makes(a) && oldest.id == a.created.value.id {
      assert Winner(a) == a.created.value;
    } else {
      assert Winner(a) == oldest;
    }
  }

  /**
   * No label can be had exactly if Linear never shows one. Otherwise it is the first of the oldest labels there were, or
   * if there were none the first of the oldest seen after one was made or failed to be; and the one this run made if no
   * label is seen even then, or if that is the one.
   */
  lemma LabelIs(a: LabelAnswers) returns (i: nat)
    ensures NoLabel(a) <==> |a.existing| == 0 && |a.again| == 0 && a.created.Rejected?
    ensures Makes(a) <==> |a.existing| == 0 && a.created.Ok?
    ensures !NoLabel(a) ==>
              var seen := if |a.existing| > 0 then a.existing else a.again;
              if |seen| == 0 then a.created == Ok(Winner(a)) else i < |seen| && TakenAt(a, seen, i, Winner(a))
  {
    i := 0;
    var seen := if a.existing != [] then a.existing else a.again;
    if seen != [] { i := WinnerAt(a, seen); }
  }

  /**
   * A label with the prefix that is the oldest of those seen last. It is reported as created only if this run made it,
   * and as orphaned if this run made another one.
   */
  method FindOrCreateLabel(prefix: string, a: LabelAnswers) returns (found: Result<Found, nat>)
    requires AnswersOk(prefix, a)
    ensures found.Rejected? <==> NoLabel(a)
    ensures found.Ok? ==>
              && found.value.chosen == Winner(a) && prefix <= Winner(a).name
              && (found.value.created <==> Makes(a) && Winner(a).id == a.created.value.id)
              && found.value.orphaned
                 == if Makes(a) && Winner(a).id != a.created.value.id then Some(a.created.value.name) else None
  {
    if a.existing != [] { var _ := PlaceOfOldest(a.existing); }
    if a.again != [] { var _ := PlaceOfOldest(a.again); }
    if a.existing != [] { return Ok(Found(Oldest(a.existing), false, None)); }
    if a.created.Rejected? {
      // Someone may have created one in the meantime.
      if a.again != [] { return Ok(Found(Oldest(a.again), false, None)); }
      return Rejected(a.created.reason);
    }
    var made := a.created.value;
    var winner := if a.again != [] then Oldest(a.again) else made;
    if winner.id == made.id { return Ok(Found(made, true, None)); }
    return Ok(Found(winner, false, Some(made.name)));
  }

  // ---- The run ---------------------------------------------------------------------------------------------------

  /** Which calls fail: the comparison with an issue's current labels, the pull request, an issue's update. */
  datatype Failures = Failures(compare: set<nat>, pull: bool, update: set<nat>)

  datatype Kind = NothingToDo | PrClosedUnmerged | NoCompletedIssues | Labelled

  /** `created` and `orphaned` are about the label; the rest are identifiers of issues. */
  datatype Report = Report(kind: Kind, created: bool, orphaned: Option<string>, added: seq<nat>, replaced: seq<nat>,
                           keptNewer: seq<nat>, closedBefore: seq<nat>, failed: seq<nat>)

  function Plain(kind: Kind, keptNewer: seq<nat>, closedBefore: seq<nat>, failed: seq<nat>): Report {
    Report(kind, false, None, [], [], keptNewer, closedBefore, failed)
  }

  /** Those of some issues that are in a set, in their order. */
  function Those(ids: seq<nat>, s: set<nat>): seq<nat> {
    if ids == [] then []
    else Those(ids[..|ids| - 1], s) + (if ids[|ids| - 1] in s then [ids[|ids| - 1]] else [])
  }

  lemma OneMore(ids: seq<nat>, s: set<nat>, i: nat)
    requires i < |ids|
    ensures Those(ids[..i + 1], s) == Those(ids[..i], s) + (if ids[i] in s then [ids[i]] else [])
  {
    assert ids[..i + 1][..i] == ids[..i];
  }

  lemma {:induction false} ThoseAre(ids: seq<nat>, s: set<nat>)
    requires forall i, j | 0 <= i < j < |ids| :: ids[i] != ids[j]
    ensures forall id :: id in Those(ids, s) <==> id in ids && id in s
    ensures forall i, j | 0 <= i < j < |Those(ids, s)| :: Those(ids, s)[i] != Those(ids, s)[j]
  {
    if ids != [] {
      var init := ids[..|ids| - 1];
      ThoseAre(init, s);
      assert ids == init + [ids[|ids| - 1]];
    }
  }

  lemma {:induction false} ThoseOfThose(ids: seq<nat>, s: set<nat>, t: set<nat>)
    ensures Those(Those(ids, s), t) == Those(ids, s * t)
  {
    if ids != [] {
      var init, last := ids[..|ids| - 1], ids[|ids| - 1];
      ThoseOfThose(init, s, t);
      if last in s {
        var some := Those(init, s) + [last];
        assert Those(ids, s) == some && some[..|some| - 1] == Those(init, s);
      } else {
        assert Those(ids, s) == Those(init, s);
      }
    }
  }

  lemma {:induction false} NoneThose(ids: seq<nat>, s: set<nat>)
    requires forall id | id in s :: id in ids
    ensures Those(ids, s) == [] <==> s == {}
  {
    if s != {} {
      var id := AnyOf(s);
      var i :| 0 <= i < |ids| && ids[i] == id;
      InThose(ids, s, i);
    } else {
      NoneOfNone(ids);
    }
  }

  lemma {:induction false} InThose(ids: seq<nat>, s: set<nat>, i: nat)
    requires i < |ids| && ids[i] in s
    ensures ids[i] in Those(ids, s)
  {
    if i < |ids| - 1 {
      assert ids[..|ids| - 1][i] == ids[i];
      InThose(ids[..|ids| - 1], s, i);
    }
  }

  lemma {:induction false} NoneOfNone(ids: seq<nat>)
    ensures Those(ids, {}) == []
  {
    if ids != [] { NoneOfNone(ids[..|ids| - 1]); }
  }

  // What the issues, the pull request and the failures decide ------------------------------------------------------

  /** The issues of the team that do not carry the PR's label already: they are compared. */
  function Compared(issues: map<nat, Issue>, ids: seq<nat>, number: nat): set<nat> {
    set id | id in ids && id in issues && number in issues[id].links
             && issues[id].inTeam && !Carries(issues[id].labels, number)
  }

  function Candidates(issues: map<nat, Issue>, ids: seq<nat>, number: nat, f: Failures): set<nat> {
    set id | id in Compared(issues, ids, number) && id !in f.compare
             && Reconcile.LinkedAfterCurrentLabels(issues[id], number)
  }

  function KeptNewer(issues: map<nat, Issue>, ids: seq<nat>, number: nat, f: Failures): set<nat> {
    Compared(issues, ids, number) - f.compare - Candidates(issues, ids, number, f)
  }

  function Named(issues: map<nat, Issue>, pull: Pull): set<nat> {
    set id | id in issues && issues[id].identifier in pull.completes
  }

  function References(issues: map<nat, Issue>, pull: Pull): set<nat> {
    set id | id in issues && IsReference(issues[id], pull)
  }

  /** The issues a run of the PR is to label. */
  function TargetsOf(issues: map<nat, Issue>, ids: seq<nat>, pull: Pull, f: Failures): set<nat> {
    Candidates(issues, ids, pull.number, f) * Named(issues, pull) - References(issues, pull)
  }

  function Unlabelled(issues: map<nat, Issue>): set<nat> { set id | id in issues && issues[id].labels == [] }

  /** What puts an issue into each of these sets, said of the issue itself. */
  lemma IssueIs(issues: map<nat, Issue>, ids: seq<nat>, pull: Pull, f: Failures, id: nat)
    ensures var n, issue := pull.number, if id in issues then Some(issues[id]) else None;
            var compared := id in ids && issue.Some? && n in issue.value.links && issue.value.inTeam &&
                            forall l | l in issue.value.labels :: !(Prefix(n) <= l.name);
            && (id in Compared(issues, ids, n) <==> compared)
            && (id in Candidates(issues, ids, n, f)
                <==> compared && id !in f.compare
                     && forall q: nat | HasLabelOf(issue.value, q) :: issue.value.links[q] < issue.value.links[n])
            && (id in KeptNewer(issues, ids, n, f)
                <==> compared && id !in f.compare
                     && exists q: nat :: HasLabelOf(issue.value, q) && issue.value.links[q] >= issue.value.links[n])
            && (id in Named(issues, pull) <==> issue.Some? && issue.value.identifier in pull.completes)
            && (id in References(issues, pull)
                <==> issue.Some? && issue.value.closedAt.Some? && issue.value.closedAt.value < pull.openedAt)
            && (id in Unlabelled(issues) <==> issue.Some? && |issue.value.labels| == 0)
  {
    if id in issues && pull.number in issues[id].links { OutrankedIff(issues[id], pull.number); }
  }

  /** The issues once the label was put on some of them, except where that fails. */
  function Relabelled(was: map<nat, Issue>, done: seq<nat>, l: IssueLabel, f: Failures): map<nat, Issue> {
    map id | id in was :: if id in done && id !in f.update then was[id].(labels := [l]) else was[id]
  }

  lemma RelabelOne(was: map<nat, Issue>, done: seq<nat>, id: nat, l: IssueLabel, f: Failures)
    requires id in was && id !in done
    ensures Relabelled(was, done, l, f)[id] == was[id]
    ensures Relabelled(was, done + [id], l, f)
            == if id in f.update then Relabelled(was, done, l, f)
               else Relabelled(was, done, l, f)[id := was[id].(labels := [l])]
  {
  }

  class Tracker {
    var issues: map<nat, Issue>

    ghost predicate Attached(ids: seq<nat>, number: nat) reads this {
      && (forall id | id in ids :: id in issues && number in issues[id].links)
      && (forall i, j | 0 <= i < j < |ids| :: ids[i] != ids[j])
    }

    /** Compares the PR with every PR whose label the issue carries. */
    method LinkedAfterCurrentLabels(id: nat, number: nat) returns (after: bool)
      requires id in issues && number in issues[id].links
      ensures after == Reconcile.LinkedAfterCurrentLabels(issues[id], number)
    {
      var issue := issues[id];
      for i := 0 to |issue.labels|
        invariant forall k | 0 <= k < i :: !Outranks(issue.labels[k], issue.links, number)
      {
        var other := NumberOf(issue.labels[i].name);
        if other.None? || other.value < 0 || other.value !in issue.links { continue; }
        if issue.links[other.value] >= issue.links[number] {
          assert Outranks(issue.labels[i], issue.links, number) && issue.labels[i] in issue.labels;
          return false;
        }
      }
      return true;
    }

    /** Sorts the attached issues into candidates, issues kept by a newer PR, and failures. */
    method Compare(ids: seq<nat>, number: nat, f: Failures)
      returns (candidates: seq<nat>, keptNewer: seq<nat>, failed: seq<nat>)
      requires Attached(ids, number)
      ensures candidates == Those(ids, Candidates(issues, ids, number, f))
      ensures keptNewer == Those(ids, KeptNewer(issues, ids, number, f))
      ensures failed == Those(ids, Compared(issues, ids, number) * f.compare)
    {
      candidates, keptNewer, failed := [], [], [];
      for i := 0 to |ids|
        invariant candidates == Those(ids[..i], Candidates(issues, ids, number, f))
        invariant keptNewer == Those(ids[..i], KeptNewer(issues, ids, number, f))
        invariant failed == Those(ids[..i], Compared(issues, ids, number) * f.compare)
      {
        var id := ids[i];
        assert ids[..i + 1][..i] == ids[..i];
        if !issues[id].inTeam || Carries(issues[id].labels, number) { continue; }
        if id in f.compare {
          failed := failed + [id];
          continue;
        }
        var after := LinkedAfterCurrentLabels(id, number);
        if after { candidates := candidates + [id]; } else { keptNewer := keptNewer + [id]; }
      }
      assert ids[..|ids|] == ids;
    }

    /** The candidates the pull request completes, without those it only mentions. */
    method Targets(candidates: seq<nat>, pull: Pull) returns (targets: seq<nat>, closedBefore: seq<nat>)
      requires forall id | id in candidates :: id in issues
      ensures targets == Those(candidates, Named(issues, pull) - References(issues, pull))
      ensures closedBefore == Those(candidates, Named(issues, pull) * References(issues, pull))
    {
      targets, closedBefore := [], [];
      for i := 0 to |candidates|
        invariant targets == Those(candidates[..i], Named(issues, pull) - References(issues, pull))
        invariant closedBefore == Those(candidates[..i], Named(issues, pull) * References(issues, pull))
      {
        var id := candidates[i];
        assert candidates[..i + 1][..i] == candidates[..i];
        if issues[id].identifier !in pull.completes { continue; }
        if IsReference(issues[id], pull) { closedBefore := closedBefore + [id]; } else { targets := targets + [id]; }
      }
      assert candidates[..|candidates|] == candidates;
    }

    /** Puts the label on each target in place of the PR labels it has. */
    method Apply(targets: seq<nat>, l: IssueLabel, f: Failures)
      returns (added: seq<nat>, replaced: seq<nat>, failed: seq<nat>)
      requires forall id | id in targets :: id in issues
      requires forall i, j | 0 <= i < j < |targets| :: targets[i] != targets[j]
      modifies this
      ensures issues == Relabelled(old(issues), targets, l, f)
      ensures added == Those(targets, Unlabelled(old(issues)) - f.update)
      ensures replaced == Those(targets, old(issues).Keys - Unlabelled(old(issues)) - f.update)
      ensures failed == Those(targets, f.update)
    {
      added, replaced, failed := [], [], [];
      ghost var was := issues;
      assert issues == Relabelled(was, [], l, f);
      for i := 0 to |targets|
        invariant issues == Relabelled(was, targets[..i], l, f)
        invariant added == Those(targets[..i], Unlabelled(was) - f.update)
        invariant replaced == Those(targets[..i], was.Keys - Unlabelled(was) - f.update)
        invariant failed == Those(targets[..i], f.update)
      {
        var id := targets[i];
        OneMore(targets, Unlabelled(was) - f.update, i);
        OneMore(targets, was.Keys - Unlabelled(was) - f.update, i);
        OneMore(targets, f.update, i);
        assert targets[..i + 1] == targets[..i] + [id] && id !in targets[..i];
        RelabelOne(was, targets[..i], id, l, f);
        if id in f.update {
          failed := failed + [id];
          continue;
        }
        var stale := issues[id].labels;
        issues := issues[id := issues[id].(labels := [l])];
        if stale != [] { replaced := replaced + [id]; } else { added := added + [id]; }
      }
      assert targets[..|targets|] == targets;
    }

    /** What a run that is not refused reports: its kind is decided by the first of these conditions that holds. */
    ghost predicate Reported(was: map<nat, Issue>, ids: seq<nat>, pull: Pull, answers: LabelAnswers, f: Failures, r: Report)
    {
      var candidates, targets := Candidates(was, ids, pull.number, f), TargetsOf(was, ids, pull, f);
      var compareFailed := Those(ids, Compared(was, ids, pull.number) * f.compare);
      && (r.kind.NothingToDo? <==> candidates == {})
      && (r.kind.PrClosedUnmerged? <==> candidates != {} && pull.closedUnmerged)
      && (r.kind.NoCompletedIssues? <==> candidates != {} && !pull.closedUnmerged && targets == {})
      && (r.kind.Labelled? <==> candidates != {} && !pull.closedUnmerged && targets != {})
      && r.keptNewer == Those(ids, KeptNewer(was, ids, pull.number, f))
      && r.closedBefore
         == (if r.kind.NothingToDo? || r.kind.PrClosedUnmerged? then []
             else Those(ids, candidates * Named(was, pull) * References(was, pull)))
      && r.failed == compareFailed + (if r.kind.Labelled? then Those(ids, targets * f.update) else [])
      && r.added == (if r.kind.Labelled? then Those(ids, targets * Unlabelled(was) - f.update) else [])
      && r.replaced == (if r.kind.Labelled? then Those(ids, targets - Unlabelled(was) - f.update) else [])
      && (r.created <==> r.kind.Labelled? && !NoLabel(answers) && Makes(answers)
                         && Winner(answers).id == answers.created.value.id)
      && r.orphaned == (if r.kind.Labelled? && !NoLabel(answers) && Makes(answers)
                           && Winner(answers).id != answers.created.value.id
                        then Some(answers.created.value.name) else None)
    }

    /** The run cannot go on: it cannot read the pull request, or there is an issue to label and no label to be had. */
    ghost predicate IsRefused(was: map<nat, Issue>, ids: seq<nat>, pull: Pull, answers: LabelAnswers, f: Failures) {
      && Candidates(was, ids, pull.number, f) != {}
      && (f.pull || (!pull.closedUnmerged && TargetsOf(was, ids, pull, f) != {} && NoLabel(answers)))
    }

    /**
     * A whole run over every attached issue. It is refused exactly if `IsRefused` says so and then changes nothing; else
     * it reports exactly what `Reported` says. Each issue ends as `AfterRun` says, with the one label the run found or
     * made, unless a call about that issue failed.
     */
    method ReconcilePullRequest(ids: seq<nat>, pull: Pull, answers: LabelAnswers, f: Failures)
      returns (report: Result<Report, nat>, l: Option<IssueLabel>)
      requires Attached(ids, pull.number) && AnswersOk(Prefix(pull.number), answers)
      requires forall id | id in issues && pull.number in issues[id].links :: id in ids
      modifies this
      ensures issues.Keys == old(issues).Keys
      ensures report.Rejected? <==> IsRefused(old(issues), ids, pull, answers, f)
      ensures report.Ok? ==> Reported(old(issues), ids, pull, answers, f, report.value)
      ensures l.Some? <==> report.Ok? && report.value.kind.Labelled?
      ensures l.Some? ==> !NoLabel(answers) && l.value == IssueLabel(Winner(answers).id, Winner(answers).name)
                          && Prefix(pull.number) <= l.value.name
      ensures l.Some? ==> forall id | id in issues ::
                issues[id] == if id in f.compare || id in f.update then old(issues)[id]
                              else AfterRun(old(issues)[id], pull, l.value)
      ensures l.None? ==> issues == old(issues)
      ensures l.None? && report.Ok? ==> forall id | id in issues && id !in f.compare :: !Relabels(issues[id], pull)
      ensures report.Ok? ==> forall id :: id in report.value.added + report.value.replaced
                                          <==> id in issues && issues[id] != old(issues)[id]
    {
      ghost var was := issues;
      var candidates, keptNewer, failed := Compare(ids, pull.number, f);
      l := None;
      NoneThose(ids, Candidates(was, ids, pull.number, f));
      ThoseAre(ids, Candidates(was, ids, pull.number, f));
      TargetsRelabel(was, ids, pull, f);
      if candidates == [] { return Ok(Plain(NothingToDo, keptNewer, [], failed)), l; }
      if f.pull { return Rejected(0), l; }
      if pull.closedUnmerged { return Ok(Plain(PrClosedUnmerged, keptNewer, [], failed)), l; }
      var targets, closedBefore := Targets(candidates, pull);
      TargetsAre(was, ids, pull, f);
      if targets == [] { return Ok(Plain(NoCompletedIssues, keptNewer, closedBefore, failed)), l; }
      report, l := LabelTargets(ids, targets, pull, answers, f, keptNewer, closedBefore, failed);
    }

    /** The end of a run that has issues to label. */
    method LabelTargets(ids: seq<nat>, targets: seq<nat>, pull: Pull, answers: LabelAnswers, f: Failures,
                        keptNewer: seq<nat>, closedBefore: seq<nat>, failed: seq<nat>)
      returns (report: Result<Report, nat>, l: Option<IssueLabel>)
      requires Attached(ids, pull.number) && AnswersOk(Prefix(pull.number), answers)
      requires forall id | id in issues && pull.number in issues[id].links :: id in ids
      requires targets == Those(ids, TargetsOf(issues, ids, pull, f)) && !pull.closedUnmerged
      modifies this
      ensures issues.Keys == old(issues).Keys
      ensures report.Rejected? <==> NoLabel(answers)
      ensures report.Rejected? ==> l.None? && issues == old(issues)
      ensures report.Ok? ==>
                var ts, r := TargetsOf(old(issues), ids, pull, f), report.value;
                && r.kind.Labelled? && r.keptNewer == keptNewer && r.closedBefore == closedBefore
                && r.failed == failed + Those(ids, ts * f.update)
                && r.added == Those(ids, ts * Unlabelled(old(issues)) - f.update)
                && r.replaced == Those(ids, ts - Unlabelled(old(issues)) - f.update)
                && (r.created <==> Makes(answers) && Winner(answers).id == answers.created.value.id)
                && r.orphaned == (if Makes(answers) && Winner(answers).id != answers.created.value.id
                                  then Some(answers.created.value.name) else None)
                && l == Some(IssueLabel(Winner(answers).id, Winner(answers).name))
                && Prefix(pull.number) <= l.value.name
                && (forall id | id in issues ::
                      issues[id] == if id in f.compare || id in f.update then old(issues)[id]
                                    else AfterRun(old(issues)[id], pull, l.value))
                && (forall id :: id in r.added + r.replaced <==> id in issues && issues[id] != old(issues)[id])
    {
      ghost var was, ts := issues, TargetsOf(issues, ids, pull, f);
      TargetsAre(was, ids, pull, f);
      var found := FindOrCreateLabel(Prefix(pull.number), answers);
      if found.Rejected? { return Rejected(found.reason), None; }
      var chosen := IssueLabel(found.value.chosen.id, found.value.chosen.name);
      var added, replaced, notUpdated := Apply(targets, chosen, f);
      ApplyAre(was, ids, ts, f);
      RelabelledAre(was, ids, pull, f, chosen);
      report := Ok(Report(Labelled, found.value.created, found.value.orphaned, added, replaced, keptNewer, closedBefore,
                          failed + notUpdated));
      l := Some(chosen);
    }
  }

  /** The targets are the issues the per-issue model relabels, but for those whose comparison fails. */
  lemma TargetsRelabel(was: map<nat, Issue>, ids: seq<nat>, pull: Pull, f: Failures)
    requires forall id | id in was && pull.number in was[id].links :: id in ids
    ensures forall id | id in was :: id in TargetsOf(was, ids, pull, f) && !pull.closedUnmerged
                                     <==> id !in f.compare && Relabels(was[id], pull)
  {
  }

  lemma TargetsAre(was: map<nat, Issue>, ids: seq<nat>, pull: Pull, f: Failures)
    requires forall i, j | 0 <= i < j < |ids| :: ids[i] != ids[j]
    ensures var cs, ts := Candidates(was, ids, pull.number, f), TargetsOf(was, ids, pull, f);
            && Those(Those(ids, cs), Named(was, pull) - References(was, pull)) == Those(ids, ts)
            && Those(Those(ids, cs), Named(was, pull) * References(was, pull))
               == Those(ids, cs * Named(was, pull) * References(was, pull))
            && (Those(ids, ts) == [] <==> ts == {})
            && (forall id :: id in Those(ids, ts) <==> id in ts)
            && (forall i, j | 0 <= i < j < |Those(ids, ts)| :: Those(ids, ts)[i] != Those(ids, ts)[j])
  {
    var cs, ts := Candidates(was, ids, pull.number, f), TargetsOf(was, ids, pull, f);
    ThoseOfThose(ids, cs, Named(was, pull) - References(was, pull));
    ThoseOfThose(ids, cs, Named(was, pull) * References(was, pull));
    assert cs * (Named(was, pull) - References(was, pull)) == ts;
    assert cs * (Named(was, pull) * References(was, pull)) == cs * Named(was, pull) * References(was, pull);
    NoneThose(ids, ts);
    ThoseAre(ids, ts);
  }

  lemma ApplyAre(was: map<nat, Issue>, ids: seq<nat>, ts: set<nat>, f: Failures)
    requires ts <= was.Keys
    ensures Those(Those(ids, ts), Unlabelled(was) - f.update) == Those(ids, ts * Unlabelled(was) - f.update)
    ensures Those(Those(ids, ts), was.Keys - Unlabelled(was) - f.update) == Those(ids, ts - Unlabelled(was) - f.update)
    ensures Those(Those(ids, ts), f.update) == Those(ids, ts * f.update)
  {
    ThoseOfThose(ids, ts, Unlabelled(was) - f.update);
    ThoseOfThose(ids, ts, was.Keys - Unlabelled(was) - f.update);
    ThoseOfThose(ids, ts, f.update);
    assert ts * (Unlabelled(was) - f.update) == ts * Unlabelled(was) - f.update;
    assert ts * (was.Keys - Unlabelled(was) - f.update) == ts - Unlabelled(was) - f.update;
  }

  /** A target did not carry this label, so labelling it changes it. */
  lemma ChangedAre(was: map<nat, Issue>, ids: seq<nat>, pull: Pull, f: Failures, l: IssueLabel)
    requires forall i, j | 0 <= i < j < |ids| :: ids[i] != ids[j]
    requires Prefix(pull.number) <= l.name
    ensures var ts := TargetsOf(was, ids, pull, f);
            && (forall id :: id in Those(ids, ts * Unlabelled(was) - f.update) + Those(ids, ts - Unlabelled(was) - f.update)
                             <==> id in ts && id !in f.update)
            && (forall id | id in ts :: id in was && was[id].(labels := [l]) != was[id])
  {
    var ts := TargetsOf(was, ids, pull, f);
    ThoseAre(ids, ts * Unlabelled(was) - f.update);
    ThoseAre(ids, ts - Unlabelled(was) - f.update);
    forall id | id in ts ensures was[id].(labels := [l]) != was[id] {
      if was[id].labels == [l] { assert l in was[id].labels && Carries(was[id].labels, pull.number); }
    }
  }

  /** Labelling the targets is running the per-issue model on every issue, and changes the issues it is reported for. */
  lemma RelabelledAre(was: map<nat, Issue>, ids: seq<nat>, pull: Pull, f: Failures, l: IssueLabel)
    requires forall i, j | 0 <= i < j < |ids| :: ids[i] != ids[j]
    requires forall id | id in was && pull.number in was[id].links :: id in ids
    requires Prefix(pull.number) <= l.name && !pull.closedUnmerged
    ensures var ts := TargetsOf(was, ids, pull, f); var now := Relabelled(was, Those(ids, ts), l, f);
            && (forall id | id in was ::
                  now[id] == if id in f.compare || id in f.update then was[id] else AfterRun(was[id], pull, l))
            && (forall id :: id in Those(ids, ts * Unlabelled(was) - f.update) + Those(ids, ts - Unlabelled(was) - f.update)
                             <==> id in was && now[id] != was[id])
  {
    var ts := TargetsOf(was, ids, pull, f);
    var now := Relabelled(was, Those(ids, ts), l, f);
    TargetsAre(was, ids, pull, f);
    TargetsRelabel(was, ids, pull, f);
    ChangedAre(was, ids, pull, f, l);
    forall id | id in was
      ensures now[id] == if id in f.compare || id in f.update then was[id] else AfterRun(was[id], pull, l)
    {
      assert id in ts <==> id !in f.compare && Relabels(was[id], pull);
    }
  }
}
