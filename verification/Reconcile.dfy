/**
 * Reconciling PR labels: every issue a pull request completes carries the label of the PR that was linked to it last.
 *
 * `AfterRun` is what one run does to one issue. Runs of any PRs, in any order and with any repeats, settle an issue on
 * labels that depend only on which PRs ran.
 */
module Reconcile {
  import opened Common
  import opened PrLabels

  datatype IssueLabel = IssueLabel(id: nat, name: string)

  /** `links` says when each PR was attached to the issue, `labels` are its labels of the PR group. */
  datatype Issue = Issue(identifier: nat, inTeam: bool, closedAt: Option<int>, links: map<nat, int>,
                         labels: seq<IssueLabel>)

  /** A pull request as a run reads it, with the identifiers of the issues it completes. */
  datatype Pull = Pull(number: nat, closedUnmerged: bool, completes: set<nat>, openedAt: int)

  predicate Carries(labels: seq<IssueLabel>, number: nat) { exists l | l in labels :: Prefix(number) <= l.name }

  /** The label's PR is still attached, and was attached no earlier than this one. */
  predicate Outranks(l: IssueLabel, links: map<nat, int>, number: nat)
    requires number in links
  {
    var other := NumberOf(l.name);
    other.Some? && other.value >= 0 && other.value in links && links[other.value] >= links[number]
  }

  predicate LinkedAfterCurrentLabels(issue: Issue, number: nat)
    requires number in issue.links
  {
    forall l | l in issue.labels :: !Outranks(l, issue.links, number)
  }

  /** The issue was completed or canceled before the PR opened: the PR only mentions it. */
  predicate IsReference(issue: Issue, pull: Pull) { issue.closedAt.Some? && issue.closedAt.value < pull.openedAt }

  /** The run would label the issue if the PR has not been overtaken. */
  predicate Qualifies(issue: Issue, pull: Pull) {
    && issue.inTeam && pull.number in issue.links && !pull.closedUnmerged
    && issue.identifier in pull.completes && !IsReference(issue, pull)
  }

  predicate Relabels(issue: Issue, pull: Pull) {
    Qualifies(issue, pull) && !Carries(issue.labels, pull.number) && LinkedAfterCurrentLabels(issue, pull.number)
  }

  /** One run on one issue, with the label it found or made. */
  function AfterRun(issue: Issue, pull: Pull, l: IssueLabel): Issue {
    if Relabels(issue, pull) then issue.(labels := [l]) else issue
  }

  /** A label of this number is on the issue, of a PR that is attached to it. */
  ghost predicate HasLabelOf(issue: Issue, q: nat) {
    q in issue.links && exists l :: l in issue.labels && NumberOf(l.name) == Some(q)
  }

  /**
   * One run gives the issue its label alone exactly if the issue is of the team, the PR is attached to it, was not closed
   * unmerged, completes it and did not open after it was closed, and no label of the issue starts with the PR's prefix or
   * is that of a PR attached at the same time or later. Otherwise it changes nothing.
   */
  lemma AfterRunIs(issue: Issue, pull: Pull, l: IssueLabel)
    ensures var n := pull.number;
            AfterRun(issue, pull, l) ==
            if && issue.inTeam && n in issue.links && !pull.closedUnmerged && issue.identifier in pull.completes
               && (issue.closedAt.Some? ==> issue.closedAt.value >= pull.openedAt)
               && (forall m | m in issue.labels :: !(Prefix(n) <= m.name))
               && (forall q: nat | HasLabelOf(issue, q) :: issue.links[q] < issue.links[n])
            then Issue(issue.identifier, issue.inTeam, issue.closedAt, issue.links, [l]) else issue
  {
    if pull.number in issue.links { OutrankedIff(issue, pull.number); }
  }

  lemma OutrankedIff(issue: Issue, number: nat)
    requires number in issue.links
    ensures LinkedAfterCurrentLabels(issue, number)
            <==> forall q: nat | HasLabelOf(issue, q) :: issue.links[q] < issue.links[number]
  {
    if LinkedAfterCurrentLabels(issue, number) {
      forall q: nat | HasLabelOf(issue, q) ensures issue.links[q] < issue.links[number] {
        var l :| l in issue.labels && NumberOf(l.name) == Some(q);
        assert !Outranks(l, issue.links, number);
      }
    }
    if forall q: nat | HasLabelOf(issue, q) :: issue.links[q] < issue.links[number] {
      forall l | l in issue.labels ensures !Outranks(l, issue.links, number) {
        var other := NumberOf(l.name);
        assert other.Some? && other.value >= 0 && other.value in issue.links ==> HasLabelOf(issue, other.value);
      }
    }
  }

  // ---- Any sequence of runs --------------------------------------------------------------------------------------

  /** What can happen to an issue: a PR is attached, or a run comes through; a run that fails on it does nothing. */
  datatype Event = Attach(number: nat, at: int) | RunOf(pull: Pull, found: IssueLabel)

  /** The first attachment of a PR is the one that counts. */
  function Next(issue: Issue, e: Event): Issue {
    match e
    case Attach(n, at) => if n in issue.links then issue else issue.(links := issue.links[n := at])
    case RunOf(pull, found) => AfterRun(issue, pull, found)
  }

  /** A PR is attached once, at its first time; nothing else of the issue changes. */
  lemma AttachDoes(issue: Issue, n: nat, at: int)
    ensures var next := Next(issue, Attach(n, at));
            next == Issue(issue.identifier, issue.inTeam, issue.closedAt,
                          if n in issue.links then issue.links else issue.links[n := at], issue.labels)
  {
  }

  function After(issue: Issue, events: seq<Event>): Issue
    decreases |events|
  {
    if events == [] then issue else After(Next(issue, events[0]), events[1..])
  }

  /** The PRs that ran on the issue while attached to it and qualifying. */
  function Ran(issue: Issue, events: seq<Event>): set<nat>
    decreases |events|
  {
    if events == [] then {}
    else
      (if events[0].RunOf? && Qualifies(issue, events[0].pull) then {events[0].pull.number} else {})
      + Ran(Next(issue, events[0]), events[1..])
  }

  /** A run uses a label of its own PR; and no PR is attached late of which the issue had a label from the start. */
  ghost predicate EventOk(first: seq<IssueLabel>, e: Event) {
    match e
    case RunOf(pull, found) => Prefix(pull.number) <= found.name
    case Attach(n, _) => forall l | l in first :: NumberOf(l.name) != Some(n)
  }

  /** The labels the issue started with keep this PR from labelling it. */
  ghost predicate Held(first: seq<IssueLabel>, links: map<nat, int>, number: nat)
    requires number in links
  {
    Carries(first, number) || exists l | l in first :: Outranks(l, links, number)
  }

  /** This PR was linked last of those that ran, and the issue carries its label alone. */
  ghost predicate Wins(issue: Issue, ran: set<nat>, number: nat)
    requires ran <= issue.links.Keys
  {
    && number in ran && |issue.labels| == 1 && Prefix(number) <= issue.labels[0].name
    && forall q | q in ran :: issue.links[q] <= issue.links[number]
  }

  /**
   * Where an issue stands after some PRs have run: as it started, if its first labels hold them all; or with the label
   * of one that they do not hold, and that was linked last.
   */
  ghost predicate Settled(first: seq<IssueLabel>, ran: set<nat>, issue: Issue) {
    && ran <= issue.links.Keys
    && (|| (issue.labels == first && forall q | q in ran :: Held(first, issue.links, q))
        || exists m | m in ran :: Wins(issue, ran, m) && !Held(first, issue.links, m))
  }

  /** What holds a PR back was linked no earlier, so a PR that nothing holds back was linked later than it. */
  lemma UnheldIsLater(first: seq<IssueLabel>, links: map<nat, int>, held: nat, m: nat)
    requires held in links && m in links && Held(first, links, held) && !Held(first, links, m)
    ensures links[held] < links[m]
  {
    if Carries(first, held) {
      var l :| l in first && Prefix(held) <= l.name;
      PrefixReadsBack(held, l.name);
      assert !Outranks(l, links, m);
    } else {
      var l :| l in first && Outranks(l, links, held);
      assert !Outranks(l, links, m);
    }
  }

  /** A run of a PR that was held back by the first labels, or came to an issue still as it started. */
  lemma RunFromFirst(first: seq<IssueLabel>, ran: set<nat>, issue: Issue, pull: Pull, found: IssueLabel)
    requires ran <= issue.links.Keys && issue.labels == first && forall q | q in ran :: Held(first, issue.links, q)
    requires Prefix(pull.number) <= found.name && Qualifies(issue, pull)
    ensures Settled(first, ran + {pull.number}, AfterRun(issue, pull, found))
  {
    var p, next := pull.number, AfterRun(issue, pull, found);
    if Relabels(issue, pull) {
      assert !Held(first, issue.links, p);
      forall q | q in ran ensures issue.links[q] <= issue.links[p] {
        UnheldIsLater(first, issue.links, q, p);
      }
      assert Wins(next, ran + {p}, p);
    } else {
      assert Held(first, issue.links, p);
    }
  }

  lemma RunFromWinner(first: seq<IssueLabel>, ran: set<nat>, issue: Issue, pull: Pull, found: IssueLabel, m: nat)
    requires ran <= issue.links.Keys && Wins(issue, ran, m) && !Held(first, issue.links, m)
    requires Prefix(pull.number) <= found.name && Qualifies(issue, pull)
    ensures Settled(first, ran + {pull.number}, AfterRun(issue, pull, found))
  {
    var p, next := pull.number, AfterRun(issue, pull, found);
    PrefixReadsBack(m, issue.labels[0].name);
    assert issue.labels == [issue.labels[0]];
    if Relabels(issue, pull) {
      assert !Outranks(issue.labels[0], issue.links, p);
      if Held(first, issue.links, p) { UnheldIsLater(first, issue.links, p, m); }
      assert Wins(next, ran + {p}, p);
    } else {
      if Carries(issue.labels, p) { PrefixesDiffer(p, m, issue.labels[0].name); }
      assert issue.links[p] <= issue.links[m];
      assert Wins(next, ran + {p}, m);
    }
  }

  lemma RunKeepsSettled(first: seq<IssueLabel>, ran: set<nat>, issue: Issue, pull: Pull, found: IssueLabel)
    requires Settled(first, ran, issue) && Prefix(pull.number) <= found.name && Qualifies(issue, pull)
    ensures Settled(first, ran + {pull.number}, AfterRun(issue, pull, found))
  {
    if issue.labels == first && forall q | q in ran :: Held(first, issue.links, q) {
      RunFromFirst(first, ran, issue, pull, found);
    } else {
      var m :| m in ran && Wins(issue, ran, m) && !Held(first, issue.links, m);
      RunFromWinner(first, ran, issue, pull, found, m);
    }
  }

  lemma AttachKeepsSettled(first: seq<IssueLabel>, ran: set<nat>, issue: Issue, n: nat, at: int)
    requires Settled(first, ran, issue) && EventOk(first, Attach(n, at))
    ensures Settled(first, ran, Next(issue, Attach(n, at)))
  {
  }

  lemma {:induction false} Settles(first: seq<IssueLabel>, ran: set<nat>, issue: Issue, events: seq<Event>)
    requires Settled(first, ran, issue) && forall e | e in events :: EventOk(first, e)
    ensures Settled(first, ran + Ran(issue, events), After(issue, events))
    decreases |events|
  {
    if events == [] {
      assert ran + {} == ran;
    } else {
      var e := events[0];
      var now := if e.RunOf? && Qualifies(issue, e.pull) then {e.pull.number} else {};
      assert EventOk(first, e);
      assert ran + {} == ran;
      match e {
        case Attach(n, at) => AttachKeepsSettled(first, ran, issue, n, at);
        case RunOf(pull, found) => if Qualifies(issue, pull) { RunKeepsSettled(first, ran, issue, pull, found); }
      }
      Settles(first, ran + now, Next(issue, e), events[1..]);
      assert ran + now + Ran(Next(issue, e), events[1..]) == ran + Ran(issue, events);
    }
  }

  predicate Numbered(labels: seq<IssueLabel>) { exists l | l in labels :: NumberOf(l.name).Some? }

  /**
   * Label convergence. An issue that started without a numbered PR label carries, after any runs and attachments, the
   * label of the latest-linked PR that ran on it and qualified, and no other; and if none did, it has no numbered label.
   */
  lemma LabelsConverge(issue: Issue, events: seq<Event>)
    requires !Numbered(issue.labels) && forall e | e in events :: EventOk(issue.labels, e)
    ensures var ran, final := Ran(issue, events), After(issue, events);
            && ran <= final.links.Keys
            && (ran == {} ==> final.labels == issue.labels)
            && (ran != {} ==> exists m | m in ran :: Wins(final, ran, m))
  {
    Settles(issue.labels, {}, issue, events);
    var ran, final := Ran(issue, events), After(issue, events);
    assert {} + ran == ran;
    forall q | q in ran ensures !Held(issue.labels, final.links, q) {
      if Carries(issue.labels, q) {
        var l :| l in issue.labels && Prefix(q) <= l.name;
        PrefixReadsBack(q, l.name);
      }
    }
    if ran != {} { assert AnyOf(ran) in ran; }
  }

  /** Whichever way two runs of events went, if the same PRs ran and no two were linked at once, the PR is the same. */
  lemma WinnerIsUnique(a: Issue, b: Issue, ran: set<nat>, m: nat, n: nat)
    requires ran <= a.links.Keys && ran <= b.links.Keys
    requires forall q | q in ran :: a.links[q] == b.links[q]
    requires forall p, q | p in ran && q in ran && a.links[p] == a.links[q] :: p == q
    requires Wins(a, ran, m) && Wins(b, ran, n)
    ensures m == n
  {
  }

  /** From any first labels: they stay exactly when they hold back every PR that ran. */
  lemma FirstLabelsStayIff(issue: Issue, events: seq<Event>)
    requires forall e | e in events :: EventOk(issue.labels, e)
    ensures var ran, final := Ran(issue, events), After(issue, events);
            && ran <= final.links.Keys
            && (final.labels == issue.labels <==> forall q | q in ran :: Held(issue.labels, final.links, q))
            && (final.labels == issue.labels || exists m | m in ran :: Wins(final, ran, m))
  {
    Settles(issue.labels, {}, issue, events);
    var ran, final := Ran(issue, events), After(issue, events);
    assert {} + ran == ran;
    if exists m | m in ran :: Wins(final, ran, m) && !Held(issue.labels, final.links, m) {
      var m :| m in ran && Wins(final, ran, m) && !Held(issue.labels, final.links, m);
      assert final.labels[0] in final.labels;
      assert Carries(final.labels, m);
    }
  }

  /** Once settled, running any of those PRs again, whatever it qualifies for by now, changes nothing. */
  lemma RerunChangesNothing(first: seq<IssueLabel>, ran: set<nat>, issue: Issue, pull: Pull, found: IssueLabel)
    requires Settled(first, ran, issue) && pull.number in ran
    ensures AfterRun(issue, pull, found) == issue
  {
    var p := pull.number;
    if issue.labels == first && forall q | q in ran :: Held(first, issue.links, q) {
      assert Held(first, issue.links, p);
    } else {
      var m :| m in ran && Wins(issue, ran, m) && !Held(first, issue.links, m);
      PrefixReadsBack(m, issue.labels[0].name);
      assert issue.labels[0] in issue.labels;
      if p != m { assert Outranks(issue.labels[0], issue.links, p); }
    }
  }

  /** Two PRs linked at the same time: the one that runs first keeps the issue, so order matters. */
  lemma TieKeepsFirst(issue: Issue, first: Pull, second: Pull, a: IssueLabel, b: IssueLabel)
    requires issue.labels == [] && Qualifies(issue, first) && Qualifies(issue, second) && first.number != second.number
    requires issue.links[first.number] == issue.links[second.number]
    requires Prefix(first.number) <= a.name && Prefix(second.number) <= b.name
    ensures After(issue, [RunOf(first, a), RunOf(second, b)]).labels == [a]
    ensures After(issue, [RunOf(second, b), RunOf(first, a)]).labels == [b]
  {
    TieKeeps(issue, first, second, a, b);
    TieKeeps(issue, second, first, b, a);
  }

  lemma TieKeeps(issue: Issue, first: Pull, second: Pull, a: IssueLabel, b: IssueLabel)
    requires issue.labels == [] && Qualifies(issue, first) && Qualifies(issue, second) && first.number != second.number
    requires issue.links[first.number] == issue.links[second.number] && Prefix(first.number) <= a.name
    ensures After(issue, [RunOf(first, a), RunOf(second, b)]).labels == [a]
  {
    var events := [RunOf(first, a), RunOf(second, b)];
    PrefixReadsBack(first.number, a.name);
    var next := Next(issue, events[0]);
    assert next.labels == [a] && a in next.labels && Outranks(a, next.links, second.number);
    assert events[1..][1..] == [];
    assert After(issue, events) == After(next, events[1..]) == After(Next(next, events[1]), events[1..][1..]);
  }

  // ---- When order matters ----------------------------------------------------------------------------------------

  /** Runs that all qualify on this issue, each with a label of its own PR. */
  ghost predicate AllQualify(issue: Issue, runs: seq<Event>) {
    forall e | e in runs :: e.RunOf? && Prefix(e.pull.number) <= e.found.name && Qualifies(issue, e.pull)
  }

  /** None of the runs is of a PR that was linked later. */
  ghost predicate Latest(issue: Issue, runs: seq<Event>, e: Event)
    requires AllQualify(issue, runs)
  {
    e in runs && forall d | d in runs :: issue.links[d.pull.number] <= issue.links[e.pull.number]
  }

  /** In whatever order the runs come, the issue ends with a label of this PR. */
  ghost predicate AlwaysCarries(issue: Issue, runs: seq<Event>, number: nat) {
    forall order: seq<Event> | multiset(order) == multiset(runs) :: Carries(After(issue, order).labels, number)
  }

  lemma {:induction false} RanAll(issue: Issue, runs: seq<Event>)
    requires AllQualify(issue, runs)
    ensures After(issue, runs).links == issue.links
    ensures forall e | e in runs :: e.pull.number in Ran(issue, runs)
    ensures forall n | n in Ran(issue, runs) :: exists e :: e in runs && e.pull.number == n
    decreases |runs|
  {
    if runs != [] {
      var next := Next(issue, runs[0]);
      assert AllQualify(next, runs[1..]);
      RanAll(next, runs[1..]);
      forall e | e in runs ensures e.pull.number in Ran(issue, runs) {
        if e != runs[0] { assert e in runs[1..]; }
      }
      forall n | n in Ran(issue, runs) ensures exists e :: e in runs && e.pull.number == n {
        if n in Ran(next, runs[1..]) {
          var e :| e in runs[1..] && e.pull.number == n;
          assert e in runs;
        } else {
          assert runs[0] in runs;
        }
      }
    }
  }

  /** A label of a PR that nobody outdates stays. */
  lemma {:induction false} LatestStays(issue: Issue, e: Event, runs: seq<Event>)
    requires e.RunOf? && Prefix(e.pull.number) <= e.found.name && e.pull.number in issue.links
    requires issue.labels == [e.found] && AllQualify(issue, runs)
    requires forall d | d in runs :: issue.links[d.pull.number] <= issue.links[e.pull.number]
    ensures After(issue, runs).labels == [e.found]
    decreases |runs|
  {
    if runs != [] {
      PrefixReadsBack(e.pull.number, e.found.name);
      assert e.found in issue.labels && Outranks(e.found, issue.links, runs[0].pull.number);
      assert Next(issue, runs[0]) == issue;
      LatestStays(issue, e, runs[1..]);
    }
  }

  /** If a PR that nobody outdates can run first, the issue ends with its label. */
  lemma LatestFirst(issue: Issue, runs: seq<Event>, e: Event) returns (order: seq<Event>)
    requires issue.labels == [] && AllQualify(issue, runs) && Latest(issue, runs, e)
    ensures multiset(order) == multiset(runs) && After(issue, order).labels == [e.found]
  {
    var i :| 0 <= i < |runs| && runs[i] == e;
    var rest := runs[..i] + runs[i + 1..];
    order := [e] + rest;
    assert runs == runs[..i] + [e] + runs[i + 1..];
    assert forall d | d in rest :: d in runs;
    assert order[1..] == rest;
    var next := Next(issue, e);
    assert next == issue.(labels := [e.found]);
    LatestStays(next, e, rest);
  }

  /** Of runs in any order, the winner is one that nobody outdates. */
  lemma WinnerIsLatest(issue: Issue, runs: seq<Event>, order: seq<Event>, e: Event)
    requires issue.labels == [] && runs != [] && AllQualify(issue, runs) && multiset(order) == multiset(runs)
    requires Latest(issue, runs, e)
    requires forall d | Latest(issue, runs, d) :: d.pull.number == e.pull.number
    ensures Carries(After(issue, order).labels, e.pull.number)
  {
    forall d ensures d in order <==> d in runs {
      assert d in order <==> d in multiset(order);
      assert d in runs <==> d in multiset(runs);
    }
    assert AllQualify(issue, order);
    RanAll(issue, order);
    LabelsConverge(issue, order);
    var ran, final := Ran(issue, order), After(issue, order);
    assert e.pull.number in ran;
    var m :| m in ran && Wins(final, ran, m);
    var d :| d in order && d.pull.number == m;
    assert Latest(issue, runs, d);
    assert final.labels[0] in final.labels;
  }

  lemma {:induction false} SomeLatest(issue: Issue, runs: seq<Event>) returns (e: Event)
    requires AllQualify(issue, runs) && runs != []
    ensures Latest(issue, runs, e)
  {
    e := runs[0];
    if |runs| > 1 {
      assert AllQualify(issue, runs[1..]);
      var later := SomeLatest(issue, runs[1..]);
      if issue.links[e.pull.number] < issue.links[later.pull.number] { e := later; }
      assert forall d | d in runs :: d == runs[0] || d in runs[1..];
    }
  }

  /**
   * When the order of runs does not matter. Some PR's label is what the issue ends with in every order exactly if, of the
   * PRs that run, one alone was linked last.
   */
  lemma OrderNeverMattersIff(issue: Issue, runs: seq<Event>)
    requires issue.labels == [] && runs != [] && AllQualify(issue, runs)
    ensures (exists n :: AlwaysCarries(issue, runs, n))
            <==> (forall d, e | Latest(issue, runs, d) && Latest(issue, runs, e) :: d.pull.number == e.pull.number)
  {
    var last := SomeLatest(issue, runs);
    if forall d, e | Latest(issue, runs, d) && Latest(issue, runs, e) :: d.pull.number == e.pull.number {
      forall order: seq<Event> | multiset(order) == multiset(runs)
        ensures Carries(After(issue, order).labels, last.pull.number)
      {
        WinnerIsLatest(issue, runs, order, last);
      }
      assert AlwaysCarries(issue, runs, last.pull.number);
    }
    if n :| AlwaysCarries(issue, runs, n) {
      forall e | Latest(issue, runs, e) ensures e.pull.number == n {
        var order := LatestFirst(issue, runs, e);
        assert Carries([e.found], n);
        if e.pull.number != n { PrefixesDiffer(n, e.pull.number, e.found.name); }
      }
    }
  }
}
