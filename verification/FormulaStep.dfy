/**
 * The ensure step that gives every organisation the current absolute ABC formula: a stored formula version, and a state
 * that names a formula. It checks every organisation in one transaction, and any conflict rolls it all back.
 */
module FormulaStep {
  import opened Common

  type OrganizationId = nat
  type VersionId = nat

  /** The stored version of the current formula; its checksum is right or not the current payload's. */
  datatype Version = Version(id: VersionId, current: bool)

  datatype State = State(
    active: Option<VersionId>, formulaRevision: nat, publicationRevision: nat, mappingGeneration: nat,
    officialCutoff: Option<int>, publishedOperation: Option<nat>, publishedMapping: Option<nat>,
    publishedAt: Option<int>)

  datatype Tables = Tables(versions: map<OrganizationId, Version>, states: map<OrganizationId, State>)

  /** The state that a product mapping makes before there is any formula. */
  predicate MappingOnly(s: State) {
    && s.active.None? && s.formulaRevision == 0 && s.publicationRevision == 0
    && s.officialCutoff.None? && s.publishedOperation.None? && s.publishedMapping.None? && s.publishedAt.None?
  }

  function Baseline(version: VersionId): State { State(Some(version), 1, 0, 0, None, None, None, None) }

  datatype Outcome =
    | Ensured(version: VersionId, createdVersion: bool, createdState: bool, attachedState: bool)
    | ChecksumMismatch
    | UnattachedState

  /** One organisation, with the id a new version row would get. A conflict may come after the version was written. */
  function Ensure(t: Tables, o: OrganizationId, newId: VersionId): (Tables, Outcome) {
    if o in t.versions && !t.versions[o].current then (t, ChecksumMismatch)
    else
      var createdVersion := o !in t.versions;
      var version := if createdVersion then Version(newId, true) else t.versions[o];
      var versions := t.versions[o := version];
      if o !in t.states then
        (Tables(versions, t.states[o := Baseline(version.id)]), Ensured(version.id, createdVersion, true, false))
      else if MappingOnly(t.states[o]) then
        (Tables(versions, t.states[o := t.states[o].(active := Some(version.id), formulaRevision := 1)]),
         Ensured(version.id, createdVersion, false, true))
      else if t.states[o].active.None? then (Tables(versions, t.states), UnattachedState)
      else (Tables(versions, t.states), Ensured(version.id, createdVersion, false, false))
  }

  predicate HasMismatch(t: Tables, o: OrganizationId) { o in t.versions && !t.versions[o].current }

  /** The state names no formula, and yet has something of a formula or a publication about it. */
  predicate HasLooseState(t: Tables, o: OrganizationId) {
    o in t.states && t.states[o].active.None? &&
    var s := t.states[o];
    s.formulaRevision > 0 || s.publicationRevision > 0 || s.officialCutoff.Some? || s.publishedOperation.Some?
    || s.publishedMapping.Some? || s.publishedAt.Some?
  }

  predicate Conflicts(t: Tables, o: OrganizationId) { HasMismatch(t, o) || HasLooseState(t, o) }

  /** The organisation has what publication needs. */
  predicate Equipped(t: Tables, o: OrganizationId) {
    o in t.versions && t.versions[o].current && o in t.states && t.states[o].active.Some?
  }

  /** Rows of one organisation that differ. */
  function Changes(before: Tables, after: Tables, o: OrganizationId): nat {
    (if o in after.versions && (o !in before.versions || before.versions[o] != after.versions[o]) then 1 else 0)
    + (if o in after.states && (o !in before.states || before.states[o] != after.states[o]) then 1 else 0)
  }

  predicate SameOrganization(a: Tables, b: Tables, o: OrganizationId) {
    && (o in a.versions <==> o in b.versions) && (o in a.versions ==> a.versions[o] == b.versions[o])
    && (o in a.states <==> o in b.states) && (o in a.states ==> a.states[o] == b.states[o])
  }

  /** What was there and must stay: a state that names a formula, and the mapping generation of every state. */
  predicate Kept(before: Tables, after: Tables, o: OrganizationId) {
    o in before.states ==>
      && o in after.states && after.states[o].mappingGeneration == before.states[o].mappingGeneration
      && (before.states[o].active.Some? ==> after.states[o] == before.states[o])
  }

  /**
   * What the step owes an organisation. A stored version stays; a new one has the given id. A state that names a formula
   * stays; where none was named the state names that version and is in its first formula revision, new ones with nothing
   * published and no generation of the mapping, old ones with all else that they had.
   */
  predicate Installed(before: Tables, after: Tables, o: OrganizationId, newId: VersionId) {
    && o in after.versions && o in after.states
    && after.versions[o].id == (if o in before.versions then before.versions[o].id else newId)
    && after.versions[o].current && (o in before.versions ==> before.versions[o].current)
    && var now := after.states[o];
       if o in before.states && before.states[o].active.Some? then now == before.states[o]
       else
         && now.active == Some(after.versions[o].id) && now.formulaRevision == 1 && now.publicationRevision == 0
         && now.mappingGeneration == (if o in before.states then before.states[o].mappingGeneration else 0)
         && now.officialCutoff.None? && now.publishedOperation.None? && now.publishedMapping.None? && now.publishedAt.None?
  }

  /**
   * One organisation: it conflicts exactly when its rows do, and then no state changes, nor a version that was stored; if
   * it does not, the formula is installed and the outcome says what was new. All other organisations are as they were.
   */
  lemma EnsureDoes(t: Tables, o: OrganizationId, newId: VersionId)
    ensures var (after, outcome) := Ensure(t, o, newId);
            && (outcome.ChecksumMismatch? <==> HasMismatch(t, o))
            && (outcome.UnattachedState? <==> !HasMismatch(t, o) && HasLooseState(t, o))
            && (outcome.Ensured? ==>
                  && Installed(t, after, o, newId) && Equipped(after, o) && after.versions[o].id == outcome.version
                  && (outcome.createdVersion <==> o !in t.versions) && (outcome.createdState <==> o !in t.states)
                  && (outcome.attachedState <==> o in t.states && t.states[o].active.None?))
            && (!outcome.Ensured? ==> after.states == t.states && (o in t.versions ==> after.versions == t.versions))
            && Kept(t, after, o)
            && (forall other | other != o :: SameOrganization(t, after, other))
  {
    if o in t.versions { assert t.versions[o := t.versions[o]] == t.versions; }
  }

  /** An organisation that is equipped is left exactly as it is. */
  lemma EnsureAgain(t: Tables, o: OrganizationId, newId: VersionId)
    requires Equipped(t, o)
    ensures Ensure(t, o, newId) == (t, Ensured(t.versions[o].id, false, false, false))
  {
    assert t.versions[o := t.versions[o]] == t.versions;
  }

  // ---- The step --------------------------------------------------------------------------------------------------

  datatype Totals = Totals(versions: nat, states: nat, attached: nat)

  function Count(n: Totals, outcome: Outcome): Totals {
    if !outcome.Ensured? then n
    else
      Totals(n.versions + (if outcome.createdVersion then 1 else 0), n.states + (if outcome.createdState then 1 else 0),
             n.attached + (if outcome.attachedState then 1 else 0))
  }

  /** What the transaction has come to after some organisations. */
  datatype Progress = Progress(tables: Tables, mismatches: seq<OrganizationId>, loose: seq<OrganizationId>, totals: Totals)

  function Advance(p: Progress, o: OrganizationId, newId: VersionId): Progress {
    var (tables, outcome) := Ensure(p.tables, o, newId);
    Progress(tables,
             p.mismatches + (if outcome.ChecksumMismatch? then [o] else []),
             p.loose + (if outcome.UnattachedState? then [o] else []),
             Count(p.totals, outcome))
  }

  function AdvanceAll(t: Tables, organizations: seq<OrganizationId>, newIds: OrganizationId -> VersionId): Progress {
    if organizations == [] then Progress(t, [], [], Totals(0, 0, 0))
    else
      var last := organizations[|organizations| - 1];
      Advance(AdvanceAll(t, organizations[..|organizations| - 1], newIds), last, newIds(last))
  }

  datatype StepResult =
    | Committed(tables: Tables, changedRows: nat, totals: Totals)
    | RolledBack(tables: Tables, mismatches: seq<OrganizationId>, loose: seq<OrganizationId>)

  function Step(t: Tables, organizations: seq<OrganizationId>, newIds: OrganizationId -> VersionId): StepResult {
    var p := AdvanceAll(t, organizations, newIds);
    if p.mismatches != [] || p.loose != [] then RolledBack(t, p.mismatches, p.loose)
    else Committed(p.tables, p.totals.versions + p.totals.states + p.totals.attached, p.totals)
  }

  ghost predicate Distinct(s: seq<OrganizationId>) { forall i, j | 0 <= i < j < |s| :: s[i] != s[j] }

  /** The organisations whose version has another checksum, and those of the rest with a loose state, in order. */
  function Mismatched(t: Tables, s: seq<OrganizationId>): seq<OrganizationId> {
    if s == [] then []
    else Mismatched(t, s[..|s| - 1]) + (if HasMismatch(t, s[|s| - 1]) then [s[|s| - 1]] else [])
  }

  function Loose(t: Tables, s: seq<OrganizationId>): seq<OrganizationId> {
    if s == [] then []
    else
      var last := s[|s| - 1];
      Loose(t, s[..|s| - 1]) + (if !HasMismatch(t, last) && HasLooseState(t, last) then [last] else [])
  }

  function TotalChanges(before: Tables, after: Tables, s: seq<OrganizationId>): nat {
    if s == [] then 0 else TotalChanges(before, after, s[..|s| - 1]) + Changes(before, after, s[|s| - 1])
  }

  lemma {:induction false} AdvanceKeeps(
    t: Tables, organizations: seq<OrganizationId>, newIds: OrganizationId -> VersionId, o: OrganizationId)
    ensures Kept(t, AdvanceAll(t, organizations, newIds).tables, o)
    ensures o !in organizations ==> SameOrganization(t, AdvanceAll(t, organizations, newIds).tables, o)
  {
    if organizations != [] {
      var init, last := organizations[..|organizations| - 1], organizations[|organizations| - 1];
      assert organizations == init + [last];
      var before := AdvanceAll(t, init, newIds).tables;
      AdvanceKeeps(t, init, newIds, o);
      EnsureDoes(before, last, newIds(last));
      if o == last { assert Kept(before, Ensure(before, last, newIds(last)).0, o); }
    }
  }

  lemma {:induction false} AdvanceEquips(
    t: Tables, organizations: seq<OrganizationId>, newIds: OrganizationId -> VersionId, o: OrganizationId)
    requires Distinct(organizations) && o in organizations && !Conflicts(t, o)
    ensures Equipped(AdvanceAll(t, organizations, newIds).tables, o)
    ensures Installed(t, AdvanceAll(t, organizations, newIds).tables, o, newIds(o))
  {
    var init, last := organizations[..|organizations| - 1], organizations[|organizations| - 1];
    assert organizations == init + [last];
    var before := AdvanceAll(t, init, newIds).tables;
    EnsureDoes(before, last, newIds(last));
    if o == last {
      AdvanceKeeps(t, init, newIds, o);
    } else {
      AdvanceEquips(t, init, newIds, o);
    }
  }

  /** The lists of conflicts are exactly those of the organisations that conflict, in order. */
  lemma {:induction false} ConflictsAreListed(
    t: Tables, organizations: seq<OrganizationId>, newIds: OrganizationId -> VersionId)
    requires Distinct(organizations)
    ensures var p := AdvanceAll(t, organizations, newIds);
            p.mismatches == Mismatched(t, organizations) && p.loose == Loose(t, organizations)
  {
    if organizations != [] {
      var init, last := organizations[..|organizations| - 1], organizations[|organizations| - 1];
      ConflictsAreListed(t, init, newIds);
      AdvanceKeeps(t, init, newIds, last);
      EnsureDoes(AdvanceAll(t, init, newIds).tables, last, newIds(last));
    }
  }

  lemma {:induction false} NoneListedIff(t: Tables, s: seq<OrganizationId>)
    ensures Mismatched(t, s) == [] && Loose(t, s) == [] <==> forall o | o in s :: !Conflicts(t, o)
  {
    if s != [] {
      var init, last := s[..|s| - 1], s[|s| - 1];
      assert s == init + [last] && last in s;
      NoneListedIff(t, init);
      assert Mismatched(t, s) == [] ==> Mismatched(t, init) == [] && !HasMismatch(t, last);
      assert Loose(t, s) == [] && !HasMismatch(t, last) ==> Loose(t, init) == [] && !HasLooseState(t, last);
    }
  }

  /**
   * The step commits if and only if no organisation conflicts; otherwise it reports exactly those that do, and nothing
   * is written.
   */
  lemma CommitsIff(t: Tables, organizations: seq<OrganizationId>, newIds: OrganizationId -> VersionId)
    requires Distinct(organizations)
    ensures var r := Step(t, organizations, newIds);
            && (r.Committed? <==> forall o | o in organizations :: !Conflicts(t, o))
            && (r.RolledBack? ==>
                  r.tables == t && r.mismatches == Mismatched(t, organizations) && r.loose == Loose(t, organizations))
  {
    ConflictsAreListed(t, organizations, newIds);
    NoneListedIff(t, organizations);
  }

  /** After a commit the formula is installed everywhere, and nothing that named a formula has changed. */
  lemma CommitEquips(t: Tables, organizations: seq<OrganizationId>, newIds: OrganizationId -> VersionId)
    requires Distinct(organizations) && Step(t, organizations, newIds).Committed?
    ensures var after := Step(t, organizations, newIds).tables;
            && (forall o | o in organizations :: Equipped(after, o) && Installed(t, after, o, newIds(o)))
            && (forall o | o !in organizations :: SameOrganization(t, after, o))
            && (forall o :: Kept(t, after, o))
  {
    CommitsIff(t, organizations, newIds);
    var after := Step(t, organizations, newIds).tables;
    forall o ensures Kept(t, after, o) && (o !in organizations ==> SameOrganization(t, after, o)) {
      AdvanceKeeps(t, organizations, newIds, o);
    }
    forall o | o in organizations ensures Equipped(after, o) && Installed(t, after, o, newIds(o)) {
      AdvanceEquips(t, organizations, newIds, o);
    }
  }

  lemma {:induction false} EquippedStays(
    t: Tables, organizations: seq<OrganizationId>, newIds: OrganizationId -> VersionId)
    requires forall o | o in organizations :: Equipped(t, o)
    ensures AdvanceAll(t, organizations, newIds) == Progress(t, [], [], Totals(0, 0, 0))
  {
    if organizations != [] {
      var last := organizations[|organizations| - 1];
      EquippedStays(t, organizations[..|organizations| - 1], newIds);
      EnsureAgain(t, last, newIds(last));
    }
  }

  /** Running a committed step again, whatever ids it would be given, changes no row. */
  lemma SecondRunChangesNothing(
    t: Tables, organizations: seq<OrganizationId>, newIds: OrganizationId -> VersionId,
    otherIds: OrganizationId -> VersionId)
    requires Distinct(organizations) && Step(t, organizations, newIds).Committed?
    ensures var after := Step(t, organizations, newIds).tables;
            Step(after, organizations, otherIds) == Committed(after, 0, Totals(0, 0, 0))
  {
    CommitEquips(t, organizations, newIds);
    EquippedStays(Step(t, organizations, newIds).tables, organizations, otherIds);
  }

  // ---- Rows counted ----------------------------------------------------------------------------------------------

  lemma {:induction false} ChangesElsewhere(before: Tables, a: Tables, b: Tables, s: seq<OrganizationId>)
    requires forall o | o in s :: SameOrganization(a, b, o)
    ensures TotalChanges(before, a, s) == TotalChanges(before, b, s)
  {
    if s != [] {
      assert s == s[..|s| - 1] + [s[|s| - 1]] && SameOrganization(a, b, s[|s| - 1]);
      ChangesElsewhere(before, a, b, s[..|s| - 1]);
    }
  }

  lemma {:induction false} ChangesAreCounted(
    t: Tables, organizations: seq<OrganizationId>, newIds: OrganizationId -> VersionId)
    requires Distinct(organizations) && forall o | o in organizations :: !Conflicts(t, o)
    ensures var p := AdvanceAll(t, organizations, newIds);
            p.totals.versions + p.totals.states + p.totals.attached == TotalChanges(t, p.tables, organizations)
  {
    if organizations != [] {
      var init, last := organizations[..|organizations| - 1], organizations[|organizations| - 1];
      assert organizations == init + [last];
      var before := AdvanceAll(t, init, newIds).tables;
      ChangesAreCounted(t, init, newIds);
      AdvanceKeeps(t, init, newIds, last);
      CountsItsChanges(t, before, last, newIds(last), AdvanceAll(t, init, newIds).totals);
      EnsureDoes(before, last, newIds(last));
      ChangesElsewhere(t, before, AdvanceAll(t, organizations, newIds).tables, init);
    }
  }

  /** What one organisation adds to the totals is what changed in its rows. */
  lemma CountsItsChanges(t: Tables, before: Tables, o: OrganizationId, newId: VersionId, n: Totals)
    requires SameOrganization(t, before, o) && !Conflicts(t, o)
    ensures var (after, outcome) := Ensure(before, o, newId); var m := Count(n, outcome);
            m.versions + m.states + m.attached == n.versions + n.states + n.attached + Changes(t, after, o)
  {
  }

  /** What there is to do for some organisations: those without a version, without a state, and with one to attach. */
  function Missing(t: Tables, s: seq<OrganizationId>): Totals {
    if s == [] then Totals(0, 0, 0)
    else
      var n, o := Missing(t, s[..|s| - 1]), s[|s| - 1];
      Totals(n.versions + (if o in t.versions then 0 else 1), n.states + (if o in t.states then 0 else 1),
             n.attached + (if o in t.states && t.states[o].active.None? then 1 else 0))
  }

  lemma {:induction false} MissingIsDone(
    t: Tables, organizations: seq<OrganizationId>, newIds: OrganizationId -> VersionId)
    requires Distinct(organizations) && forall o | o in organizations :: !Conflicts(t, o)
    ensures AdvanceAll(t, organizations, newIds).totals == Missing(t, organizations)
  {
    if organizations != [] {
      var init, last := organizations[..|organizations| - 1], organizations[|organizations| - 1];
      assert organizations == init + [last];
      var before := AdvanceAll(t, init, newIds);
      MissingIsDone(t, init, newIds);
      AdvanceKeeps(t, init, newIds, last);
      EnsureDoes(before.tables, last, newIds(last));
      assert last !in init && !Conflicts(t, last) && SameOrganization(t, before.tables, last);
      assert Ensure(before.tables, last, newIds(last)).1.Ensured?;
    }
  }

  /** The reported number is that of rows that are new or changed, and of each kind as many as were missing are reported. */
  lemma ChangedRowsAreCounted(t: Tables, organizations: seq<OrganizationId>, newIds: OrganizationId -> VersionId)
    requires Distinct(organizations) && Step(t, organizations, newIds).Committed?
    ensures var r := Step(t, organizations, newIds);
            r.changedRows == TotalChanges(t, r.tables, organizations) && r.totals == Missing(t, organizations)
  {
    CommitsIff(t, organizations, newIds);
    ChangesAreCounted(t, organizations, newIds);
    MissingIsDone(t, organizations, newIds);
  }

  // ---- The step as it is run -------------------------------------------------------------------------------------

  /** The two tables inside the step's transaction. */
  class Transaction {
    var versions: map<OrganizationId, Version>
    var states: map<OrganizationId, State>

    function View(): Tables reads this { Tables(versions, states) }

    constructor (t: Tables)
      ensures View() == t
    {
      versions, states := t.versions, t.states;
    }

    /** Installs the formula for one organisation; a conflict is an outcome and leaves what was written before it. */
    method EnsureForOrganization(o: OrganizationId, newId: VersionId) returns (outcome: Outcome)
      modifies this
      ensures (View(), outcome) == Ensure(old(View()), o, newId)
    {
      var createdVersion := o !in versions;
      if !createdVersion && !versions[o].current { return ChecksumMismatch; }
      if createdVersion { versions := versions[o := Version(newId, true)]; }
      var version := versions[o].id;
      assert versions == old(versions)[o := versions[o]];
      var createdState, attachedState := o !in states, false;
      if createdState {
        states := states[o := Baseline(version)];
      } else if MappingOnly(states[o]) {
        states := states[o := states[o].(active := Some(version), formulaRevision := 1)];
        attachedState := true;
      }
      if states[o].active.None? { return UnattachedState; }
      return Ensured(version, createdVersion, createdState, attachedState);
    }
  }

  lemma AdvanceOne(t: Tables, organizations: seq<OrganizationId>, newIds: OrganizationId -> VersionId, i: nat)
    requires i < |organizations|
    ensures AdvanceAll(t, organizations[..i + 1], newIds)
            == Advance(AdvanceAll(t, organizations[..i], newIds), organizations[i], newIds(organizations[i]))
  {
    assert organizations[..i + 1][..i] == organizations[..i];
  }

  /** Goes through every organisation, whatever it meets, and commits or rolls back at the end. */
  method RunStep(t: Tables, organizations: seq<OrganizationId>, newIds: OrganizationId -> VersionId)
    returns (r: StepResult)
    ensures r == Step(t, organizations, newIds)
  {
    var tx := new Transaction(t);
    var mismatches, loose, totals := [], [], Totals(0, 0, 0);
    for i := 0 to |organizations|
      invariant fresh(tx)
      invariant Progress(tx.View(), mismatches, loose, totals) == AdvanceAll(t, organizations[..i], newIds)
    {
      var o := organizations[i];
      AdvanceOne(t, organizations, newIds, i);
      var outcome := tx.EnsureForOrganization(o, newIds(o));
      match outcome {
        case ChecksumMismatch => mismatches := mismatches + [o];
        case UnattachedState => loose := loose + [o];
        case Ensured(_, _, _, _) =>
      }
      totals := Count(totals, outcome);
    }
    assert organizations[..|organizations|] == organizations;
    if mismatches != [] || loose != [] { return RolledBack(t, mismatches, loose); }
    return Committed(tx.View(), totals.versions + totals.states + totals.attached, totals);
  }
}
