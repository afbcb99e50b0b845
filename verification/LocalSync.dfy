/**
 * `db:sync:local`: brings the local database up to the checked-out schema and migration registry, in the order of the
 * office cutover. `Sync` is one run of the command, for whatever its commands answer.
 */
module LocalSync {
  import opened Common
  import opened Ledger

  // ---- Releases and the registry ---------------------------------------------------------------------------------

  /** A release name with the three numbers in it, when it has the form of a version. */
  datatype Release = Release(text: nat, numbers: Option<(nat, nat, nat)>)

  function CompareReleases(left: Release, right: Release): Option<int> {
    if left.numbers.None? || right.numbers.None? then None
    else
      var (a, b) := (left.numbers.value, right.numbers.value);
      if a.0 != b.0 then Some(if a.0 < b.0 then -1 else 1)
      else if a.1 != b.1 then Some(if a.1 < b.1 then -1 else 1)
      else if a.2 != b.2 then Some(if a.2 < b.2 then -1 else 1)
      else Some(0)
  }

  predicate Older(left: Release, right: Release) { CompareReleases(left, right) == Some(-1) }

  /** Equal in the first `n` numbers. */
  predicate SameUpTo(a: (nat, nat, nat), b: (nat, nat, nat), n: nat) {
    (n > 0 ==> a.0 == b.0) && (n > 1 ==> a.1 == b.1) && (n > 2 ==> a.2 == b.2)
  }

  predicate SmallerAt(a: (nat, nat, nat), b: (nat, nat, nat), n: nat) {
    (n == 0 && a.0 < b.0) || (n == 1 && a.1 < b.1) || (n == 2 && a.2 < b.2)
  }

  /**
   * Being older is a strict order on releases, and any two readable ones with different numbers are ordered: by the first
   * number in which they differ, the smaller one being the older.
   */
  lemma OlderIsAnOrder(a: Release, b: Release, c: Release)
    ensures !(Older(a, b) && Older(b, a))
    ensures Older(a, b) && Older(b, c) ==> Older(a, c)
    ensures a.numbers.Some? && b.numbers.Some? && a.numbers != b.numbers ==> Older(a, b) || Older(b, a)
    ensures Older(a, b) <==> a.numbers.Some? && b.numbers.Some? && exists n | 0 <= n < 3 ::
              SmallerAt(a.numbers.value, b.numbers.value, n) && SameUpTo(a.numbers.value, b.numbers.value, n)
  {
    if a.numbers.Some? && b.numbers.Some? {
      var (x, y) := (a.numbers.value, b.numbers.value);
      assert Older(a, b) ==> (SmallerAt(x, y, 0) && SameUpTo(x, y, 0)) || (SmallerAt(x, y, 1) && SameUpTo(x, y, 1))
                             || (SmallerAt(x, y, 2) && SameUpTo(x, y, 2));
    }
  }

  datatype Phase = PreSchema | PostSchema

  datatype Migration = Migration(id: Id, release: Release, phase: Phase)

  ghost predicate UniqueIds(registry: seq<Migration>) {
    forall i, j | 0 <= i < j < |registry| :: registry[i].id != registry[j].id
  }

  function Ids(registry: seq<Migration>): seq<Id> {
    if registry == [] then [] else [registry[0].id] + Ids(registry[1..])
  }

  /** What `up` selects for the open release's pre-schema phase, and for the post-schema phase. */
  function PreSchemaOf(registry: seq<Migration>, open: Release): seq<Migration> {
    if registry == [] then []
    else (if registry[0].phase.PreSchema? && registry[0].release == open then [registry[0]] else [])
         + PreSchemaOf(registry[1..], open)
  }

  function PostSchemaOf(registry: seq<Migration>): seq<Migration> {
    if registry == [] then []
    else (if registry[0].phase.PostSchema? then [registry[0]] else []) + PostSchemaOf(registry[1..])
  }

  // ---- Status ----------------------------------------------------------------------------------------------------

  /** The database: its ledger, if it has the table. */
  datatype World = World(ledger: Option<Db>)

  predicate HasRun(w: World, id: Id) { w.ledger.Some? && SucceededIn(w.ledger.value, id) }

  /** The migrations whose row records a source that is not the current one. */
  predicate HasDrift(w: World, id: Id, current: map<Id, Hash>) {
    w.ledger.Some? && id in current && Drifted(w.ledger.value, id, current[id])
  }

  datatype StatusReport = StatusReport(open: Release, tableExists: bool, pending: seq<Id>, drift: set<Id>)

  function PendingOf(w: World, registry: seq<Migration>): seq<Id> {
    if registry == [] then []
    else (if HasRun(w, registry[0].id) then [] else [registry[0].id]) + PendingOf(w, registry[1..])
  }

  function StatusOf(w: World, registry: seq<Migration>, open: Release, current: map<Id, Hash>): StatusReport {
    StatusReport(open, w.ledger.Some?, PendingOf(w, registry), set id | id in current && HasDrift(w, id, current))
  }

  /** The status command exits 3 when asked to fail on drift and there is any. */
  predicate FailsOnDrift(status: StatusReport, failOnDrift: bool) { failOnDrift && status.drift != {} }

  predicate Registered(registry: seq<Migration>, id: Id) { exists m | m in registry :: m.id == id }

  /** Drift this run's `up` calls select. An id that is not registered counts as selected. */
  function RefusedDrift(status: StatusReport, registry: seq<Migration>): set<Id> {
    set id | id in status.drift &&
             (!Registered(registry, id) ||
              exists m | m in registry :: m.id == id && (m.phase.PostSchema? || m.release == status.open))
  }

  /** Only a pre-schema migration of an older release is not for this run to apply. */
  predicate NotApplicable(registry: seq<Migration>, open: Release, id: Id) {
    exists m | m in registry :: m.id == id && m.phase.PreSchema? && Older(m.release, open)
  }

  function ToApply(pending: seq<Id>, registry: seq<Migration>, open: Release): seq<Id> {
    if pending == [] then []
    else
      var last := pending[|pending| - 1];
      ToApply(pending[..|pending| - 1], registry, open) + (if NotApplicable(registry, open, last) then [] else [last])
  }

  // ---- What the commands answer ----------------------------------------------------------------------------------

  /** One `up`: whether it could read the ledger, the fates of its migrations, and whether the rest of it went well. */
  datatype UpScript = UpScript(readable: bool, fates: seq<Fates>, restOk: bool)

  datatype PushAnswer = Pushed | NeedsConsent | NeedsAcceptance | PushFailed

  datatype Script = Script(
    targetOk: bool, buildOk: bool, statusOk: bool, registryOk: bool,
    pre: UpScript,
    surveyOk: bool, findings: nat,
    previewOk: bool, statements: nat, destructive: nat,
    nameOk: bool, containerOk: bool, dumpOk: bool,
    push: PushAnswer, generateOk: bool,
    post: UpScript, finalOk: bool)

  datatype Options = Options(dryRun: bool, acceptDataLoss: bool, noBackup: bool)

  /** The checkout: its registry, open release and migration sources, and whether drift is to be refused. */
  datatype Checkout = Checkout(registry: seq<Migration>, open: Release, current: map<Id, Hash>, git: nat,
                               failOnDrift: bool)

  ghost predicate CheckoutOk(c: Checkout) {
    && UniqueIds(c.registry)
    && (forall m | m in c.registry :: m.id in c.current)
    && (forall id | id in c.current :: Registered(c.registry, id))
  }

  ghost predicate ScriptOk(c: Checkout, s: Script) {
    |s.pre.fates| == |PreSchemaOf(c.registry, c.open)| && |s.post.fates| == |PostSchemaOf(c.registry)|
  }

  // ---- The run ---------------------------------------------------------------------------------------------------

  datatype Step =
    | BuildShared | ReadStatus | PreSchemaUp | Survey | DdlPreview | Backup | DbPush | Generate | PostSchemaUp
    | FinalStatus

  datatype Command =
    | RunBuild | RunStatus | RunPreSchema | RunSurvey | RunPreview | FindContainer | Dump | RunPush | RunGenerate
    | RunPostSchema | RunFinalStatus

  /** In order, the commands that were started and the steps that were reported as done. */
  datatype Entry = Ran(command: Command) | Did(step: Step)

  /** `endings` is how each `up` of the run ended. */
  datatype Trace = Trace(log: seq<Entry>, endings: seq<Ending>, world: World)

  datatype State = InSync | AppliedAll | WouldApply | Blocked | SyncFailed

  datatype SyncOutcome = SyncOutcome(exitCode: int, state: State, trace: Trace)

  function Plan(tableExists: bool, dryRun: bool): seq<Step> {
    if dryRun then [ReadStatus, Survey, DdlPreview]
    else if tableExists then
      [BuildShared, ReadStatus, PreSchemaUp, Survey, DdlPreview, Backup, DbPush, Generate, PostSchemaUp, FinalStatus]
    else
      [BuildShared, ReadStatus, Survey, DdlPreview, Backup, DbPush, Generate, PreSchemaUp, PostSchemaUp, FinalStatus]
  }

  function Run(t: Trace, c: Command): Trace { t.(log := t.log + [Ran(c)]) }

  function Report(t: Trace, s: Step): Trace { t.(log := t.log + [Did(s)]) }

  function Stop(t: Trace, exitCode: int): SyncOutcome {
    SyncOutcome(exitCode, if exitCode == 1 then Blocked else SyncFailed, t)
  }

  function UpCall(c: Checkout, selected: seq<Migration>, s: UpScript): Call {
    Call(Ids(selected), c.current, c.git, c.failOnDrift, s.readable, s.fates)
  }

  lemma {:induction false} IdsOf(selected: seq<Migration>)
    ensures |Ids(selected)| == |selected|
    ensures forall i | 0 <= i < |selected| :: Ids(selected)[i] == selected[i].id
  {
    if selected != [] { IdsOf(selected[1..]); }
  }

  lemma {:induction false} SelectedOf(registry: seq<Migration>, open: Release, m: Migration)
    ensures m in PreSchemaOf(registry, open) <==> m in registry && m.phase.PreSchema? && m.release == open
    ensures m in PostSchemaOf(registry) <==> m in registry && m.phase.PostSchema?
  {
    if registry != [] { SelectedOf(registry[1..], open, m); }
  }

  /** What is selected keeps the order of the registry. */
  lemma {:induction false} SelectionIsInOrder(a: seq<Migration>, b: seq<Migration>, open: Release)
    ensures PreSchemaOf(a + b, open) == PreSchemaOf(a, open) + PreSchemaOf(b, open)
    ensures PostSchemaOf(a + b) == PostSchemaOf(a) + PostSchemaOf(b)
  {
    if a == [] {
      assert a + b == b;
    } else {
      assert (a + b)[1..] == a[1..] + b;
      SelectionIsInOrder(a[1..], b, open);
    }
  }

  lemma SelectedOk(c: Checkout)
    requires CheckoutOk(c)
    ensures forall m | m in PreSchemaOf(c.registry, c.open) || m in PostSchemaOf(c.registry) :: m.id in c.current
  {
    forall m | m in PreSchemaOf(c.registry, c.open) || m in PostSchemaOf(c.registry) ensures m.id in c.current {
      SelectedOf(c.registry, c.open, m);
    }
  }

  /** One `up` as the sync runs it. Without the ledger table it stops before it reads anything. */
  function RunUp(c: Checkout, selected: seq<Migration>, s: UpScript, command: Command, t: Trace): (Trace, bool)
    requires |s.fates| == |selected| && forall m | m in selected :: m.id in c.current
  {
    IdsOf(selected);
    var t1 := Run(t, command);
    if t.world.ledger.None? then (t1, false)
    else
      var up := Up(t.world.ledger.value, UpCall(c, selected, s));
      (t1.(endings := t1.endings + [up.ending], world := World(Some(up.db))), up.ending.Completed? && s.restOk)
  }

  /** What the schema push makes of the ledger: a table if there was none. */
  function PushedWorld(w: World): World { if w.ledger.None? then World(Some(Db(map[], []))) else w }

  function Sync(o: Options, c: Checkout, s: Script, w: World): SyncOutcome
    requires CheckoutOk(c) && ScriptOk(c, s)
  {
    var t := Trace([], [], w);
    if !s.targetOk then Stop(t, 2)
    else if o.dryRun then StatusStage(o, c, s, t)
    else
      var t1 := Run(t, RunBuild);
      if !s.buildOk then Stop(t1, 2) else StatusStage(o, c, s, Report(t1, BuildShared))
  }

  /** Reads the status, and refuses drift that a later `up` would refuse. */
  function StatusStage(o: Options, c: Checkout, s: Script, t: Trace): SyncOutcome
    requires CheckoutOk(c) && ScriptOk(c, s)
  {
    var t1 := Run(t, RunStatus);
    if !s.statusOk then Stop(t1, 2)
    else
      var t2 := Report(t1, ReadStatus);
      if !s.registryOk then Stop(t2, 2)
      else
        var before := StatusOf(t.world, c.registry, c.open, c.current);
        if Refuses(c, before) && !o.dryRun then Stop(t2, 1) else PreSchemaStage(o, c, s, before, t2)
  }

  predicate Refuses(c: Checkout, before: StatusReport) {
    FailsOnDrift(before, c.failOnDrift) && RefusedDrift(before, c.registry) != {}
  }

  function PreSchemaStage(o: Options, c: Checkout, s: Script, before: StatusReport, t: Trace): SyncOutcome
    requires CheckoutOk(c) && ScriptOk(c, s)
  {
    SelectedOk(c);
    if o.dryRun || !before.tableExists then SurveyStage(o, c, s, before, t)
    else
      var (t1, ok) := RunUp(c, PreSchemaOf(c.registry, c.open), s.pre, RunPreSchema, t);
      if !ok then Stop(t1, 2) else SurveyStage(o, c, s, before, Report(t1, PreSchemaUp))
  }

  function SurveyStage(o: Options, c: Checkout, s: Script, before: StatusReport, t: Trace): SyncOutcome
    requires CheckoutOk(c) && ScriptOk(c, s)
  {
    var t1 := Run(t, RunSurvey);
    if !s.surveyOk then Stop(t1, 2)
    else
      var t2 := Report(t1, Survey);
      if s.findings > 0 && !o.dryRun then Stop(t2, 1) else PreviewStage(o, c, s, before, t2)
  }

  function PreviewStage(o: Options, c: Checkout, s: Script, before: StatusReport, t: Trace): SyncOutcome
    requires CheckoutOk(c) && ScriptOk(c, s)
  {
    var t1 := Run(t, RunPreview);
    if !s.previewOk then Stop(t1, 2)
    else
      var t2 := Report(t1, DdlPreview);
      if o.dryRun then FinishDryRun(o, c, s, before, t2) else BackupStage(o, c, s, before, t2)
  }

  function FinishDryRun(o: Options, c: Checkout, s: Script, before: StatusReport, t: Trace): SyncOutcome {
    if Refuses(c, before) || s.findings > 0 || (s.destructive > 0 && !o.acceptDataLoss) then SyncOutcome(1, Blocked, t)
    else if ToApply(before.pending, c.registry, c.open) == [] && s.statements == 0 then SyncOutcome(0, InSync, t)
    else SyncOutcome(0, WouldApply, t)
  }

  function BackupStage(o: Options, c: Checkout, s: Script, before: StatusReport, t: Trace): SyncOutcome
    requires CheckoutOk(c) && ScriptOk(c, s)
  {
    if s.destructive > 0 && !o.acceptDataLoss then Stop(t, 1)
    else if s.destructive > 0 && !o.noBackup then
      BackUpFirst(o, c, s, before, t)
    else PushStage(o, c, s, before, t)
  }

  function BackUpFirst(o: Options, c: Checkout, s: Script, before: StatusReport, t: Trace): SyncOutcome
    requires CheckoutOk(c) && ScriptOk(c, s)
  {
    if !s.nameOk then Stop(t, 2)
    else
      var t1 := Run(t, FindContainer);
      if !s.containerOk then Stop(t1, 2)
      else
        var t2 := Run(t1, Dump);
        if !s.dumpOk then Stop(t2, 2) else PushStage(o, c, s, before, Report(t2, Backup))
  }

  function PushStage(o: Options, c: Checkout, s: Script, before: StatusReport, t: Trace): SyncOutcome
    requires CheckoutOk(c) && ScriptOk(c, s)
  {
    if s.statements == 0 then GenerateStage(c, s, before, t)
    else
      var t1 := Run(t, RunPush);
      match s.push
      case Pushed => GenerateStage(c, s, before, Report(t1.(world := PushedWorld(t1.world)), DbPush))
      case NeedsConsent => Stop(t1, 1)
      case NeedsAcceptance => Stop(t1, if o.acceptDataLoss then 2 else 1)
      case PushFailed => Stop(t1, 2)
  }

  function GenerateStage(c: Checkout, s: Script, before: StatusReport, t: Trace): SyncOutcome
    requires CheckoutOk(c) && ScriptOk(c, s)
  {
    SelectedOk(c);
    var t1 := Run(t, RunGenerate);
    if !s.generateOk then Stop(t1, 2)
    else
      var t2 := Report(t1, Generate);
      if before.tableExists then PostSchemaStage(c, s, before, t2)
      else
        var (t3, ok) := RunUp(c, PreSchemaOf(c.registry, c.open), s.pre, RunPreSchema, t2);
        if !ok then Stop(t3, 2) else PostSchemaStage(c, s, before, Report(t3, PreSchemaUp))
  }

  function PostSchemaStage(c: Checkout, s: Script, before: StatusReport, t: Trace): SyncOutcome
    requires CheckoutOk(c) && ScriptOk(c, s)
  {
    SelectedOk(c);
    var (t1, ok) := RunUp(c, PostSchemaOf(c.registry), s.post, RunPostSchema, t);
    if !ok then Stop(t1, 2) else FinalStage(c, s, before, Report(t1, PostSchemaUp))
  }

  function FinalStage(c: Checkout, s: Script, before: StatusReport, t: Trace): SyncOutcome {
    var t1 := Run(t, RunFinalStatus);
    if !s.finalOk then Stop(t1, 2)
    else
      var t2 := Report(t1, FinalStatus);
      var after := StatusOf(t.world, c.registry, c.open, c.current);
      if ToApply(after.pending, c.registry, c.open) != [] then Stop(t2, 2)
      else
        var inSync := ToApply(before.pending, c.registry, c.open) == [] && s.statements == 0;
        SyncOutcome(0, if inSync then InSync else AppliedAll, t2)
  }
}
