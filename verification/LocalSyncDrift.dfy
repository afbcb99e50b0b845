/** What `db:sync:local` predicts about its own `up` calls, and what its exit says about the database. */
module LocalSyncDrift {
  import opened Common
  import opened Ledger
  import opened LocalSync
  import T = LocalSyncTheorems

  /** The migrations the run's two `up` calls select. */
  predicate Selects(c: Checkout, m: Migration) { m.phase.PostSchema? || m.release == c.open }

  /** No `up` of this run would be refused on this database. */
  ghost predicate Clear(c: Checkout, w: World) {
    c.failOnDrift ==> forall m | m in c.registry && Selects(c, m) :: !HasDrift(w, m.id, c.current)
  }

  ghost predicate AllDone(w: World, selected: seq<Migration>) { forall m | m in selected :: HasRun(w, m.id) }

  ghost predicate SelectionOk(c: Checkout, selected: seq<Migration>) {
    (forall m | m in selected :: m in c.registry && Selects(c, m)) && UniqueIds(selected)
  }

  lemma {:induction false} SelectionsUnique(registry: seq<Migration>, open: Release)
    requires UniqueIds(registry)
    ensures UniqueIds(PreSchemaOf(registry, open)) && UniqueIds(PostSchemaOf(registry))
  {
    if registry != [] {
      var rest := registry[1..];
      SelectionsUnique(rest, open);
      forall m | m in PreSchemaOf(rest, open) || m in PostSchemaOf(rest) ensures m.id != registry[0].id {
        SelectedOf(rest, open, m);
      }
    }
  }

  lemma SelectionsOk(c: Checkout)
    requires CheckoutOk(c)
    ensures SelectionOk(c, PreSchemaOf(c.registry, c.open)) && SelectionOk(c, PostSchemaOf(c.registry))
  {
    SelectionsUnique(c.registry, c.open);
    forall m | m in PreSchemaOf(c.registry, c.open) || m in PostSchemaOf(c.registry)
      ensures m in c.registry && Selects(c, m)
    {
      SelectedOf(c.registry, c.open, m);
    }
  }

  // ---- What one `up` of the run does -----------------------------------------------------------------------------

  lemma CallIsOk(c: Checkout, selected: seq<Migration>, s: UpScript)
    requires CheckoutOk(c) && SelectionOk(c, selected) && |s.fates| == |selected|
    ensures CallOk(UpCall(c, selected, s))
    ensures forall id :: id in Ids(selected) <==> exists m :: m in selected && m.id == id
    ensures forall i, j | 0 <= i < j < |Ids(selected)| :: Ids(selected)[i] != Ids(selected)[j]
  {
    IdsOf(selected);
    forall id | id in Ids(selected) ensures exists m :: m in selected && m.id == id {
      var i :| 0 <= i < |selected| && Ids(selected)[i] == id;
      assert selected[i] in selected;
    }
    forall m | m in selected ensures m.id in Ids(selected) {
      var i :| 0 <= i < |selected| && selected[i] == m;
      assert Ids(selected)[i] == m.id;
    }
  }

  lemma NotRefused(c: Checkout, selected: seq<Migration>, s: UpScript, db: Db)
    requires CheckoutOk(c) && SelectionOk(c, selected) && |s.fates| == |selected|
    requires CallOk(UpCall(c, selected, s)) && Clear(c, World(Some(db)))
    ensures !Up(db, UpCall(c, selected, s)).ending.Refused?
  {
    var call := UpCall(c, selected, s);
    CallIsOk(c, selected, s);
    forall id | id in call.ids && c.failOnDrift ensures !Drifted(db, id, c.current[id]) {
      var m :| m in selected && m.id == id;
      assert !HasDrift(World(Some(db)), m.id, c.current);
    }
    if call.readable { RefusedIff(db, call); }
  }

  lemma StaysClear(c: Checkout, call: Call, db: Db)
    requires CheckoutOk(c) && CallOk(call) && call.current == c.current && Clear(c, World(Some(db)))
    ensures Clear(c, World(Some(Up(db, call).db)))
  {
    var after := Up(db, call).db;
    forall m | m in c.registry && Selects(c, m) && HasDrift(World(Some(after)), m.id, c.current)
      ensures HasDrift(World(Some(db)), m.id, c.current)
    {
      UpAddsNoDrift(db, call, m.id);
    }
  }

  /** An `up` is not refused, keeps what is done, and if it went well has done all it selects. */
  ghost predicate UpWent(c: Checkout, selected: seq<Migration>, before: Trace, after: Trace, ok: bool) {
    && Clear(c, after.world) && Ending.Refused !in after.endings
    && (forall m | m in c.registry && HasRun(before.world, m.id) :: HasRun(after.world, m.id))
    && (ok ==> AllDone(after.world, selected))
  }

  lemma UpGoes(c: Checkout, selected: seq<Migration>, s: UpScript, command: Command, t: Trace)
    requires CheckoutOk(c) && SelectionOk(c, selected) && |s.fates| == |selected|
    requires Clear(c, t.world) && Ending.Refused !in t.endings
    ensures var (after, ok) := RunUp(c, selected, s, command, t);
            UpWent(c, selected, t, after, ok)
  {
    if t.world.ledger.Some? {
      var db, call := t.world.ledger.value, UpCall(c, selected, s);
      CallIsOk(c, selected, s);
      NotRefused(c, selected, s, db);
      StaysClear(c, call, db);
      UpKeepsDone(c, call, db);
      var (after, ok) := RunUp(c, selected, s, command, t);
      if ok { UpCompletes(c, selected, s, db); }
    }
  }

  lemma UpKeepsDone(c: Checkout, call: Call, db: Db)
    requires CallOk(call)
    ensures forall m | m in c.registry && SucceededIn(db, m.id) :: SucceededIn(Up(db, call).db, m.id)
  {
    forall m | m in c.registry && SucceededIn(db, m.id) ensures SucceededIn(Up(db, call).db, m.id) {
      UpKeepsSucceeded(db, call, m.id);
    }
  }

  lemma UpCompletes(c: Checkout, selected: seq<Migration>, s: UpScript, db: Db)
    requires CheckoutOk(c) && SelectionOk(c, selected) && |s.fates| == |selected|
    requires CallOk(UpCall(c, selected, s)) && Up(db, UpCall(c, selected, s)).ending.Completed?
    ensures AllDone(World(Some(Up(db, UpCall(c, selected, s)).db)), selected)
  {
    var call := UpCall(c, selected, s);
    CallIsOk(c, selected, s);
    StopsAtFirstFailure(db, call.ids, call.current, call.git, call.fates);
    forall m | m in selected ensures SucceededIn(Up(db, call).db, m.id) {
      assert m.id in call.ids;
    }
  }

  // ---- What the whole run does -----------------------------------------------------------------------------------

  predicate Reached(log: seq<Entry>) { log != [] && log[|log| - 1] == Did(FinalStatus) }

  /** A pre-schema migration that this run does not select although its release is not an older one. */
  predicate Unserved(c: Checkout, m: Migration) {
    m.phase.PreSchema? && m.release != c.open && !Older(m.release, c.open)
  }

  /**
   * No `up` was refused. A real run that got to its final status has done all it selects, and exits with 0 exactly when
   * no unserved migration is pending; and no other real run exits with 0.
   */
  ghost predicate Tells(c: Checkout, out: SyncOutcome) {
    && Ending.Refused !in out.trace.endings
    && (out.exitCode == 0 ==> Reached(out.trace.log))
    && (Reached(out.trace.log) ==>
          && (forall m | m in c.registry && Selects(c, m) :: HasRun(out.trace.world, m.id))
          && (out.exitCode == 0 <==> forall m | m in c.registry && Unserved(c, m) :: HasRun(out.trace.world, m.id)))
  }

  ghost predicate Entered(c: Checkout, t: Trace) {
    Clear(c, t.world) && Ending.Refused !in t.endings && !Reached(t.log)
  }

  lemma {:induction false} PendingIs(w: World, registry: seq<Migration>, id: Id)
    ensures id in PendingOf(w, registry) <==> exists m :: m in registry && m.id == id && !HasRun(w, id)
  {
    if registry != [] {
      PendingIs(w, registry[1..], id);
      if exists m :: m in registry && m.id == id && !HasRun(w, id) {
        var m :| m in registry && m.id == id && !HasRun(w, id);
        assert m == registry[0] || m in registry[1..];
      }
    }
  }

  lemma {:induction false} ToApplyIs(pending: seq<Id>, registry: seq<Migration>, open: Release, id: Id)
    ensures id in ToApply(pending, registry, open) <==> id in pending && !NotApplicable(registry, open, id)
  {
    if pending != [] {
      assert pending == pending[..|pending| - 1] + [pending[|pending| - 1]];
      ToApplyIs(pending[..|pending| - 1], registry, open, id);
    }
  }

  /** Nothing is left to apply exactly when all that is pending are pre-schema migrations of older releases. */
  lemma NothingToApplyIff(w: World, c: Checkout)
    requires UniqueIds(c.registry)
    ensures ToApply(PendingOf(w, c.registry), c.registry, c.open) == []
            <==> forall m | m in c.registry && !HasRun(w, m.id) :: m.phase.PreSchema? && Older(m.release, c.open)
  {
    var toApply := ToApply(PendingOf(w, c.registry), c.registry, c.open);
    if toApply == [] {
      forall m | m in c.registry && !HasRun(w, m.id) ensures m.phase.PreSchema? && Older(m.release, c.open) {
        PendingIs(w, c.registry, m.id);
        ToApplyIs(PendingOf(w, c.registry), c.registry, c.open, m.id);
      }
    } else {
      var id := toApply[0];
      ToApplyIs(PendingOf(w, c.registry), c.registry, c.open, id);
      PendingIs(w, c.registry, id);
    }
  }

  lemma OpenIsNotOlder(c: Checkout)
    ensures !Older(c.open, c.open)
  {
  }

  lemma FinalTells(c: Checkout, s: Script, before: StatusReport, t: Trace)
    requires CheckoutOk(c) && Entered(c, t)
    requires forall m | m in c.registry && Selects(c, m) :: HasRun(t.world, m.id)
    ensures Tells(c, FinalStage(c, s, before, t))
  {
    NothingToApplyIff(t.world, c);
    OpenIsNotOlder(c);
    forall m | m in c.registry && !HasRun(t.world, m.id)
      ensures m.phase.PreSchema? && m.release != c.open && (Unserved(c, m) <==> !Older(m.release, c.open))
    {
    }
  }

  lemma PostSchemaTells(c: Checkout, s: Script, before: StatusReport, t: Trace)
    requires CheckoutOk(c) && ScriptOk(c, s) && Entered(c, t) && AllDone(t.world, PreSchemaOf(c.registry, c.open))
    ensures Tells(c, PostSchemaStage(c, s, before, t))
  {
    SelectedOk(c);
    SelectionsOk(c);
    var selected := PostSchemaOf(c.registry);
    UpGoes(c, selected, s.post, RunPostSchema, t);
    var (t1, ok) := RunUp(c, selected, s.post, RunPostSchema, t);
    if ok {
      forall m | m in c.registry && Selects(c, m) ensures HasRun(t1.world, m.id) {
        SelectedOf(c.registry, c.open, m);
      }
      FinalTells(c, s, before, Report(t1, PostSchemaUp));
    }
  }

  lemma GenerateTells(c: Checkout, s: Script, before: StatusReport, t: Trace)
    requires CheckoutOk(c) && ScriptOk(c, s) && Entered(c, t)
    requires before.tableExists ==> AllDone(t.world, PreSchemaOf(c.registry, c.open))
    ensures Tells(c, GenerateStage(c, s, before, t))
  {
    SelectedOk(c);
    SelectionsOk(c);
    if s.generateOk {
      var t2 := Report(Run(t, RunGenerate), Generate);
      if before.tableExists {
        PostSchemaTells(c, s, before, t2);
      } else {
        var selected := PreSchemaOf(c.registry, c.open);
        UpGoes(c, selected, s.pre, RunPreSchema, t2);
        var (t3, ok) := RunUp(c, selected, s.pre, RunPreSchema, t2);
        if ok { PostSchemaTells(c, s, before, Report(t3, PreSchemaUp)); }
      }
    }
  }

  lemma PushTells(o: Options, c: Checkout, s: Script, before: StatusReport, t: Trace)
    requires CheckoutOk(c) && ScriptOk(c, s) && Entered(c, t) && !o.dryRun
    requires before.tableExists ==> AllDone(t.world, PreSchemaOf(c.registry, c.open))
    ensures Tells(c, PushStage(o, c, s, before, t))
  {
    if s.statements == 0 {
      GenerateTells(c, s, before, t);
    } else if s.push.Pushed? {
      var t1 := Run(t, RunPush);
      GenerateTells(c, s, before, Report(t1.(world := PushedWorld(t1.world)), DbPush));
    }
  }

  lemma BackupTells(o: Options, c: Checkout, s: Script, before: StatusReport, t: Trace)
    requires CheckoutOk(c) && ScriptOk(c, s) && Entered(c, t) && !o.dryRun
    requires before.tableExists ==> AllDone(t.world, PreSchemaOf(c.registry, c.open))
    ensures Tells(c, BackupStage(o, c, s, before, t))
  {
    if s.destructive > 0 && !o.acceptDataLoss {
    } else if s.destructive > 0 && !o.noBackup {
      var t2 := Run(Run(t, FindContainer), Dump);
      if s.nameOk && s.containerOk && s.dumpOk { PushTells(o, c, s, before, Report(t2, Backup)); }
    } else {
      PushTells(o, c, s, before, t);
    }
  }

  lemma SurveyTells(o: Options, c: Checkout, s: Script, before: StatusReport, t: Trace)
    requires CheckoutOk(c) && ScriptOk(c, s) && Entered(c, t) && !o.dryRun
    requires before.tableExists ==> AllDone(t.world, PreSchemaOf(c.registry, c.open))
    ensures Tells(c, SurveyStage(o, c, s, before, t))
  {
    if s.surveyOk && s.findings == 0 {
      var t2 := Report(Run(t, RunSurvey), Survey);
      if s.previewOk { BackupTells(o, c, s, before, Report(Run(t2, RunPreview), DdlPreview)); }
    }
  }

  lemma PreSchemaTells(o: Options, c: Checkout, s: Script, before: StatusReport, t: Trace)
    requires CheckoutOk(c) && ScriptOk(c, s) && Entered(c, t) && !o.dryRun
    ensures Tells(c, PreSchemaStage(o, c, s, before, t))
  {
    SelectedOk(c);
    SelectionsOk(c);
    if !before.tableExists {
      SurveyTells(o, c, s, before, t);
    } else {
      var selected := PreSchemaOf(c.registry, c.open);
      UpGoes(c, selected, s.pre, RunPreSchema, t);
      var (t1, ok) := RunUp(c, selected, s.pre, RunPreSchema, t);
      if ok { SurveyTells(o, c, s, before, Report(t1, PreSchemaUp)); }
    }
  }

  // ---- The theorems ----------------------------------------------------------------------------------------------

  /** `up` of this selection would be refused on this database, if it can read the ledger. */
  ghost predicate WouldRefuse(c: Checkout, selected: seq<Migration>, s: UpScript, w: World)
    requires CallOk(UpCall(c, selected, s))
  {
    w.ledger.Some? && Up(w.ledger.value, UpCall(c, selected, s.(readable := true))).ending.Refused?
  }

  lemma WouldRefuseIff(c: Checkout, selected: seq<Migration>, s: UpScript, w: World)
    requires CheckoutOk(c) && SelectionOk(c, selected) && |s.fates| == |selected|
    requires CallOk(UpCall(c, selected, s))
    ensures WouldRefuse(c, selected, s, w)
            <==> c.failOnDrift && exists m :: m in selected && HasDrift(w, m.id, c.current)
  {
    if w.ledger.Some? {
      var db, call := w.ledger.value, UpCall(c, selected, s.(readable := true));
      CallIsOk(c, selected, s.(readable := true));
      RefusedIff(db, call);
      if exists m :: m in selected && HasDrift(w, m.id, c.current) {
        var m :| m in selected && HasDrift(w, m.id, c.current);
        assert m.id in call.ids && Drifted(db, m.id, c.current[m.id]);
      }
      if exists id :: id in call.ids && Drifted(db, id, c.current[id]) {
        var id :| id in call.ids && Drifted(db, id, c.current[id]);
        var m :| m in selected && m.id == id;
        assert HasDrift(w, m.id, c.current);
      }
    }
  }

  /** What the status report calls refused drift is drift of a selected migration. */
  lemma RefusesIff(c: Checkout, w: World)
    requires CheckoutOk(c)
    ensures Refuses(c, StatusOf(w, c.registry, c.open, c.current)) <==> !Clear(c, w)
  {
    var before := StatusOf(w, c.registry, c.open, c.current);
    var refused := RefusedDrift(before, c.registry);
    if refused != {} {
      var id := AnyOf(refused);
      assert id in before.drift && Registered(c.registry, id);
      var m :| m in c.registry && m.id == id && (m.phase.PostSchema? || m.release == before.open);
      assert Selects(c, m) && HasDrift(w, m.id, c.current);
    }
    if !Clear(c, w) {
      var m :| m in c.registry && Selects(c, m) && HasDrift(w, m.id, c.current);
      assert m.id in before.drift && m.id in refused;
    }
  }

  lemma ClearIff(c: Checkout, s: Script, w: World)
    requires CheckoutOk(c) && ScriptOk(c, s)
    ensures var (pre, post) := (PreSchemaOf(c.registry, c.open), PostSchemaOf(c.registry));
            && CallOk(UpCall(c, pre, s.pre)) && CallOk(UpCall(c, post, s.post))
            && (!Clear(c, w) <==> WouldRefuse(c, pre, s.pre, w) || WouldRefuse(c, post, s.post, w))
  {
    var (pre, post) := (PreSchemaOf(c.registry, c.open), PostSchemaOf(c.registry));
    SelectionsOk(c);
    CallIsOk(c, pre, s.pre);
    CallIsOk(c, post, s.post);
    WouldRefuseIff(c, pre, s.pre, w);
    WouldRefuseIff(c, post, s.post, w);
    if !Clear(c, w) {
      var m :| m in c.registry && Selects(c, m) && HasDrift(w, m.id, c.current);
      SelectedOf(c.registry, c.open, m);
      assert m in pre || m in post;
    }
  }

  lemma RunTells(o: Options, c: Checkout, s: Script, w: World)
    requires CheckoutOk(c) && ScriptOk(c, s) && !o.dryRun
    ensures Tells(c, Sync(o, c, s, w))
  {
    RefusesIff(c, w);
    var t := Report(Run(Trace([], [], w), RunBuild), BuildShared);
    var before := StatusOf(w, c.registry, c.open, c.current);
    if s.targetOk && s.buildOk && s.statusOk && s.registryOk && !Refuses(c, before) {
      PreSchemaTells(o, c, s, before, Report(Run(t, RunStatus), ReadStatus));
    }
  }

  /**
   * Drift is predicted exactly. When its status could be read, a real run stops there, before its first change, if and
   * only if one of its two `up` calls would be refused on the database as it is.
   */
  lemma StopsFirstIff(o: Options, c: Checkout, s: Script, w: World)
    requires CheckoutOk(c) && ScriptOk(c, s) && !o.dryRun
    requires s.targetOk && s.buildOk && s.statusOk && s.registryOk
    ensures var (pre, post) := (PreSchemaOf(c.registry, c.open), PostSchemaOf(c.registry)); var out := Sync(o, c, s, w);
            && CallOk(UpCall(c, pre, s.pre)) && CallOk(UpCall(c, post, s.post))
            && (WouldRefuse(c, pre, s.pre, w) || WouldRefuse(c, post, s.post, w)
                <==> out.trace.log == [Ran(RunBuild), Did(BuildShared), Ran(RunStatus), Did(ReadStatus)])
            && (WouldRefuse(c, pre, s.pre, w) || WouldRefuse(c, post, s.post, w) ==>
                  out.exitCode == 1 && out.trace.world == w)
  {
    ClearIff(c, s, w);
    RefusesIff(c, w);
    var opening := [Ran(RunBuild), Did(BuildShared), Ran(RunStatus), Did(ReadStatus)];
    var t := Report(Run(Report(Run(Trace([], [], w), RunBuild), BuildShared), RunStatus), ReadStatus);
    assert t.log == opening;
    var before := StatusOf(w, c.registry, c.open, c.current);
    if !Refuses(c, before) {
      OpeningTrail(o, s, before.tableExists, w);
      T.PreSchemaGoes(o, c, s, before, t);
    }
  }

  lemma OpeningTrail(o: Options, s: Script, table: bool, w: World)
    requires !o.dryRun
    ensures var built := Report(Run(Trace([], [], w), RunBuild), BuildShared);
            T.Trail(o, s, table, Report(Run(built, RunStatus), ReadStatus).log, 2)
  {
    T.StepKept(o, s, table, [], 0, RunBuild, BuildShared);
    T.StepKept(o, s, table, [] + [Ran(RunBuild)] + [Did(BuildShared)], 1, RunStatus, ReadStatus);
  }

  /** And if it does not stop, neither is refused later in that run, nor in a dry run. */
  lemma NeverRefusedLater(o: Options, c: Checkout, s: Script, w: World)
    requires CheckoutOk(c) && ScriptOk(c, s)
    ensures Ending.Refused !in Sync(o, c, s, w).trace.endings
  {
    if o.dryRun { T.DryRunIsReadOnly(o, c, s, w); } else { RunTells(o, c, s, w); }
  }

  /** Exit 0 of a real run means that every migration still pending is a pre-schema one of an older release. */
  lemma ExitZeroMeans(o: Options, c: Checkout, s: Script, w: World)
    requires CheckoutOk(c) && ScriptOk(c, s) && !o.dryRun && Sync(o, c, s, w).exitCode == 0
    ensures forall m | m in c.registry && !HasRun(Sync(o, c, s, w).trace.world, m.id) ::
              m.phase.PreSchema? && Older(m.release, c.open)
  {
    RunTells(o, c, s, w);
  }

  /**
   * A real run that gets to its final status has run every migration it selects, so it exits with 0 exactly when no
   * pre-schema migration is pending whose release is neither the open one nor an older one.
   */
  lemma ExitZeroIff(o: Options, c: Checkout, s: Script, w: World)
    requires CheckoutOk(c) && ScriptOk(c, s) && !o.dryRun && Reached(Sync(o, c, s, w).trace.log)
    ensures var out := Sync(o, c, s, w);
            && (forall m | m in c.registry && Selects(c, m) :: HasRun(out.trace.world, m.id))
            && (out.exitCode == 0 <==> forall m | m in c.registry && Unserved(c, m) :: HasRun(out.trace.world, m.id))
  {
    RunTells(o, c, s, w);
  }

  // ---- What a dry run forecasts ----------------------------------------------------------------------------------

  lemma StopsAfterSurvey(o: Options, c: Checkout, s: Script, before: StatusReport, t: Trace)
    requires CheckoutOk(c) && ScriptOk(c, s) && !o.dryRun
    requires s.findings > 0 || (s.destructive > 0 && !o.acceptDataLoss)
    ensures SurveyStage(o, c, s, before, t).exitCode != 0
  {
  }

  /** If a dry run reports that the real run would stop, the real run does: with the same answers it never exits with 0. */
  lemma BlockedDryRunForecasts(o: Options, c: Checkout, s: Script, w: World)
    requires CheckoutOk(c) && ScriptOk(c, s) && !o.dryRun && Sync(o.(dryRun := true), c, s, w).exitCode == 1
    ensures Sync(o, c, s, w).exitCode != 0
  {
    var d, before := o.(dryRun := true), StatusOf(w, c.registry, c.open, c.current);
    assert s.targetOk && s.statusOk && s.registryOk;
    assert Sync(d, c, s, w) == SurveyStage(d, c, s, before, Report(Run(Trace([], [], w), RunStatus), ReadStatus));
    assert Refuses(c, before) || s.findings > 0 || (s.destructive > 0 && !o.acceptDataLoss);
    if s.buildOk && !Refuses(c, before) {
      var t := Report(Run(Report(Run(Trace([], [], w), RunBuild), BuildShared), RunStatus), ReadStatus);
      SelectedOk(c);
      if before.tableExists {
        var (t1, ok) := RunUp(c, PreSchemaOf(c.registry, c.open), s.pre, RunPreSchema, t);
        StopsAfterSurvey(o, c, s, before, Report(t1, PreSchemaUp));
      } else {
        StopsAfterSurvey(o, c, s, before, t);
      }
    }
  }

  // ---- A run that cannot exit with 0 -----------------------------------------------------------------------------

  /** One pre-schema migration, of some release. */
  function OneMigration(m: Migration, open: Release): Checkout { Checkout([m], open, map[m.id := 0], 0, false) }

  function EverythingWorks(): Script {
    var up := UpScript(true, [], true);
    Script(true, true, true, true, up, true, 0, true, 0, 0, true, true, true, Pushed, true, up, true)
  }

  /**
   * A pending pre-schema migration of a release that is neither the open one nor an older one: on an empty ledger, with
   * nothing to push and every command answering well, a real run goes to its end and exits with 2, the migration pending
   * as before.
   */
  lemma NewerReleaseExitsTwo(m: Migration, open: Release)
    requires m.phase.PreSchema? && m.release != open && !Older(m.release, open)
    ensures var c, s, w := OneMigration(m, open), EverythingWorks(), World(Some(Db(map[], [])));
            && CheckoutOk(c) && ScriptOk(c, s)
            && var out := Sync(Options(false, false, false), c, s, w);
               Reached(out.trace.log) && out.exitCode == 2 && !HasRun(out.trace.world, m.id)
  {
    var o, c, s, w := Options(false, false, false), OneMigration(m, open), EverythingWorks(), World(Some(Db(map[], [])));
    SelectsNothing(m, open);
    var before := StatusOf(w, c.registry, c.open, c.current);
    assert !Refuses(c, before);
    var t2 := Report(Run(Report(Run(Trace([], [], w), RunBuild), BuildShared), RunStatus), ReadStatus);
    assert Sync(o, c, s, w) == PreSchemaStage(o, c, s, before, t2);
    var (t3, ok) := RunUp(c, [], s.pre, RunPreSchema, t2);
    EmptyUp(c, s.pre, RunPreSchema, t2);
    assert Sync(o, c, s, w) == SurveyStage(o, c, s, before, Report(t3, PreSchemaUp));
    var t5 := Report(Run(Report(Run(Report(t3, PreSchemaUp), RunSurvey), Survey), RunPreview), DdlPreview);
    assert Sync(o, c, s, w) == GenerateStage(c, s, before, t5);
    var t6 := Report(Run(t5, RunGenerate), Generate);
    assert Sync(o, c, s, w) == PostSchemaStage(c, s, before, t6);
    var (t7, fine) := RunUp(c, [], s.post, RunPostSchema, t6);
    EmptyUp(c, s.post, RunPostSchema, t6);
    assert t7.world == w;
    assert Sync(o, c, s, w) == FinalStage(c, s, before, Report(t7, PostSchemaUp));
    StaysToApply(m, open, w);
  }

  lemma SelectsNothing(m: Migration, open: Release)
    requires m.phase.PreSchema? && m.release != open
    ensures PreSchemaOf([m], open) == [] && PostSchemaOf([m]) == []
  {
    assert [m][1..] == [];
  }

  lemma EmptyUp(c: Checkout, s: UpScript, command: Command, t: Trace)
    requires s.fates == [] && s.readable && s.restOk && !c.failOnDrift && t.world.ledger.Some?
    ensures RunUp(c, [], s, command, t) == (Run(t, command).(endings := t.endings + [Completed]), true)
  {
  }

  lemma StaysToApply(m: Migration, open: Release, w: World)
    requires m.phase.PreSchema? && !Older(m.release, open) && !HasRun(w, m.id)
    ensures ToApply(PendingOf(w, [m]), [m], open) == [m.id]
  {
    assert [m][1..] == [];
    assert PendingOf(w, [m]) == [m.id] + PendingOf(w, []);
    assert [m.id][..0] == [];
    assert ToApply([m.id], [m], open) == ToApply([], [m], open) + [m.id];
  }
}
