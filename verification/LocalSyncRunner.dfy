/** The sync as it is carried out: it pushes onto its steps as they are done, and stops by returning. */
module LocalSyncRunner {
  import opened Common
  import opened Ledger
  import opened LocalSync

  /** The pending migrations that are not for this run to apply. */
  function LeftAlone(pending: seq<Id>, registry: seq<Migration>, open: Release): seq<Id> {
    if pending == [] then []
    else
      var last := pending[|pending| - 1];
      LeftAlone(pending[..|pending| - 1], registry, open) +
      (if NotApplicable(registry, open, last) then [last] else [])
  }

  /** Splits what is pending into what this run must apply and what is not for it to apply, each in order. */
  method ClassifyPendingMigrations(pending: seq<Id>, registry: seq<Migration>, open: Release)
    returns (toApply: seq<Id>, notApplicable: seq<Id>)
    ensures toApply == ToApply(pending, registry, open) && notApplicable == LeftAlone(pending, registry, open)
    ensures |toApply| + |notApplicable| == |pending|
  {
    toApply, notApplicable := [], [];
    for i := 0 to |pending|
      invariant toApply == ToApply(pending[..i], registry, open)
      invariant notApplicable == LeftAlone(pending[..i], registry, open)
      invariant |toApply| + |notApplicable| == i
    {
      var id := pending[i];
      assert pending[..i + 1][..i] == pending[..i];
      if NotApplicable(registry, open, id) {
        notApplicable := notApplicable + [id];
      } else {
        toApply := toApply + [id];
      }
    }
    assert pending[..|pending|] == pending;
  }

  /** Where a dry run says that the real run would stop. */
  datatype StopReason = SourceDrift(ids: set<Id>) | SurveyFindings | DestructiveDdl

  /** The dry run's report of what the real run would do: it is blocked exactly if there is a reason to stop. */
  method FinishDryRun(o: Options, c: Checkout, s: Script, before: StatusReport, t: Trace)
    returns (out: SyncOutcome, stops: seq<StopReason>)
    ensures out == LocalSync.FinishDryRun(o, c, s, before, t)
    ensures out.exitCode == 1 <==> stops != []
    ensures out.exitCode == 0 <==> stops == []
    ensures forall ids :: SourceDrift(ids) in stops <==> Refuses(c, before) && ids == RefusedDrift(before, c.registry)
    ensures SurveyFindings in stops <==> s.findings > 0
    ensures DestructiveDdl in stops <==> s.destructive > 0 && !o.acceptDataLoss
  {
    stops := [];
    if Refuses(c, before) { stops := stops + [SourceDrift(RefusedDrift(before, c.registry))]; }
    if s.findings > 0 { stops := stops + [SurveyFindings]; }
    if s.destructive > 0 && !o.acceptDataLoss { stops := stops + [DestructiveDdl]; }
    if |stops| > 0 { return SyncOutcome(1, Blocked, t), stops; }
    var toApply, _ := ClassifyPendingMigrations(before.pending, c.registry, c.open);
    if toApply == [] && s.statements == 0 { return SyncOutcome(0, InSync, t), stops; }
    return SyncOutcome(0, WouldApply, t), stops;
  }

  /** From the schema change on: backup, push, client, migrations, final status. */
  method ApplyChanges(o: Options, c: Checkout, s: Script, before: StatusReport, t0: Trace) returns (out: SyncOutcome)
    requires CheckoutOk(c) && ScriptOk(c, s)
    ensures out == BackupStage(o, c, s, before, t0)
  {
    var t := t0;
    var destructive := s.destructive > 0;
    if destructive && !o.acceptDataLoss { return Stop(t, 1); }
    if destructive && !o.noBackup {
      if !s.nameOk { return Stop(t, 2); }
      t := Run(t, FindContainer);
      if !s.containerOk { return Stop(t, 2); }
      t := Run(t, Dump);
      if !s.dumpOk { return Stop(t, 2); }
      t := Report(t, Backup);
    }
    assert BackupStage(o, c, s, before, t0) == PushStage(o, c, s, before, t);
    if s.statements > 0 {
      t := Run(t, RunPush);
      if !s.push.Pushed? {
        return Stop(t, if s.push.NeedsConsent? || (s.push.NeedsAcceptance? && !o.acceptDataLoss) then 1 else 2);
      }
      t := Report(t.(world := PushedWorld(t.world)), DbPush);
    }
    out := MigrateAndCheck(c, s, before, t);
  }

  method MigrateAndCheck(c: Checkout, s: Script, before: StatusReport, t0: Trace) returns (out: SyncOutcome)
    requires CheckoutOk(c) && ScriptOk(c, s)
    ensures out == GenerateStage(c, s, before, t0)
  {
    SelectedOk(c);
    var t, ok := Run(t0, RunGenerate), true;
    if !s.generateOk { return Stop(t, 2); }
    t := Report(t, Generate);
    if !before.tableExists {
      var up := RunUp(c, PreSchemaOf(c.registry, c.open), s.pre, RunPreSchema, t);
      t, ok := up.0, up.1;
      if !ok { return Stop(t, 2); }
      t := Report(t, PreSchemaUp);
    }
    assert GenerateStage(c, s, before, t0) == PostSchemaStage(c, s, before, t);
    var up := RunUp(c, PostSchemaOf(c.registry), s.post, RunPostSchema, t);
    t, ok := up.0, up.1;
    if !ok { return Stop(t, 2); }
    t := Run(Report(t, PostSchemaUp), RunFinalStatus);
    if !s.finalOk { return Stop(t, 2); }
    var after := StatusOf(t.world, c.registry, c.open, c.current);
    t := Report(t, FinalStatus);
    var remaining, _ := ClassifyPendingMigrations(after.pending, c.registry, c.open);
    if remaining != [] { return Stop(t, 2); }
    var pending, _ := ClassifyPendingMigrations(before.pending, c.registry, c.open);
    return SyncOutcome(0, if pending == [] && s.statements == 0 then InSync else AppliedAll, t);
  }

  method RunLocalSync(o: Options, c: Checkout, s: Script, w: World) returns (out: SyncOutcome)
    requires CheckoutOk(c) && ScriptOk(c, s)
    ensures out == Sync(o, c, s, w)
  {
    SelectedOk(c);
    var t := Trace([], [], w);
    if !s.targetOk { return Stop(t, 2); }
    if !o.dryRun {
      t := Run(t, RunBuild);
      if !s.buildOk { return Stop(t, 2); }
      t := Report(t, BuildShared);
    }
    t := Run(t, RunStatus);
    if !s.statusOk { return Stop(t, 2); }
    t := Report(t, ReadStatus);
    if !s.registryOk { return Stop(t, 2); }
    var before := StatusOf(w, c.registry, c.open, c.current);
    if Refuses(c, before) && !o.dryRun { return Stop(t, 1); }
    assert Sync(o, c, s, w) == PreSchemaStage(o, c, s, before, t);
    if !o.dryRun && before.tableExists {
      var up := RunUp(c, PreSchemaOf(c.registry, c.open), s.pre, RunPreSchema, t);
      t := up.0;
      if !up.1 { return Stop(t, 2); }
      t := Report(t, PreSchemaUp);
    }
    assert Sync(o, c, s, w) == SurveyStage(o, c, s, before, t);
    t := Run(t, RunSurvey);
    if !s.surveyOk { return Stop(t, 2); }
    t := Report(t, Survey);
    if s.findings > 0 && !o.dryRun { return Stop(t, 1); }
    t := Run(t, RunPreview);
    if !s.previewOk { return Stop(t, 2); }
    t := Report(t, DdlPreview);
    if o.dryRun {
      var stops: seq<StopReason>;
      out, stops := FinishDryRun(o, c, s, before, t);
    } else {
      out := ApplyChanges(o, c, s, before, t);
    }
  }
}
