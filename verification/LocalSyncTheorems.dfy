/** What every run of `db:sync:local` keeps to. */
module LocalSyncTheorems {
  import opened Common
  import opened Ledger
  import opened LocalSync

  // ---- The log follows the plan ----------------------------------------------------------------------------------

  /** Where a step stands in the plan. */
  function Rank(tableExists: bool, dryRun: bool, s: Step): nat {
    if dryRun then (if s.ReadStatus? then 0 else if s.Survey? then 1 else 2)
    else
      match s
      case BuildShared => 0
      case ReadStatus => 1
      case PreSchemaUp => if tableExists then 2 else 7
      case Survey => if tableExists then 3 else 2
      case DdlPreview => if tableExists then 4 else 3
      case Backup => if tableExists then 5 else 4
      case DbPush => if tableExists then 6 else 5
      case Generate => if tableExists then 7 else 6
      case PostSchemaUp => 8
      case FinalStatus => 9
  }

  /** What must have been done when the schema is pushed. */
  predicate SafeToPush(o: Options, s: Script, tableExists: bool, done: seq<Entry>) {
    && Did(Survey) in done && s.findings == 0 && Did(DdlPreview) in done
    && (tableExists ==> Did(PreSchemaUp) in done)
    && (s.destructive > 0 ==> o.acceptDataLoss && (o.noBackup || Did(Backup) in done))
  }

  predicate ReadOnly(c: Command) { c.RunStatus? || c.RunSurvey? || c.RunPreview? }

  predicate Planned(dryRun: bool, s: Step) { dryRun ==> s.ReadStatus? || s.Survey? || s.DdlPreview? }

  /** The steps done come in the plan's order, and before its `n`th. */
  ghost predicate InOrder(o: Options, table: bool, log: seq<Entry>, n: nat) {
    if log == [] then true
    else
      var init, last := log[..|log| - 1], log[|log| - 1];
      match last
      case Ran(_) => InOrder(o, table, init, n)
      case Did(s) =>
        && Planned(o.dryRun, s) && Rank(table, o.dryRun, s) < n
        && InOrder(o, table, init, Rank(table, o.dryRun, s))
  }

  ghost predicate Careful(o: Options, s: Script, table: bool, log: seq<Entry>) {
    if log == [] then true
    else
      var init, last := log[..|log| - 1], log[|log| - 1];
      && Careful(o, s, table, init)
      && (last.Ran? && o.dryRun ==> ReadOnly(last.command))
      && (last == Ran(RunPush) ==> SafeToPush(o, s, table, init))
  }

  ghost predicate Trail(o: Options, s: Script, table: bool, log: seq<Entry>, n: nat) {
    InOrder(o, table, log, n) && Careful(o, s, table, log)
  }

  lemma RunKept(o: Options, s: Script, table: bool, log: seq<Entry>, n: nat, c: Command)
    requires Trail(o, s, table, log, n) && (o.dryRun ==> ReadOnly(c))
    requires c.RunPush? ==> SafeToPush(o, s, table, log)
    ensures Trail(o, s, table, log + [Ran(c)], n)
  {
  }

  lemma {:induction false} Widen(o: Options, s: Script, table: bool, log: seq<Entry>, n: nat, m: nat)
    requires Trail(o, s, table, log, n) && n <= m
    ensures Trail(o, s, table, log, m)
  {
    if log != [] && log[|log| - 1].Ran? { Widen(o, s, table, log[..|log| - 1], n, m); }
  }

  lemma ReportKept(o: Options, s: Script, table: bool, log: seq<Entry>, n: nat, step: Step)
    requires Trail(o, s, table, log, n) && Planned(o.dryRun, step) && n <= Rank(table, o.dryRun, step)
    ensures Trail(o, s, table, log + [Did(step)], Rank(table, o.dryRun, step) + 1)
  {
    assert (log + [Did(step)])[..|log|] == log;
    Widen(o, s, table, log, n, Rank(table, o.dryRun, step));
  }

  /** One step whose command is started and then answered, or not. */
  lemma StepKept(o: Options, s: Script, table: bool, log: seq<Entry>, n: nat, c: Command, step: Step)
    requires Trail(o, s, table, log, n) && Planned(o.dryRun, step) && n <= Rank(table, o.dryRun, step)
    requires (o.dryRun ==> ReadOnly(c)) && (c.RunPush? ==> SafeToPush(o, s, table, log))
    ensures Trail(o, s, table, log + [Ran(c)], n) && Trail(o, s, table, log + [Ran(c)], 10)
    ensures Trail(o, s, table, log + [Ran(c)] + [Did(step)], Rank(table, o.dryRun, step) + 1)
    ensures Trail(o, s, table, log + [Ran(c)] + [Did(step)], 10)
  {
    RunKept(o, s, table, log, n, c);
    ReportKept(o, s, table, log + [Ran(c)], n, step);
    Widen(o, s, table, log + [Ran(c)], n, 10);
    Widen(o, s, table, log + [Ran(c)] + [Did(step)], Rank(table, o.dryRun, step) + 1, 10);
  }

  /** A run that went on from a log: it kept the log, added to it, and kept to the plan. */
  ghost predicate Goes(o: Options, s: Script, table: bool, log: seq<Entry>, out: SyncOutcome) {
    log < out.trace.log && Trail(o, s, table, out.trace.log, 10)
  }

  lemma FinalGoes(o: Options, c: Checkout, s: Script, before: StatusReport, t: Trace)
    requires Trail(o, s, before.tableExists, t.log, 9) && !o.dryRun
    ensures Goes(o, s, before.tableExists, t.log, FinalStage(c, s, before, t))
  {
    StepKept(o, s, before.tableExists, t.log, 9, RunFinalStatus, FinalStatus);
  }

  lemma RunUpLogs(c: Checkout, selected: seq<Migration>, s: UpScript, command: Command, t: Trace)
    requires |s.fates| == |selected| && forall m | m in selected :: m.id in c.current
    ensures RunUp(c, selected, s, command, t).0.log == t.log + [Ran(command)]
  {
  }

  lemma PostSchemaGoes(o: Options, c: Checkout, s: Script, before: StatusReport, t: Trace)
    requires CheckoutOk(c) && ScriptOk(c, s) && Trail(o, s, before.tableExists, t.log, 8) && !o.dryRun
    ensures Goes(o, s, before.tableExists, t.log, PostSchemaStage(c, s, before, t))
  {
    SelectedOk(c);
    StepKept(o, s, before.tableExists, t.log, 8, RunPostSchema, PostSchemaUp);
    var (t1, ok) := RunUp(c, PostSchemaOf(c.registry), s.post, RunPostSchema, t);
    if ok { FinalGoes(o, c, s, before, Report(t1, PostSchemaUp)); }
  }

  lemma GenerateGoes(o: Options, c: Checkout, s: Script, before: StatusReport, t: Trace)
    requires CheckoutOk(c) && ScriptOk(c, s) && !o.dryRun
    requires Trail(o, s, before.tableExists, t.log, if before.tableExists then 7 else 6)
    ensures Goes(o, s, before.tableExists, t.log, GenerateStage(c, s, before, t))
  {
    SelectedOk(c);
    var table := before.tableExists;
    StepKept(o, s, table, t.log, if table then 7 else 6, RunGenerate, Generate);
    if s.generateOk {
      var t2 := Report(Run(t, RunGenerate), Generate);
      if table { PostSchemaGoes(o, c, s, before, t2); } else {
        StepKept(o, s, table, t2.log, 7, RunPreSchema, PreSchemaUp);
        var (t3, ok) := RunUp(c, PreSchemaOf(c.registry, c.open), s.pre, RunPreSchema, t2);
        if ok { PostSchemaGoes(o, c, s, before, Report(t3, PreSchemaUp)); }
      }
    }
  }

  lemma PushGoes(o: Options, c: Checkout, s: Script, before: StatusReport, t: Trace)
    requires CheckoutOk(c) && ScriptOk(c, s) && !o.dryRun && SafeToPush(o, s, before.tableExists, t.log)
    requires Trail(o, s, before.tableExists, t.log, if before.tableExists then 6 else 5)
    ensures Goes(o, s, before.tableExists, t.log, PushStage(o, c, s, before, t))
  {
    var table := before.tableExists;
    if s.statements == 0 {
      Widen(o, s, table, t.log, if table then 6 else 5, if table then 7 else 6);
      GenerateGoes(o, c, s, before, t);
    } else {
      StepKept(o, s, table, t.log, if table then 6 else 5, RunPush, DbPush);
      var t1 := Run(t, RunPush);
      if s.push.Pushed? {
        GenerateGoes(o, c, s, before, Report(t1.(world := PushedWorld(t1.world)), DbPush));
      } else {
        assert PushStage(o, c, s, before, t).trace == t1;
      }
    }
  }

  lemma BackUpFirstGoes(o: Options, c: Checkout, s: Script, before: StatusReport, t: Trace)
    requires CheckoutOk(c) && ScriptOk(c, s) && !o.dryRun && s.findings == 0 && o.acceptDataLoss
    requires Did(Survey) in t.log && Did(DdlPreview) in t.log && (before.tableExists ==> Did(PreSchemaUp) in t.log)
    requires Trail(o, s, before.tableExists, t.log, if before.tableExists then 5 else 4)
    ensures var out := BackUpFirst(o, c, s, before, t);
            t.log <= out.trace.log && Trail(o, s, before.tableExists, out.trace.log, 10)
  {
    var table := before.tableExists;
    var n := if table then 5 else 4;
    Widen(o, s, table, t.log, n, 10);
    if s.nameOk {
      RunKept(o, s, table, t.log, n, FindContainer);
      var t1 := Run(t, FindContainer);
      Widen(o, s, table, t1.log, n, 10);
      if s.containerOk {
        StepKept(o, s, table, t1.log, n, Dump, Backup);
        if s.dumpOk { PushGoes(o, c, s, before, Report(Run(t1, Dump), Backup)); }
      }
    }
  }

  /** Unlike the stages around it, this one can stop without having started a command. */
  lemma BackupGoes(o: Options, c: Checkout, s: Script, before: StatusReport, t: Trace)
    requires CheckoutOk(c) && ScriptOk(c, s) && !o.dryRun && s.findings == 0
    requires Did(Survey) in t.log && Did(DdlPreview) in t.log && (before.tableExists ==> Did(PreSchemaUp) in t.log)
    requires Trail(o, s, before.tableExists, t.log, if before.tableExists then 5 else 4)
    ensures var out := BackupStage(o, c, s, before, t);
            t.log <= out.trace.log && Trail(o, s, before.tableExists, out.trace.log, 10)
  {
    var n := if before.tableExists then 5 else 4;
    if s.destructive > 0 && !o.acceptDataLoss {
      Widen(o, s, before.tableExists, t.log, n, 10);
    } else if s.destructive > 0 && !o.noBackup {
      BackUpFirstGoes(o, c, s, before, t);
    } else {
      Widen(o, s, before.tableExists, t.log, n, n + 1);
      PushGoes(o, c, s, before, t);
    }
  }

  lemma PreviewGoes(o: Options, c: Checkout, s: Script, before: StatusReport, t: Trace)
    requires CheckoutOk(c) && ScriptOk(c, s) && (s.findings == 0 || o.dryRun) && Did(Survey) in t.log
    requires !o.dryRun && before.tableExists ==> Did(PreSchemaUp) in t.log
    requires Trail(o, s, before.tableExists, t.log, Rank(before.tableExists, o.dryRun, DdlPreview))
    ensures Goes(o, s, before.tableExists, t.log, PreviewStage(o, c, s, before, t))
  {
    var n := Rank(before.tableExists, o.dryRun, DdlPreview);
    StepKept(o, s, before.tableExists, t.log, n, RunPreview, DdlPreview);
    var t1 := Run(t, RunPreview);
    if !s.previewOk {
      assert PreviewStage(o, c, s, before, t) == Stop(t1, 2);
    } else {
      var t2 := Report(t1, DdlPreview);
      if o.dryRun {
        assert PreviewStage(o, c, s, before, t) == FinishDryRun(o, c, s, before, t2);
      } else {
        BackupGoes(o, c, s, before, t2);
      }
    }
  }

  lemma SurveyGoes(o: Options, c: Checkout, s: Script, before: StatusReport, t: Trace)
    requires CheckoutOk(c) && ScriptOk(c, s)
    requires !o.dryRun && before.tableExists ==> Did(PreSchemaUp) in t.log
    requires Trail(o, s, before.tableExists, t.log, Rank(before.tableExists, o.dryRun, Survey))
    ensures Goes(o, s, before.tableExists, t.log, SurveyStage(o, c, s, before, t))
  {
    var n := Rank(before.tableExists, o.dryRun, Survey);
    StepKept(o, s, before.tableExists, t.log, n, RunSurvey, Survey);
    if s.surveyOk && (s.findings == 0 || o.dryRun) {
      PreviewGoes(o, c, s, before, Report(Run(t, RunSurvey), Survey));
    }
  }

  lemma PreSchemaGoes(o: Options, c: Checkout, s: Script, before: StatusReport, t: Trace)
    requires CheckoutOk(c) && ScriptOk(c, s)
    requires Trail(o, s, before.tableExists, t.log, if o.dryRun then 1 else 2)
    ensures Goes(o, s, before.tableExists, t.log, PreSchemaStage(o, c, s, before, t))
  {
    SelectedOk(c);
    if o.dryRun || !before.tableExists {
      SurveyGoes(o, c, s, before, t);
    } else {
      StepKept(o, s, true, t.log, 2, RunPreSchema, PreSchemaUp);
      var (t1, ok) := RunUp(c, PreSchemaOf(c.registry, c.open), s.pre, RunPreSchema, t);
      RunUpLogs(c, PreSchemaOf(c.registry, c.open), s.pre, RunPreSchema, t);
      if ok { SurveyGoes(o, c, s, before, Report(t1, PreSchemaUp)); }
    }
  }

  lemma StatusGoes(o: Options, c: Checkout, s: Script, t: Trace)
    requires CheckoutOk(c) && ScriptOk(c, s)
    requires Trail(o, s, t.world.ledger.Some?, t.log, if o.dryRun then 0 else 1)
    ensures Goes(o, s, t.world.ledger.Some?, t.log, StatusStage(o, c, s, t))
  {
    var before := StatusOf(t.world, c.registry, c.open, c.current);
    StepKept(o, s, before.tableExists, t.log, if o.dryRun then 0 else 1, RunStatus, ReadStatus);
    if s.statusOk && s.registryOk && !(Refuses(c, before) && !o.dryRun) {
      PreSchemaGoes(o, c, s, before, Report(Run(t, RunStatus), ReadStatus));
    }
  }

  lemma SyncGoes(o: Options, c: Checkout, s: Script, w: World)
    requires CheckoutOk(c) && ScriptOk(c, s)
    ensures Trail(o, s, w.ledger.Some?, Sync(o, c, s, w).trace.log, 10)
  {
    var t := Trace([], [], w);
    if s.targetOk {
      if o.dryRun { StatusGoes(o, c, s, t); } else {
        StepKept(o, s, w.ledger.Some?, [], 0, RunBuild, BuildShared);
        assert [] + [Ran(RunBuild)] == [Ran(RunBuild)];
        if s.buildOk { StatusGoes(o, c, s, Report(Run(t, RunBuild), BuildShared)); }
      }
    }
  }

  function StepsOf(log: seq<Entry>): seq<Step> {
    if log == [] then []
    else StepsOf(log[..|log| - 1]) + (if log[|log| - 1].Did? then [log[|log| - 1].step] else [])
  }

  ghost predicate Subsequence<T>(part: seq<T>, whole: seq<T>, at: seq<nat>) {
    && |at| == |part| && (forall i | 0 <= i < |at| :: at[i] < |whole| && whole[at[i]] == part[i])
    && (forall i, j | 0 <= i < j < |at| :: at[i] < at[j])
  }

  lemma PlanRank(table: bool, dryRun: bool, s: Step)
    requires Planned(dryRun, s)
    ensures Rank(table, dryRun, s) < |Plan(table, dryRun)| && Plan(table, dryRun)[Rank(table, dryRun, s)] == s
  {
  }

  lemma {:induction false} StepsFollowPlan(o: Options, table: bool, log: seq<Entry>, n: nat) returns (at: seq<nat>)
    requires InOrder(o, table, log, n)
    ensures Subsequence(StepsOf(log), Plan(table, o.dryRun), at) && forall i | 0 <= i < |at| :: at[i] < n
  {
    at := [];
    if log != [] {
      var init, last := log[..|log| - 1], log[|log| - 1];
      if last.Did? {
        var rank := Rank(table, o.dryRun, last.step);
        at := StepsFollowPlan(o, table, init, rank);
        PlanRank(table, o.dryRun, last.step);
        at := at + [rank];
      } else {
        at := StepsFollowPlan(o, table, init, n);
      }
    }
  }

  lemma {:induction false} DryRunReads(o: Options, s: Script, table: bool, log: seq<Entry>)
    requires Careful(o, s, table, log) && o.dryRun
    ensures forall e | e in log && e.Ran? :: ReadOnly(e.command)
  {
    if log != [] { DryRunReads(o, s, table, log[..|log| - 1]); }
  }

  lemma {:induction false} PushesSafely(o: Options, s: Script, table: bool, before: seq<Entry>, after: seq<Entry>)
    requires Careful(o, s, table, before + [Ran(RunPush)] + after)
    ensures SafeToPush(o, s, table, before) && !o.dryRun
  {
    var log := before + [Ran(RunPush)] + after;
    if after == [] {
      assert log[..|log| - 1] == before;
    } else {
      assert log[..|log| - 1] == before + [Ran(RunPush)] + after[..|after| - 1];
      PushesSafely(o, s, table, before, after[..|after| - 1]);
    }
  }

  /** The steps a run reports are a subsequence of its plan, whatever its commands answer. */
  lemma StepsAreOfThePlan(o: Options, c: Checkout, s: Script, w: World)
    requires CheckoutOk(c) && ScriptOk(c, s)
    ensures exists at :: Subsequence(StepsOf(Sync(o, c, s, w).trace.log), Plan(w.ledger.Some?, o.dryRun), at)
  {
    SyncGoes(o, c, s, w);
    var at := StepsFollowPlan(o, w.ledger.Some?, Sync(o, c, s, w).trace.log, 10);
  }

  /** A dry run starts no command but the status, the survey and the preview, and changes nothing. */
  lemma DryRunIsReadOnly(o: Options, c: Checkout, s: Script, w: World)
    requires CheckoutOk(c) && ScriptOk(c, s) && o.dryRun
    ensures var t := Sync(o, c, s, w).trace;
            (forall e | e in t.log && e.Ran? :: ReadOnly(e.command)) && t.world == w && t.endings == []
  {
    SyncGoes(o, c, s, w);
    DryRunReads(o, s, w.ledger.Some?, Sync(o, c, s, w).trace.log);
  }

  /**
   * The schema is pushed only after a clean survey and the preview, after the open release's pre-schema migrations when
   * the ledger existed, and when the change is destructive only if that was accepted and a backup was taken or declined.
   */
  lemma PushIsSafe(o: Options, c: Checkout, s: Script, w: World, before: seq<Entry>, after: seq<Entry>)
    requires CheckoutOk(c) && ScriptOk(c, s)
    requires Sync(o, c, s, w).trace.log == before + [Ran(RunPush)] + after
    ensures SafeToPush(o, s, w.ledger.Some?, before) && !o.dryRun
  {
    SyncGoes(o, c, s, w);
    PushesSafely(o, s, w.ledger.Some?, before, after);
  }
}
