/**
 * What a whole sync comes to. Its course is a list of commands and steps, its gates a list of conditions in the order in
 * which they are met: a run does a prefix of the course, and exits as the first gate says that does not open.
 */
module LocalSyncOutcome {
  import opened Common
  import opened Ledger
  import opened LocalSync
  import T = LocalSyncTheorems

  /** A condition the run has to meet, and the exit code if it does not. */
  datatype Gate = Gate(open: bool, code: int)

  function FirstShut(gates: seq<Gate>): int {
    if gates == [] then 0 else if !gates[0].open then gates[0].code else FirstShut(gates[1..])
  }

  lemma OpenGate(g: Gate, rest: seq<Gate>)
    ensures FirstShut([g] + rest) == if g.open then FirstShut(rest) else g.code
  {
    assert ([g] + rest)[1..] == rest;
  }

  // ---- The course ------------------------------------------------------------------------------------------------

  function Does(command: Command, step: Step): seq<Entry> { [Ran(command), Did(step)] }

  function When(condition: bool, entries: seq<Entry>): seq<Entry> { if condition then entries else [] }

  function FinalCourse(): seq<Entry> { Does(RunFinalStatus, FinalStatus) }

  function PostSchemaCourse(): seq<Entry> { Does(RunPostSchema, PostSchemaUp) + FinalCourse() }

  function GenerateCourse(hadTable: bool): seq<Entry> {
    Does(RunGenerate, Generate) + (When(!hadTable, Does(RunPreSchema, PreSchemaUp)) + PostSchemaCourse())
  }

  function PushCourse(s: Script, hadTable: bool): seq<Entry> {
    When(s.statements > 0, Does(RunPush, DbPush)) + GenerateCourse(hadTable)
  }

  predicate BacksUp(o: Options, s: Script) { s.destructive > 0 && !o.noBackup }

  function BackupCourse(o: Options, s: Script, hadTable: bool): seq<Entry> {
    When(BacksUp(o, s), [Ran(FindContainer), Ran(Dump), Did(Backup)]) + PushCourse(s, hadTable)
  }

  function SurveyCourse(o: Options, s: Script, hadTable: bool): seq<Entry> {
    Does(RunSurvey, Survey) + (Does(RunPreview, DdlPreview) + BackupCourse(o, s, hadTable))
  }

  function StatusCourse(o: Options, s: Script, hadTable: bool): seq<Entry> {
    Does(RunStatus, ReadStatus)
    + (When(hadTable, Does(RunPreSchema, PreSchemaUp)) + SurveyCourse(o, s, hadTable))
  }

  /** Everything a real run does that ends well. A database without the ledger gets its pre-schema migrations late. */
  function Course(o: Options, s: Script, hadTable: bool): seq<Entry> {
    Does(RunBuild, BuildShared) + StatusCourse(o, s, hadTable)
  }

  // ---- The gates -------------------------------------------------------------------------------------------------

  function CallFor(c: Checkout, selected: seq<Migration>, up: UpScript): Call {
    Call(Ids(selected), c.current, c.git, c.failOnDrift, up.readable, up.fates)
  }

  predicate Works(c: Checkout, selected: seq<Migration>, up: UpScript, w: World)
    requires |up.fates| == |selected| && forall m | m in selected :: m.id in c.current
  {
    IdsOf(selected);
    w.ledger.Some? && Up(w.ledger.value, CallFor(c, selected, up)).ending.Completed? && up.restOk
  }

  function AfterUp(c: Checkout, selected: seq<Migration>, up: UpScript, w: World): World
    requires |up.fates| == |selected| && forall m | m in selected :: m.id in c.current
  {
    IdsOf(selected);
    if w.ledger.None? then w else World(Some(Up(w.ledger.value, CallFor(c, selected, up)).db))
  }

  /** The push creates the ledger's table, empty, where it is missing. */
  function AfterPush(w: World): World { if w.ledger.Some? then w else World(Some(Db(map[], []))) }

  predicate NothingLeft(c: Checkout, w: World) { ToApply(PendingOf(w, c.registry), c.registry, c.open) == [] }

  function FinalGates(c: Checkout, s: Script, w: World): seq<Gate> {
    [Gate(s.finalOk, 2)] + [Gate(NothingLeft(c, w), 2)]
  }

  function PostSchemaGates(c: Checkout, s: Script, w: World): seq<Gate>
    requires CheckoutOk(c) && ScriptOk(c, s)
  {
    SelectedOk(c);
    var selected := PostSchemaOf(c.registry);
    [Gate(Works(c, selected, s.post, w), 2)] + FinalGates(c, s, AfterUp(c, selected, s.post, w))
  }

  function PreSchemaGate(c: Checkout, s: Script, w: World): Gate
    requires CheckoutOk(c) && ScriptOk(c, s)
  {
    SelectedOk(c);
    Gate(Works(c, PreSchemaOf(c.registry, c.open), s.pre, w), 2)
  }

  function AfterPreSchema(c: Checkout, s: Script, w: World): World
    requires CheckoutOk(c) && ScriptOk(c, s)
  {
    SelectedOk(c);
    AfterUp(c, PreSchemaOf(c.registry, c.open), s.pre, w)
  }

  function GenerateGates(c: Checkout, s: Script, hadTable: bool, w: World): seq<Gate>
    requires CheckoutOk(c) && ScriptOk(c, s)
  {
    [Gate(s.generateOk, 2)]
    + (if hadTable then PostSchemaGates(c, s, w)
       else [PreSchemaGate(c, s, w)] + PostSchemaGates(c, s, AfterPreSchema(c, s, w)))
  }

  function PushGates(o: Options, c: Checkout, s: Script, hadTable: bool, w: World): seq<Gate>
    requires CheckoutOk(c) && ScriptOk(c, s)
  {
    if s.statements == 0 then GenerateGates(c, s, hadTable, w)
    else
      [Gate(!s.push.NeedsConsent?, 1)] + ([Gate(!s.push.NeedsAcceptance?, if o.acceptDataLoss then 2 else 1)]
      + ([Gate(!s.push.PushFailed?, 2)] + GenerateGates(c, s, hadTable, AfterPush(w))))
  }

  function BackupGates(o: Options, c: Checkout, s: Script, hadTable: bool, w: World): seq<Gate>
    requires CheckoutOk(c) && ScriptOk(c, s)
  {
    var push := PushGates(o, c, s, hadTable, w);
    [Gate(s.destructive == 0 || o.acceptDataLoss, 1)]
    + (if BacksUp(o, s) then [Gate(s.nameOk, 2)] + ([Gate(s.containerOk, 2)] + ([Gate(s.dumpOk, 2)] + push)) else push)
  }

  function SurveyGates(o: Options, c: Checkout, s: Script, hadTable: bool, w: World): seq<Gate>
    requires CheckoutOk(c) && ScriptOk(c, s)
  {
    [Gate(s.surveyOk, 2)]
    + ([Gate(s.findings == 0, 1)] + ([Gate(s.previewOk, 2)] + BackupGates(o, c, s, hadTable, w)))
  }

  function StatusGates(o: Options, c: Checkout, s: Script, w: World): seq<Gate>
    requires CheckoutOk(c) && ScriptOk(c, s)
  {
    [Gate(s.statusOk, 2)] + ([Gate(s.registryOk, 2)]
    + ([Gate(!Refuses(c, StatusOf(w, c.registry, c.open, c.current)), 1)]
    + (if w.ledger.Some? then [PreSchemaGate(c, s, w)] + SurveyGates(o, c, s, true, AfterPreSchema(c, s, w))
       else SurveyGates(o, c, s, false, w))))
  }

  /** All the gates of a real run, in the order in which it comes to them. */
  function Gates(o: Options, c: Checkout, s: Script, w: World): seq<Gate>
    requires CheckoutOk(c) && ScriptOk(c, s)
  {
    [Gate(s.targetOk, 2)] + ([Gate(s.buildOk, 2)] + StatusGates(o, c, s, w))
  }

  // ---- The end ---------------------------------------------------------------------------------------------------

  /** What a run that ends well says, and what it leaves. */
  datatype End = End(state: State, world: World)

  /** It says that all was in sync if nothing was to be applied when the status was read, and no statement was found. */
  function StateOf(c: Checkout, s: Script, before: StatusReport): State {
    if ToApply(before.pending, c.registry, c.open) == [] && s.statements == 0 then InSync else AppliedAll
  }

  function AfterPostSchema(c: Checkout, s: Script, w: World): World
    requires CheckoutOk(c) && ScriptOk(c, s)
  {
    SelectedOk(c);
    AfterUp(c, PostSchemaOf(c.registry), s.post, w)
  }

  function LateEnd(c: Checkout, s: Script, before: StatusReport, w: World): End
    requires CheckoutOk(c) && ScriptOk(c, s)
  {
    End(StateOf(c, s, before), AfterPostSchema(c, s, if before.tableExists then w else AfterPreSchema(c, s, w)))
  }

  function PushEnd(c: Checkout, s: Script, before: StatusReport, w: World): End
    requires CheckoutOk(c) && ScriptOk(c, s)
  {
    LateEnd(c, s, before, if s.statements > 0 then AfterPush(w) else w)
  }

  // ---- Every stage -----------------------------------------------------------------------------------------------

  /** From a trace on, the run does a prefix of this course, all of it if it ends well, and exits as these gates say. */
  ghost predicate Fits(out: SyncOutcome, log: seq<Entry>, course: seq<Entry>, gates: seq<Gate>, end: End) {
    && log <= out.trace.log && out.trace.log[|log|..] <= course
    && out.exitCode == FirstShut(gates)
    && (out.exitCode == 0 ==> out.trace.log == log + course && out.state == end.state && out.trace.world == end.world)
    && (out.exitCode == 1 ==> out.state.Blocked?)
    && (out.exitCode != 0 && out.exitCode != 1 ==> out.state.SyncFailed?)
  }

  /** A stage that does one thing first. */
  lemma FitsAfter(out: SyncOutcome, log: seq<Entry>, first: seq<Entry>, course: seq<Entry>, g: Gate, gates: seq<Gate>,
                  end: End)
    requires Fits(out, log + first, course, gates, end) && g.open
    ensures Fits(out, log, first + course, [g] + gates, end)
  {
    OpenGate(g, gates);
    var all := out.trace.log;
    assert all[|log|..] == first + all[|log + first|..];
    assert log + (first + course) == (log + first) + course;
  }

  lemma FitsOpen(out: SyncOutcome, log: seq<Entry>, course: seq<Entry>, g: Gate, gates: seq<Gate>,
                 end: End)
    requires Fits(out, log, course, gates, end) && g.open
    ensures Fits(out, log, course, [g] + gates, end)
  {
    OpenGate(g, gates);
  }

  /** A stage that stops here, in the middle of what it does first. */
  lemma FitsStop(t: Trace, log: seq<Entry>, some: seq<Entry>, course: seq<Entry>, g: Gate, gates: seq<Gate>,
                 end: End)
    requires !g.open && g.code != 0 && t.log == log + some && some <= course
    ensures Fits(Stop(t, g.code), log, course, [g] + gates, end)
  {
    OpenGate(g, gates);
    assert t.log[|log|..] == some;
  }

  lemma FinalFits(c: Checkout, s: Script, before: StatusReport, t: Trace)
    ensures Fits(FinalStage(c, s, before, t), t.log, FinalCourse(), FinalGates(c, s, t.world),
                 End(StateOf(c, s, before), t.world))
  {
    var end := End(StateOf(c, s, before), t.world);
    var g := Gate(NothingLeft(c, t.world), 2);
    var after := t.log + Does(RunFinalStatus, FinalStatus);
    if !s.finalOk {
      FitsStop(Run(t, RunFinalStatus), t.log, [Ran(RunFinalStatus)], FinalCourse(), Gate(s.finalOk, 2), [g], end);
    } else {
      OpenGate(g, []);
      assert [g] + [] == [g];
      var out := FinalStage(c, s, before, t);
      assert out.trace.log == after;
      OpenGate(Gate(s.finalOk, 2), [g]);
      assert out.trace.log[|t.log|..] == FinalCourse();
    }
  }

  lemma PostSchemaFits(c: Checkout, s: Script, before: StatusReport, t: Trace)
    requires CheckoutOk(c) && ScriptOk(c, s)
    ensures Fits(PostSchemaStage(c, s, before, t), t.log, PostSchemaCourse(), PostSchemaGates(c, s, t.world),
                 End(StateOf(c, s, before), AfterPostSchema(c, s, t.world)))
  {
    SelectedOk(c);
    var end := End(StateOf(c, s, before), AfterPostSchema(c, s, t.world));
    var selected := PostSchemaOf(c.registry);
    var g, gates := Gate(Works(c, selected, s.post, t.world), 2), FinalGates(c, s, AfterUp(c, selected, s.post, t.world));
    var (t1, ok) := RunUp(c, selected, s.post, RunPostSchema, t);
    if !ok {
      FitsStop(t1, t.log, [Ran(RunPostSchema)], PostSchemaCourse(), g, gates, end);
    } else {
      var t2 := Report(t1, PostSchemaUp);
      FinalFits(c, s, before, t2);
      assert t2.log == t.log + Does(RunPostSchema, PostSchemaUp);
      FitsAfter(FinalStage(c, s, before, t2), t.log, Does(RunPostSchema, PostSchemaUp), FinalCourse(), g, gates, end);
    }
  }

  function PreThenPost(c: Checkout, s: Script, before: StatusReport, t: Trace): SyncOutcome
    requires CheckoutOk(c) && ScriptOk(c, s)
  {
    SelectedOk(c);
    var (t1, ok) := RunUp(c, PreSchemaOf(c.registry, c.open), s.pre, RunPreSchema, t);
    if !ok then Stop(t1, 2) else PostSchemaStage(c, s, before, Report(t1, PreSchemaUp))
  }

  lemma PreThenPostFits(c: Checkout, s: Script, before: StatusReport, t: Trace)
    requires CheckoutOk(c) && ScriptOk(c, s)
    ensures Fits(PreThenPost(c, s, before, t), t.log, Does(RunPreSchema, PreSchemaUp) + PostSchemaCourse(),
                 [PreSchemaGate(c, s, t.world)] + PostSchemaGates(c, s, AfterPreSchema(c, s, t.world)),
                 End(StateOf(c, s, before), AfterPostSchema(c, s, AfterPreSchema(c, s, t.world))))
  {
    SelectedOk(c);
    var end := End(StateOf(c, s, before), AfterPostSchema(c, s, AfterPreSchema(c, s, t.world)));
    var g, gates := PreSchemaGate(c, s, t.world), PostSchemaGates(c, s, AfterPreSchema(c, s, t.world));
    var course := Does(RunPreSchema, PreSchemaUp) + PostSchemaCourse();
    var (t1, ok) := RunUp(c, PreSchemaOf(c.registry, c.open), s.pre, RunPreSchema, t);
    if !ok {
      FitsStop(t1, t.log, [Ran(RunPreSchema)], course, g, gates, end);
    } else {
      var t2 := Report(t1, PreSchemaUp);
      PostSchemaFits(c, s, before, t2);
      assert t2.log == t.log + Does(RunPreSchema, PreSchemaUp);
      FitsAfter(PostSchemaStage(c, s, before, t2), t.log, Does(RunPreSchema, PreSchemaUp), PostSchemaCourse(), g, gates, end);
    }
  }

  lemma GenerateFits(c: Checkout, s: Script, before: StatusReport, t: Trace)
    requires CheckoutOk(c) && ScriptOk(c, s)
    ensures Fits(GenerateStage(c, s, before, t), t.log, GenerateCourse(before.tableExists),
                 GenerateGates(c, s, before.tableExists, t.world), LateEnd(c, s, before, t.world))
  {
    var end := LateEnd(c, s, before, t.world);
    var g, had := Gate(s.generateOk, 2), before.tableExists;
    var rest := When(!had, Does(RunPreSchema, PreSchemaUp)) + PostSchemaCourse();
    var gates := if had then PostSchemaGates(c, s, t.world)
                 else [PreSchemaGate(c, s, t.world)] + PostSchemaGates(c, s, AfterPreSchema(c, s, t.world));
    var t1 := Run(t, RunGenerate);
    if !s.generateOk {
      FitsStop(t1, t.log, [Ran(RunGenerate)], GenerateCourse(had), g, gates, end);
    } else {
      var t2 := Report(t1, Generate);
      assert t2.log == t.log + Does(RunGenerate, Generate);
      if had {
        PostSchemaFits(c, s, before, t2);
        assert rest == PostSchemaCourse();
      } else {
        PreThenPostFits(c, s, before, t2);
      }
      FitsAfter(GenerateStage(c, s, before, t), t.log, Does(RunGenerate, Generate), rest, g, gates, end);
    }
  }

  lemma PushedFits(o: Options, c: Checkout, s: Script, before: StatusReport, t: Trace)
    requires CheckoutOk(c) && ScriptOk(c, s) && s.statements > 0 && s.push.Pushed?
    ensures Fits(PushStage(o, c, s, before, t), t.log, PushCourse(s, before.tableExists),
                 [Gate(!s.push.PushFailed?, 2)] + GenerateGates(c, s, before.tableExists, AfterPush(t.world)),
                 PushEnd(c, s, before, t.world))
  {
    var end, had := PushEnd(c, s, before, t.world), before.tableExists;
    var t2 := Report(Run(t, RunPush).(world := PushedWorld(t.world)), DbPush);
    GenerateFits(c, s, before, t2);
    assert t2.log == t.log + Does(RunPush, DbPush) && t2.world == AfterPush(t.world);
    assert PushStage(o, c, s, before, t) == GenerateStage(c, s, before, t2);
    FitsAfter(GenerateStage(c, s, before, t2), t.log, Does(RunPush, DbPush), GenerateCourse(had),
              Gate(!s.push.PushFailed?, 2), GenerateGates(c, s, had, AfterPush(t.world)), end);
  }

  lemma PushFits(o: Options, c: Checkout, s: Script, before: StatusReport, t: Trace)
    requires CheckoutOk(c) && ScriptOk(c, s)
    ensures Fits(PushStage(o, c, s, before, t), t.log, PushCourse(s, before.tableExists),
                 PushGates(o, c, s, before.tableExists, t.world), PushEnd(c, s, before, t.world))
  {
    var end := PushEnd(c, s, before, t.world);
    var had := before.tableExists;
    var course := PushCourse(s, had);
    if s.statements == 0 {
      GenerateFits(c, s, before, t);
      assert course == GenerateCourse(had);
    } else {
      var gates := GenerateGates(c, s, had, AfterPush(t.world));
      var consent := Gate(!s.push.NeedsConsent?, 1);
      var acceptance := Gate(!s.push.NeedsAcceptance?, if o.acceptDataLoss then 2 else 1);
      var failure := Gate(!s.push.PushFailed?, 2);
      var t1 := Run(t, RunPush);
      var out := PushStage(o, c, s, before, t);
      match s.push {
        case NeedsConsent => FitsStop(t1, t.log, [Ran(RunPush)], course, consent, [acceptance] + ([failure] + gates), end);
        case NeedsAcceptance =>
          FitsStop(t1, t.log, [Ran(RunPush)], course, acceptance, [failure] + gates, end);
          FitsOpen(out, t.log, course, consent, [acceptance] + ([failure] + gates), end);
        case PushFailed =>
          FitsStop(t1, t.log, [Ran(RunPush)], course, failure, gates, end);
          FitsOpen(out, t.log, course, acceptance, [failure] + gates, end);
          FitsOpen(out, t.log, course, consent, [acceptance] + ([failure] + gates), end);
        case Pushed =>
          PushedFits(o, c, s, before, t);
          FitsOpen(out, t.log, course, acceptance, [failure] + gates, end);
          FitsOpen(out, t.log, course, consent, [acceptance] + ([failure] + gates), end);
      }
    }
  }

  lemma BackUpFirstFits(o: Options, c: Checkout, s: Script, before: StatusReport, t: Trace)
    requires CheckoutOk(c) && ScriptOk(c, s) && BacksUp(o, s)
    ensures Fits(BackUpFirst(o, c, s, before, t), t.log, BackupCourse(o, s, before.tableExists),
                 [Gate(s.nameOk, 2)] + ([Gate(s.containerOk, 2)] + ([Gate(s.dumpOk, 2)]
                 + PushGates(o, c, s, before.tableExists, t.world))), PushEnd(c, s, before, t.world))
  {
    var end := PushEnd(c, s, before, t.world);
    var had := before.tableExists;
    var course, gates := BackupCourse(o, s, had), PushGates(o, c, s, had, t.world);
    var name, container, dump := Gate(s.nameOk, 2), Gate(s.containerOk, 2), Gate(s.dumpOk, 2);
    var out := BackUpFirst(o, c, s, before, t);
    var t1 := Run(t, FindContainer);
    var t2 := Run(t1, Dump);
    if !s.nameOk {
      assert t.log == t.log + [];
      FitsStop(t, t.log, [], course, name, [container] + ([dump] + gates), end);
    } else {
      if !s.containerOk {
        FitsStop(t1, t.log, [Ran(FindContainer)], course, container, [dump] + gates, end);
      } else {
        if !s.dumpOk {
          assert t2.log == t.log + [Ran(FindContainer), Ran(Dump)];
          FitsStop(t2, t.log, [Ran(FindContainer), Ran(Dump)], course, dump, gates, end);
        } else {
          var t3 := Report(t2, Backup);
          PushFits(o, c, s, before, t3);
          assert t3.log == t.log + [Ran(FindContainer), Ran(Dump), Did(Backup)];
          FitsAfter(out, t.log, [Ran(FindContainer), Ran(Dump), Did(Backup)], PushCourse(s, had), dump, gates, end);
        }
        FitsOpen(out, t.log, course, container, [dump] + gates, end);
      }
      FitsOpen(out, t.log, course, name, [container] + ([dump] + gates), end);
    }
  }

  lemma BackupFits(o: Options, c: Checkout, s: Script, before: StatusReport, t: Trace)
    requires CheckoutOk(c) && ScriptOk(c, s)
    ensures Fits(BackupStage(o, c, s, before, t), t.log, BackupCourse(o, s, before.tableExists),
                 BackupGates(o, c, s, before.tableExists, t.world), PushEnd(c, s, before, t.world))
  {
    var end := PushEnd(c, s, before, t.world);
    var had := before.tableExists;
    var course, g := BackupCourse(o, s, had), Gate(s.destructive == 0 || o.acceptDataLoss, 1);
    var push := PushGates(o, c, s, had, t.world);
    var rest := if BacksUp(o, s) then [Gate(s.nameOk, 2)] + ([Gate(s.containerOk, 2)] + ([Gate(s.dumpOk, 2)] + push))
                else push;
    if !g.open {
      assert t.log == t.log + [];
      FitsStop(t, t.log, [], course, g, rest, end);
    } else {
      if BacksUp(o, s) {
        BackUpFirstFits(o, c, s, before, t);
      } else {
        PushFits(o, c, s, before, t);
        assert course == PushCourse(s, had);
      }
      FitsOpen(BackupStage(o, c, s, before, t), t.log, course, g, rest, end);
    }
  }

  lemma PreviewFits(o: Options, c: Checkout, s: Script, before: StatusReport, t: Trace)
    requires CheckoutOk(c) && ScriptOk(c, s) && !o.dryRun
    ensures Fits(PreviewStage(o, c, s, before, t), t.log, Does(RunPreview, DdlPreview) + BackupCourse(o, s, before.tableExists),
                 [Gate(s.previewOk, 2)] + BackupGates(o, c, s, before.tableExists, t.world),
                 PushEnd(c, s, before, t.world))
  {
    var end := PushEnd(c, s, before, t.world);
    var g, had := Gate(s.previewOk, 2), before.tableExists;
    var course, gates := BackupCourse(o, s, had), BackupGates(o, c, s, had, t.world);
    var t1 := Run(t, RunPreview);
    if !s.previewOk {
      FitsStop(t1, t.log, [Ran(RunPreview)], Does(RunPreview, DdlPreview) + course, g, gates, end);
    } else {
      var t2 := Report(t1, DdlPreview);
      BackupFits(o, c, s, before, t2);
      assert t2.log == t.log + Does(RunPreview, DdlPreview);
      FitsAfter(PreviewStage(o, c, s, before, t), t.log, Does(RunPreview, DdlPreview), course, g, gates, end);
    }
  }

  lemma SurveyFits(o: Options, c: Checkout, s: Script, before: StatusReport, t: Trace)
    requires CheckoutOk(c) && ScriptOk(c, s) && !o.dryRun
    ensures Fits(SurveyStage(o, c, s, before, t), t.log, SurveyCourse(o, s, before.tableExists),
                 SurveyGates(o, c, s, before.tableExists, t.world), PushEnd(c, s, before, t.world))
  {
    var end := PushEnd(c, s, before, t.world);
    var had := before.tableExists;
    var rest := Does(RunPreview, DdlPreview) + BackupCourse(o, s, had);
    var works, clean := Gate(s.surveyOk, 2), Gate(s.findings == 0, 1);
    var gates := [Gate(s.previewOk, 2)] + BackupGates(o, c, s, had, t.world);
    var t1 := Run(t, RunSurvey);
    var out := SurveyStage(o, c, s, before, t);
    if !s.surveyOk {
      FitsStop(t1, t.log, [Ran(RunSurvey)], SurveyCourse(o, s, had), works, [clean] + gates, end);
    } else {
      var t2 := Report(t1, Survey);
      assert t2.log == t.log + Does(RunSurvey, Survey);
      if s.findings > 0 {
        assert t2.log == t2.log + [];
        FitsStop(t2, t2.log, [], rest, clean, gates, end);
      } else {
        PreviewFits(o, c, s, before, t2);
        FitsOpen(out, t2.log, rest, clean, gates, end);
      }
      FitsAfter(out, t.log, Does(RunSurvey, Survey), rest, works, [clean] + gates, end);
    }
  }

  lemma PreSchemaFits(o: Options, c: Checkout, s: Script, before: StatusReport, t: Trace)
    requires CheckoutOk(c) && ScriptOk(c, s) && !o.dryRun && before.tableExists == t.world.ledger.Some?
    ensures Fits(PreSchemaStage(o, c, s, before, t), t.log,
                 When(before.tableExists, Does(RunPreSchema, PreSchemaUp)) + SurveyCourse(o, s, before.tableExists),
                 if t.world.ledger.Some?
                 then [PreSchemaGate(c, s, t.world)] + SurveyGates(o, c, s, true, AfterPreSchema(c, s, t.world))
                 else SurveyGates(o, c, s, false, t.world),
                 PushEnd(c, s, before, if before.tableExists then AfterPreSchema(c, s, t.world) else t.world))
  {
    SelectedOk(c);
    var end := PushEnd(c, s, before, if before.tableExists then AfterPreSchema(c, s, t.world) else t.world);
    var course := SurveyCourse(o, s, before.tableExists);
    if !before.tableExists {
      SurveyFits(o, c, s, before, t);
      assert When(false, Does(RunPreSchema, PreSchemaUp)) + course == course;
    } else {
      var g, gates := PreSchemaGate(c, s, t.world), SurveyGates(o, c, s, true, AfterPreSchema(c, s, t.world));
      var (t1, ok) := RunUp(c, PreSchemaOf(c.registry, c.open), s.pre, RunPreSchema, t);
      if !ok {
        FitsStop(t1, t.log, [Ran(RunPreSchema)], Does(RunPreSchema, PreSchemaUp) + course, g, gates, end);
      } else {
        var t2 := Report(t1, PreSchemaUp);
        SurveyFits(o, c, s, before, t2);
        assert t2.log == t.log + Does(RunPreSchema, PreSchemaUp);
        FitsAfter(PreSchemaStage(o, c, s, before, t), t.log, Does(RunPreSchema, PreSchemaUp), course, g, gates, end);
      }
    }
  }

  function WholeEnd(c: Checkout, s: Script, w: World): End
    requires CheckoutOk(c) && ScriptOk(c, s)
  {
    PushEnd(c, s, StatusOf(w, c.registry, c.open, c.current), if w.ledger.Some? then AfterPreSchema(c, s, w) else w)
  }

  lemma StatusFits(o: Options, c: Checkout, s: Script, t: Trace)
    requires CheckoutOk(c) && ScriptOk(c, s) && !o.dryRun
    ensures Fits(StatusStage(o, c, s, t), t.log, StatusCourse(o, s, t.world.ledger.Some?), StatusGates(o, c, s, t.world),
                 WholeEnd(c, s, t.world))
  {
    var end := WholeEnd(c, s, t.world);
    var had := t.world.ledger.Some?;
    var before := StatusOf(t.world, c.registry, c.open, c.current);
    var rest := When(had, Does(RunPreSchema, PreSchemaUp)) + SurveyCourse(o, s, had);
    var works, read, clear := Gate(s.statusOk, 2), Gate(s.registryOk, 2), Gate(!Refuses(c, before), 1);
    var gates := if had then [PreSchemaGate(c, s, t.world)] + SurveyGates(o, c, s, true, AfterPreSchema(c, s, t.world))
                 else SurveyGates(o, c, s, false, t.world);
    var t1 := Run(t, RunStatus);
    var out := StatusStage(o, c, s, t);
    if !s.statusOk {
      FitsStop(t1, t.log, [Ran(RunStatus)], StatusCourse(o, s, had), works, [read] + ([clear] + gates), end);
    } else {
      var t2 := Report(t1, ReadStatus);
      assert t2.log == t.log + Does(RunStatus, ReadStatus) && t2.log == t2.log + [];
      if !s.registryOk {
        FitsStop(t2, t2.log, [], rest, read, [clear] + gates, end);
      } else {
        if Refuses(c, before) {
          FitsStop(t2, t2.log, [], rest, clear, gates, end);
        } else {
          PreSchemaFits(o, c, s, before, t2);
          FitsOpen(out, t2.log, rest, clear, gates, end);
        }
        FitsOpen(out, t2.log, rest, read, [clear] + gates, end);
      }
      FitsAfter(out, t.log, Does(RunStatus, ReadStatus), rest, works, [read] + ([clear] + gates), end);
    }
  }

  lemma LateGates(c: Checkout, s: Script, w: World)
    requires CheckoutOk(c) && ScriptOk(c, s) && FirstShut(GenerateGates(c, s, false, w)) == 0
    ensures w.ledger.Some?
  {
    var post := PostSchemaGates(c, s, AfterPreSchema(c, s, w));
    OpenGate(Gate(s.generateOk, 2), [PreSchemaGate(c, s, w)] + post);
    OpenGate(PreSchemaGate(c, s, w), post);
  }

  lemma BackupGatesPush(o: Options, c: Checkout, s: Script, hadTable: bool, w: World)
    requires CheckoutOk(c) && ScriptOk(c, s) && FirstShut(BackupGates(o, c, s, hadTable, w)) == 0
    ensures FirstShut(PushGates(o, c, s, hadTable, w)) == 0
  {
    var push := PushGates(o, c, s, hadTable, w);
    var name, container, dump := Gate(s.nameOk, 2), Gate(s.containerOk, 2), Gate(s.dumpOk, 2);
    OpenGate(Gate(s.destructive == 0 || o.acceptDataLoss, 1),
             if BacksUp(o, s) then [name] + ([container] + ([dump] + push)) else push);
    if BacksUp(o, s) {
      OpenGate(name, [container] + ([dump] + push));
      OpenGate(container, [dump] + push);
      OpenGate(dump, push);
    }
  }

  lemma SurveyGatesPush(o: Options, c: Checkout, s: Script, hadTable: bool, w: World)
    requires CheckoutOk(c) && ScriptOk(c, s) && FirstShut(SurveyGates(o, c, s, hadTable, w)) == 0
    ensures FirstShut(PushGates(o, c, s, hadTable, w)) == 0
  {
    var backup := BackupGates(o, c, s, hadTable, w);
    OpenGate(Gate(s.surveyOk, 2), [Gate(s.findings == 0, 1)] + ([Gate(s.previewOk, 2)] + backup));
    OpenGate(Gate(s.findings == 0, 1), [Gate(s.previewOk, 2)] + backup);
    OpenGate(Gate(s.previewOk, 2), backup);
    BackupGatesPush(o, c, s, hadTable, w);
  }

  /** A database without the ledger has to be given it by the push. */
  lemma LedgerIsPushed(o: Options, c: Checkout, s: Script, w: World)
    requires CheckoutOk(c) && ScriptOk(c, s) && FirstShut(Gates(o, c, s, w)) == 0
    ensures w.ledger.None? ==> s.statements > 0
  {
    if w.ledger.None? {
      var survey := SurveyGates(o, c, s, false, w);
      var clear := Gate(!Refuses(c, StatusOf(w, c.registry, c.open, c.current)), 1);
      OpenGate(Gate(s.targetOk, 2), [Gate(s.buildOk, 2)] + StatusGates(o, c, s, w));
      OpenGate(Gate(s.buildOk, 2), StatusGates(o, c, s, w));
      OpenGate(Gate(s.statusOk, 2), [Gate(s.registryOk, 2)] + ([clear] + survey));
      OpenGate(Gate(s.registryOk, 2), [clear] + survey);
      OpenGate(clear, survey);
      SurveyGatesPush(o, c, s, false, w);
      if s.statements == 0 { LateGates(c, s, w); }
    }
  }

  lemma BuildFits(o: Options, c: Checkout, s: Script, w: World)
    requires CheckoutOk(c) && ScriptOk(c, s) && !o.dryRun && s.targetOk
    ensures Fits(Sync(o, c, s, w), [], Course(o, s, w.ledger.Some?), [Gate(s.buildOk, 2)] + StatusGates(o, c, s, w),
                 WholeEnd(c, s, w))
  {
    var gates, end := StatusGates(o, c, s, w), WholeEnd(c, s, w);
    var t1 := Run(Trace([], [], w), RunBuild);
    if !s.buildOk {
      assert t1.log == [] + [Ran(RunBuild)];
      FitsStop(t1, [], [Ran(RunBuild)], Course(o, s, w.ledger.Some?), Gate(s.buildOk, 2), gates, end);
    } else {
      var t2 := Report(t1, BuildShared);
      StatusFits(o, c, s, t2);
      assert t2.log == [] + Does(RunBuild, BuildShared);
      FitsAfter(Sync(o, c, s, w), [], Does(RunBuild, BuildShared), StatusCourse(o, s, w.ledger.Some?), Gate(s.buildOk, 2),
                gates, end);
    }
  }

  lemma SyncFits(o: Options, c: Checkout, s: Script, w: World)
    requires CheckoutOk(c) && ScriptOk(c, s) && !o.dryRun
    ensures Fits(Sync(o, c, s, w), [], Course(o, s, w.ledger.Some?), Gates(o, c, s, w), WholeEnd(c, s, w))
  {
    var course, gates, end := Course(o, s, w.ledger.Some?), [Gate(s.buildOk, 2)] + StatusGates(o, c, s, w), WholeEnd(c, s, w);
    var t := Trace([], [], w);
    if !s.targetOk {
      assert t.log == [] + [];
      FitsStop(t, [], [], course, Gate(s.targetOk, 2), gates, end);
    } else {
      BuildFits(o, c, s, w);
      FitsOpen(Sync(o, c, s, w), [], course, Gate(s.targetOk, 2), gates, end);
    }
  }

  // ---- The whole sync --------------------------------------------------------------------------------------------

  /** What a run that ends well leaves: the ledger's table is there, and both `up`s have run on it, pre-schema first. */
  function Left(c: Checkout, s: Script, w: World): World
    requires CheckoutOk(c) && ScriptOk(c, s)
  {
    AfterPostSchema(c, s, AfterPreSchema(c, s, AfterPush(w)))
  }

  /**
   * Every real run does a prefix of its course, and exits as the first gate says that does not open: with 1 if it stops
   * by its own decision and with 2 if something fails. It exits with 0 exactly if every gate opens, and has then done the
   * whole course. It says that all was in sync exactly if nothing was to be applied and the preview found no statement,
   * and it leaves what the pre-schema and then the post-schema `up` make of the ledger.
   */
  lemma SyncIs(o: Options, c: Checkout, s: Script, w: World)
    requires CheckoutOk(c) && ScriptOk(c, s) && !o.dryRun
    ensures var out, course := Sync(o, c, s, w), Course(o, s, w.ledger.Some?);
            && out.trace.log <= course
            && out.exitCode == FirstShut(Gates(o, c, s, w))
            && (out.exitCode == 0 ==>
                  && out.trace.log == course && out.trace.world == Left(c, s, w)
                  && (out.state.InSync? <==> NothingLeft(c, w) && s.statements == 0)
                  && (!out.state.InSync? ==> out.state.AppliedAll?))
            && (out.exitCode == 1 ==> out.state.Blocked?)
            && (out.exitCode != 0 && out.exitCode != 1 ==> out.state.SyncFailed?)
  {
    SyncFits(o, c, s, w);
    var out, course := Sync(o, c, s, w), Course(o, s, w.ledger.Some?);
    assert out.trace.log[0..] == out.trace.log && [] + course == course;
    if out.exitCode == 0 { LedgerIsPushed(o, c, s, w); }
  }

  // ---- The steps of a run that ends well -------------------------------------------------------------------------

  function Only(condition: bool, step: Step): seq<Step> { if condition then [step] else [] }

  /** The plan without the backup unless one is due, and without the push unless there is something to push. */
  function StepsDue(o: Options, s: Script, hadTable: bool): seq<Step> {
    [BuildShared] + ([ReadStatus] + (Only(hadTable, PreSchemaUp) + ([Survey] + ([DdlPreview]
    + (Only(s.destructive > 0 && !o.noBackup, Backup) + (Only(s.statements > 0, DbPush)
    + ([Generate] + (Only(!hadTable, PreSchemaUp) + [PostSchemaUp, FinalStatus]))))))))
  }

  lemma {:induction false} StepsJoin(a: seq<Entry>, b: seq<Entry>)
    ensures T.StepsOf(a + b) == T.StepsOf(a) + T.StepsOf(b)
  {
    if b == [] {
      assert a + b == a;
    } else {
      StepsJoin(a, b[..|b| - 1]);
      assert (a + b)[..|a + b| - 1] == a + b[..|b| - 1];
    }
  }

  lemma StepsOfDoes(command: Command, step: Step)
    ensures T.StepsOf(Does(command, step)) == [step]
  {
    assert Does(command, step)[..1] == [Ran(command)] && [Ran(command)][..0] == [];
  }

  lemma StepsOfWhen(condition: bool, command: Command, step: Step)
    ensures T.StepsOf(When(condition, Does(command, step))) == Only(condition, step)
  {
    StepsOfDoes(command, step);
  }

  lemma StepsFromPush(s: Script, hadTable: bool)
    ensures T.StepsOf(PushCourse(s, hadTable)) ==
            Only(s.statements > 0, DbPush) + ([Generate] + (Only(!hadTable, PreSchemaUp) + [PostSchemaUp, FinalStatus]))
  {
    StepsJoin(When(s.statements > 0, Does(RunPush, DbPush)), GenerateCourse(hadTable));
    StepsOfWhen(s.statements > 0, RunPush, DbPush);
    StepsJoin(Does(RunGenerate, Generate), When(!hadTable, Does(RunPreSchema, PreSchemaUp)) + PostSchemaCourse());
    StepsOfDoes(RunGenerate, Generate);
    StepsJoin(When(!hadTable, Does(RunPreSchema, PreSchemaUp)), PostSchemaCourse());
    StepsOfWhen(!hadTable, RunPreSchema, PreSchemaUp);
    StepsJoin(Does(RunPostSchema, PostSchemaUp), FinalCourse());
    StepsOfDoes(RunPostSchema, PostSchemaUp);
    StepsOfDoes(RunFinalStatus, FinalStatus);
  }

  lemma StepsOfBackup(o: Options, s: Script)
    ensures T.StepsOf(When(BacksUp(o, s), [Ran(FindContainer), Ran(Dump), Did(Backup)])) == Only(BacksUp(o, s), Backup)
  {
    StepsJoin([Ran(FindContainer)], Does(Dump, Backup));
    StepsOfDoes(Dump, Backup);
    assert [Ran(FindContainer)] + Does(Dump, Backup) == [Ran(FindContainer), Ran(Dump), Did(Backup)];
    assert [Ran(FindContainer)][..0] == [];
  }

  lemma StepsFromSurvey(o: Options, s: Script, hadTable: bool)
    ensures T.StepsOf(SurveyCourse(o, s, hadTable)) ==
            [Survey] + ([DdlPreview] + (Only(BacksUp(o, s), Backup) + T.StepsOf(PushCourse(s, hadTable))))
  {
    StepsJoin(Does(RunSurvey, Survey), Does(RunPreview, DdlPreview) + BackupCourse(o, s, hadTable));
    StepsOfDoes(RunSurvey, Survey);
    StepsJoin(Does(RunPreview, DdlPreview), BackupCourse(o, s, hadTable));
    StepsOfDoes(RunPreview, DdlPreview);
    StepsJoin(When(BacksUp(o, s), [Ran(FindContainer), Ran(Dump), Did(Backup)]), PushCourse(s, hadTable));
    StepsOfBackup(o, s);
  }

  lemma StepsOfCourse(o: Options, s: Script, hadTable: bool)
    ensures T.StepsOf(Course(o, s, hadTable)) == StepsDue(o, s, hadTable)
  {
    StepsJoin(Does(RunBuild, BuildShared), StatusCourse(o, s, hadTable));
    StepsOfDoes(RunBuild, BuildShared);
    StepsJoin(Does(RunStatus, ReadStatus), When(hadTable, Does(RunPreSchema, PreSchemaUp)) + SurveyCourse(o, s, hadTable));
    StepsOfDoes(RunStatus, ReadStatus);
    StepsJoin(When(hadTable, Does(RunPreSchema, PreSchemaUp)), SurveyCourse(o, s, hadTable));
    StepsOfWhen(hadTable, RunPreSchema, PreSchemaUp);
    StepsFromSurvey(o, s, hadTable);
    StepsFromPush(s, hadTable);
  }

  /**
   * A real run that exits with 0 has done, in order and once, every step due: it has pushed the schema exactly if the
   * preview found statements, and backed up exactly if some were destructive and a backup was not declined.
   */
  lemma ExitZeroDidAll(o: Options, c: Checkout, s: Script, w: World)
    requires CheckoutOk(c) && ScriptOk(c, s) && !o.dryRun && Sync(o, c, s, w).exitCode == 0
    ensures T.StepsOf(Sync(o, c, s, w).trace.log) == StepsDue(o, s, w.ledger.Some?)
  {
    SyncIs(o, c, s, w);
    StepsOfCourse(o, s, w.ledger.Some?);
  }

  // ---- A dry run -------------------------------------------------------------------------------------------------

  function DryCourse(): seq<Entry> {
    Does(RunStatus, ReadStatus) + Does(RunSurvey, Survey) + Does(RunPreview, DdlPreview)
  }

  /** What the real run would stop at before it pushes anything. */
  predicate WouldStop(o: Options, c: Checkout, s: Script, w: World) {
    || Refuses(c, StatusOf(w, c.registry, c.open, c.current))
    || s.findings > 0
    || (s.destructive > 0 && !o.acceptDataLoss)
  }

  /**
   * A dry run exits with 2 exactly if one of its commands fails. Otherwise it has done all of its course, and says what
   * holds: 1 exactly if the real run would stop, and 0 otherwise, in sync exactly if there is nothing to apply or to push.
   */
  lemma DryRunIs(o: Options, c: Checkout, s: Script, w: World)
    requires CheckoutOk(c) && ScriptOk(c, s) && o.dryRun
    ensures var out := Sync(o, c, s, w);
            var works := s.targetOk && s.statusOk && s.registryOk && s.surveyOk && s.previewOk;
            && out.trace.world == w && out.trace.log <= DryCourse()
            && (works ==> out.trace.log == DryCourse())
            && out.exitCode == (if !works then 2 else if WouldStop(o, c, s, w) then 1 else 0)
            && (out.state.SyncFailed? <==> !works)
            && (out.state.Blocked? <==> works && WouldStop(o, c, s, w))
            && (out.state.InSync? <==> works && !WouldStop(o, c, s, w) && NothingLeft(c, w) && s.statements == 0)
            && !out.state.AppliedAll?
  {
  }
}
