/** How a tab that is handed to a stopped session can get lost: the store that is to record it fails. */
module CollectionHandover {
  import opened Common
  import opened CollectionStore
  import opened CollectionProtocol
  import opened CollectionInvariant
  import opened CollectionTheorems

  // ---- As long as a debt is open ---------------------------------------------------------------------------------

  /** Along this run the record of `a` is never old enough for retention. */
  ghost predicate NeverStale(w: World, events: seq<Event>, a: AttemptId)
    decreases |events|
  {
    events == [] ||
    ((events[0].Advance? && a in w.sessions ==> !Stale(w.sessions[a], events[0].choice.clock)) &&
     NeverStale(Step(w, events[0]), events[1..], a))
  }

  lemma {:induction false} ClosedForGood(w: World, events: seq<Event>, tab: TabId)
    requires Inv(w) && tab in w.issued && tab !in w.open
    ensures tab !in Run(w, events).open
    decreases |events|
  {
    if events != [] {
      StepOk(w, events[0]);
      ClosedForGood(Step(w, events[0]), events[1..], tab);
    }
  }

  /**
   * A late attach that was recorded stays recorded for as long as its tab is open, through every interleaving that
   * follows; so neither `cancel` nor `remove` can have deleted its record. Only retention ends this.
   */
  lemma {:induction false} OpenDebtStaysRecorded(w: World, events: seq<Event>, d: Debt)
    requires Inv(w) && d in w.owed && NeverStale(w, events, d.attempt) && d.tab in Run(w, events).open
    ensures var s := Run(w, events).sessions; d.attempt in s && d.tab in s[d.attempt].pending
    decreases |events|
  {
    if events == [] {
      assert d.tab in Pending(w, d.attempt);
    } else {
      var w1 := Step(w, events[0]);
      StepOk(w, events[0]);
      if d.tab !in w.open { ClosedForGood(w, events, d.tab); }
      if d !in w1.owed {
        DebtsAreNotForgotten(w, events[0], d);
        assert false;
      }
      OpenDebtStaysRecorded(w1, events[1..], d);
    }
  }

  // ---- From any world with a stopped session -------------------------------------------------------------------

  function Handing(a: AttemptId, tab: TabId): Call { Attaching(a, TabHandle(Some(tab), None, true)) }

  function Removing(w: World, a: AttemptId): Loop { Loop(CollectionProtocol.Remove, a, Late(w, a), 0) }

  /** Handing over a tab whose transaction cannot write, and a `remove` after it. */
  function HandedInVain(w: World, id: nat, a: AttemptId, tab: TabId): seq<Event>
    requires a in w.sessions
  {
    var q := Quiet(w.sessions[a], 0);
    [Begin(id, Handing(a, tab)), Advance(id, q.(fault := WriteFails)),
     Begin(id, Preflight(Removing(w, a))), Advance(id, q), Advance(id, q)]
  }

  /** The world keeps its record and its calls, and the tab is open and owed by nobody new. */
  ghost predicate AsBefore(w: World, w': World, a: AttemptId, tab: TabId)
    requires a in w.sessions
  {
    && Inv(w') && w'.calls == w.calls && w'.late == w.late && tab in w'.open && w'.owed <= w.owed
    && a in w'.sessions && w'.sessions[a] == w.sessions[a]
  }

  lemma FailedAttachRecordsNothing(w: World, id: nat, a: AttemptId, tab: TabId)
    requires Inv(w) && id !in w.calls && tab in w.open && a in w.sessions && IsFenced(w.sessions[a])
    ensures var w1 := Step(w, Begin(id, Handing(a, tab)));
            AsBefore(w, Step(w1, Advance(id, Quiet(w.sessions[a], 0).(fault := WriteFails))), a, tab)
  {
    var w1 := Step(w, Begin(id, Handing(a, tab)));
    var e := Advance(id, Quiet(w.sessions[a], 0).(fault := WriteFails));
    assert w1 == Goto(w, id, Handing(a, tab));
    StepOk(w, Begin(id, Handing(a, tab)));
    StepOk(w1, e);
    assert Step(w1, e) == Ended(Expire(w1, w.sessions[a].updatedAt), id);
    assert Step(w1, e).calls == w.calls;
  }

  lemma RemoveDeletes(w: World, id: nat, a: AttemptId, tab: TabId)
    requires Inv(w) && id !in w.calls && tab in w.open && a in w.sessions && w.sessions[a].pending == {}
    ensures var e := Advance(id, Quiet(w.sessions[a], 0));
            var w' := Step(Step(Step(w, Begin(id, Preflight(Removing(w, a)))), e), e);
            a !in w'.sessions && tab in w'.open && w'.calls == w.calls
  {
    var s, loop := w.sessions[a], Removing(w, a);
    var e := Advance(id, Quiet(s, 0));
    var w1 := Step(w, Begin(id, Preflight(loop)));
    assert w1 == Goto(w, id, Preflight(loop));
    StepOk(w, Begin(id, Preflight(loop)));
    QuietPreflight(w1, id, s);
    QuietDecisionDeletes(Step(w1, e), id, loop, Late(w1, a), s);
    PreflightCalls(w1, id, loop, s);
  }

  lemma PreflightCalls(w: World, id: nat, loop: Loop, s: Session)
    requires id in w.calls && w.calls[id] == Preflight(loop)
    ensures Step(w, Advance(id, Quiet(s, 0))).calls - {id} == w.calls - {id}
  {
  }

  lemma HandedInVainRuns(w: World, id: nat, a: AttemptId, tab: TabId)
    requires a in w.sessions
    ensures var events := HandedInVain(w, id, a, tab);
            Run(w, events)
            == Step(Step(Step(Step(Step(w, events[0]), events[1]), events[2]), events[3]), events[4])
  {
    var events := HandedInVain(w, id, a, tab);
    RunsFive(w, events[0], events[1], events[2], events[3]);
  }

  lemma RunsFive(w: World, e0: Event, e1: Event, e2: Event, e: Event)
    ensures Run(w, [e0, e1, e2, e, e]) == Step(Step(Step(Step(Step(w, e0), e1), e2), e), e)
  {
    RunsFirst(w, e0, [e1, e2, e, e]);
    RunsFirst(Step(w, e0), e1, [e2, e, e]);
    RunsFirst(Step(Step(w, e0), e1), e2, [e, e]);
    RunTwice(Step(Step(Step(w, e0), e1), e2), e);
    assert [e0] + [e1, e2, e, e] == [e0, e1, e2, e, e];
    assert [e1] + [e2, e, e] == [e1, e2, e, e];
    assert [e2] + [e, e] == [e2, e, e];
  }

  lemma RunsFirst(w: World, e: Event, rest: seq<Event>)
    ensures Run(w, [e] + rest) == Run(Step(w, e), rest)
  {
    assert ([e] + rest)[1..] == rest;
  }

  /**
   * A tab whose late attach could not be stored is no debt: from every reachable world with a fenced record that owes
   * nothing, handing over an open tab, a failed write and a `remove` lead to a world in which the record is gone, the
   * tab is open, and no call is left to close it.
   */
  lemma UnrecordedTabOutlivesRecord(w: World, id: nat, a: AttemptId, tab: TabId)
    requires Reachable(w) && id !in w.calls && tab in w.open
    requires a in w.sessions && IsFenced(w.sessions[a]) && w.sessions[a].pending == {}
    ensures var w' := Run(w, HandedInVain(w, id, a, tab));
            a !in w'.sessions && tab in w'.open && w'.calls == w.calls
  {
    ReachableInv(w);
    FailedAttachRecordsNothing(w, id, a, tab);
    var events := HandedInVain(w, id, a, tab);
    var w2 := Step(Step(w, events[0]), events[1]);
    assert Removing(w2, a) == Removing(w, a);
    RemoveDeletes(w2, id, a, tab);
    HandedInVainRuns(w, id, a, tab);
  }

  // ---- There is such a world -----------------------------------------------------------------------------------

  lemma StepReaches(w: World, e: Event)
    requires Reachable(w)
    ensures Reachable(Step(w, e))
  {
    var events: seq<Event> :| w == Run(InitialWorld(), events);
    RunAppends(InitialWorld(), events, [e]);
    assert Run(w, [e]) == Run(Step(w, e), [e][1..]);
  }

  const Plain: Choice := Choice(Clock(0, 0, 0), NoFault, RemoveWorks, true, 0)

  lemma StartedSession(a: AttemptId, tab: TabId) returns (w: World)
    ensures Reachable(w) && w.calls == map[] && tab in w.open
    ensures w.sessions == map[a := Session(Some(Local), "p", EmptyProgress(), None, None, None, None, true, {}, 0)]
  {
    assert InitialWorld() == Run(InitialWorld(), []);
    var start := Begin(0, Starting(StartInput(Some(a), "p", Known(Local))));
    var w1 := Step(InitialWorld(), TabOpens(tab));
    var w2 := Step(w1, start);
    w := Step(w2, Advance(0, Plain));
    assert w2.calls == map[0 := start.call] && w2.sessions == map[];
    StepReaches(InitialWorld(), TabOpens(tab));
    StepReaches(w1, start);
    StepReaches(w2, Advance(0, Plain));
  }

  /** A session is started, and then stopped, while a tab is open. */
  lemma StoppedSessionIsReachable(a: AttemptId, tab: TabId) returns (w: World)
    ensures Reachable(w) && w.calls == map[] && tab in w.open
    ensures a in w.sessions && IsFenced(w.sessions[a]) && w.sessions[a].pending == {}
  {
    var w0 := StartedSession(a, tab);
    var w1 := Step(w0, Begin(0, Fencing(a, Local)));
    assert w1 == Goto(w0, 0, Fencing(a, Local));
    var w2 := Step(w1, Advance(0, Plain));
    StepReaches(w0, Begin(0, Fencing(a, Local)));
    StepReaches(w1, Advance(0, Plain));
    FencesPlain(w1, a);
    w := Step(w2, Advance(0, Plain));
    StepReaches(w2, Advance(0, Plain));
    ListsPlain(w2, a);
  }

  lemma FencesPlain(w: World, a: AttemptId)
    requires w.calls == map[0 := Fencing(a, Local)] && a in w.sessions
    requires var s := w.sessions[a];
             s.environment == Some(Local) && !IsFenced(s) && s.managedTab.None? && s.pending == {} && s.updatedAt == 0
    ensures var w' := Step(w, Advance(0, Plain));
            && w'.calls == map[0 := RetryListing(a, Local, Return)] && w'.open == w.open
            && a in w'.sessions && IsFenced(w'.sessions[a]) && w'.sessions[a].pending == {}
            && w'.sessions[a].updatedAt >= 0
  {
  }

  lemma ListsPlain(w: World, a: AttemptId)
    requires w.calls == map[0 := RetryListing(a, Local, Return)] && a in w.sessions
    requires w.sessions[a].pending == {} && w.sessions[a].updatedAt >= 0
    ensures var w' := Step(w, Advance(0, Plain));
            w'.calls == map[] && w'.open == w.open && a in w'.sessions && w'.sessions[a] == w.sessions[a]
  {
  }
}
