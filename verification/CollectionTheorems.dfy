/** What the collection session protocol guarantees over every interleaving. */
module CollectionTheorems {
  import opened Common
  import opened CollectionStore
  import opened CollectionProtocol
  import opened CollectionInvariant

  lemma {:induction false} RunKeepsInv(w: World, events: seq<Event>)
    requires Inv(w)
    ensures Inv(Run(w, events))
    decreases |events|
  {
    if events != [] {
      StepOk(w, events[0]);
      RunKeepsInv(Step(w, events[0]), events[1..]);
    }
  }

  /** Worlds the protocol can get into. */
  ghost predicate Reachable(w: World) { exists events: seq<Event> :: w == Run(InitialWorld(), events) }

  lemma ReachableInv(w: World)
    requires Reachable(w)
    ensures Inv(w)
  {
    var events: seq<Event> :| w == Run(InitialWorld(), events);
    RunKeepsInv(InitialWorld(), events);
  }

  // ---- Late-attach debt ---------------------------------------------------------------------------------------

  /** A record that reading or writing at these clocks would drop. */
  predicate Stale(s: Session, clock: Clock) { s.updatedAt < Max(clock.readAt, clock.writeAt) - RETENTION_MS }

  /** At all times a debt is either in its attempt's pending list or its tab is gone from Chrome. */
  lemma LateAttachDebtIsCovered(w: World, d: Debt)
    requires Reachable(w) && d in w.owed
    ensures d.tab !in w.open || (d.attempt in w.sessions && d.tab in w.sessions[d.attempt].pending)
  {
    ReachableInv(w);
    assert d.tab in w.open ==> d.tab in Pending(w, d.attempt);
  }

  /** Retention takes the record before the transaction that is to take the tab in, or together with it. */
  predicate RetentionTakes(s: Session, clock: Clock) {
    s.updatedAt < clock.readAt - RETENTION_MS || Stamp(clock.stampAt, s.updatedAt) < clock.writeAt - RETENTION_MS
  }

  /** The record of `a` has taken the tab in as one that owes a close, as a new late attach. */
  ghost predicate Records(w: World, w': World, a: AttemptId, tab: TabId)
    requires a in w.sessions
  {
    && a in w'.sessions && w'.sessions[a].pending == w.sessions[a].pending + {tab}
    && w'.sessions[a].updatedAt > w.sessions[a].updatedAt
    && w'.sessions[a].managedTab == w.sessions[a].managedTab
    && Debt(a, tab) in w'.owed && Late(w', a) == Late(w, a) + 1
  }

  /**
   * A closable tab handed to a fenced record makes a debt, and the record never takes the tab over, exactly if storage
   * can be read and written and retention leaves the record. If storage fails, the call ends with the tab as it was and
   * nothing recorded; if only retention took the record, the call still goes on to close the tab.
   */
  lemma LateAttachIsRecorded(w: World, id: nat, ch: Choice)
    requires id in w.calls && w.calls[id].Attaching?
    requires var c := w.calls[id];
             && c.attempt in w.sessions && IsFenced(w.sessions[c.attempt])
             && c.handle.closeOnCancel && c.handle.tabId.Some?
    ensures var c, w' := w.calls[id], Step(w, Advance(id, ch));
            var a, tab := c.attempt, c.handle.tabId.value;
            && (Records(w, w', a, tab) <==> ch.fault.NoFault? && !RetentionTakes(w.sessions[a], ch.clock))
            && (ch.fault.NoFault? ==> id in w'.calls && w'.calls[id] == AttachClosing(a, tab))
            && (!ch.fault.NoFault? ==>
                  && id !in w'.calls && w'.open == w.open && w'.owed <= w.owed
                  && (a in w'.sessions ==> w'.sessions[a] == w.sessions[a]))
  {
    var c := w.calls[id];
    if ch.fault.NoFault? {
      AttachRecords(w, Expire(w, ch.clock.readAt), id, c.attempt, c.handle, ch);
    }
  }

  lemma AttachRecords(w: World, r: World, id: nat, a: AttemptId, handle: TabHandle, ch: Choice)
    requires r == Expire(w, ch.clock.readAt) && a in w.sessions && IsFenced(w.sessions[a])
    requires handle.closeOnCancel && handle.tabId.Some?
    ensures var w' := AttachStep(r, id, a, handle, ch);
            && (Records(w, w', a, handle.tabId.value) <==> !RetentionTakes(w.sessions[a], ch.clock))
            && id in w'.calls && w'.calls[id] == AttachClosing(a, handle.tabId.value)
  {
  }

  // ---- The life of a record -----------------------------------------------------------------------------------

  /** What every step that keeps a record keeps of it: owner, a clock that never runs back, and the stop fence. */
  predicate Continues(s: Session, s': Session) {
    && s'.producer == s.producer && s'.environment == s.environment
    && s'.updatedAt >= s.updatedAt
    && (IsFenced(s) ==> s'.cancelledAt == s.cancelledAt && s'.managedTab in {s.managedTab, None})
  }

  /** The record of `a` and its debts come through from `w` to `w'`. */
  ghost predicate Survives(w: World, w': World, a: AttemptId)
    requires a in w.sessions
  {
    && a in w'.sessions && Continues(w.sessions[a], w'.sessions[a])
    && forall d | d in w.owed && d.attempt == a :: d in w'.owed
  }

  lemma StoredSurvives<R>(w: World, open: set<TabId>, body: Transaction<R>, clock: Clock, a: AttemptId)
    requires a in w.sessions && !Stale(w.sessions[a], clock)
    requires a in body.sessions && Continues(w.sessions[a], body.sessions[a])
    ensures Survives(w, Stored(w.(open := open), body, clock), a)
  {
  }

  lemma AttachSurvives(r: World, id: nat, at: AttemptId, handle: TabHandle, ch: Choice, a: AttemptId)
    requires a in r.sessions && !Stale(r.sessions[a], ch.clock)
    ensures Survives(r, AttachStep(r, id, at, handle, ch), a)
  {
    var body := AttachBody(r.sessions, at, handle, ch.clock.stampAt);
    assert a in body.sessions && Continues(r.sessions[a], body.sessions[a]);
    if body.writes && body.reply.value.Refused? {
      var r1 := r.(late := r.late[at := Late(r, at) + 1], owed := r.owed + {Debt(at, handle.tabId.value)});
      StoredSurvives(r1, r1.open, body, ch.clock, a);
    } else {
      StoredSurvives(r, r.open, body, ch.clock, a);
    }
  }

  /** The queued transactions other than the loops' deciding one. */
  lemma SingleSurvives(r: World, id: nat, c: Call, ch: Choice, a: AttemptId)
    requires a in r.sessions && !Stale(r.sessions[a], ch.clock)
    requires c.Starting? || c.Reporting? || c.Asking? || c.AttachDropping? || c.FenceClearing?
    ensures Survives(r, TransactionStep(r, id, c, ch), a)
  {
    var now := ch.clock.stampAt;
    match c
    case Starting(input) => StoredSurvives(r, r.open, StartBody(r.sessions, input, now), ch.clock, a);
    case Reporting(b, p) => StoredSurvives(r, r.open, ProgressBody(r.sessions, b, p, now), ch.clock, a);
    case Asking(b, reason, message) =>
      StoredSurvives(r, r.open, AttentionBody(r.sessions, b, reason, message, now), ch.clock, a);
    case AttachDropping(b, tab) => StoredSurvives(r, r.open, DropAttachedBody(r.sessions, b, tab, now), ch.clock, a);
    case FenceClearing(b, _, tab) => StoredSurvives(r, r.open, ClearManagedBody(r.sessions, b, tab, now), ch.clock, a);
  }

  lemma FenceSurvives(r: World, id: nat, b: AttemptId, environment: Environment, ch: Choice, a: AttemptId)
    requires a in r.sessions && !Stale(r.sessions[a], ch.clock)
    ensures Survives(r, FenceStep(r, id, b, environment, ch), a)
  {
    StoredSurvives(r, r.open, FenceBody(r.sessions, b, environment, ch.clock.stampAt), ch.clock, a);
  }

  lemma DetachSurvives(r: World, id: nat, c: Call, ch: Choice, a: AttemptId)
    requires a in r.sessions && !Stale(r.sessions[a], ch.clock) && c.Detaching?
    ensures Survives(r, DetachStep(r, id, c.attempt, c.detached, c.close, ch), a)
  {
    var target := DetachCloses(r.sessions, c.attempt, c.detached, c.close);
    var (open, closed) := if target.Some? then CloseTab(r.open, target.value, ch.fate) else (r.open, true);
    var body := DetachBody(r.sessions, c.attempt, c.detached, c.close, closed, ch.clock.stampAt);
    StoredSurvives(r, open, body, ch.clock, a);
  }

  lemma DecideSurvives(r: World, id: nat, loop: Loop, ch: Choice, a: AttemptId)
    requires a in r.sessions && !Stale(r.sessions[a], ch.clock) && a != loop.attempt
    ensures Survives(r, DecideStep(r, id, loop, ch), a)
  {
    var (open, body) := Decision(r, loop, ch);
    StoredSurvives(r, open, body, ch.clock, a);
  }

  lemma DropSurvives(r: World, id: nat, c: Call, ch: Choice, a: AttemptId)
    requires a in r.sessions && !Stale(r.sessions[a], ch.clock) && c.RetryClosing?
    ensures Survives(r, DropStep(r, id, c, ch), a)
  {
    var body := DropListedBody(r.sessions, c.attempt, c.environment, c.closed, ch.clock.stampAt);
    StoredSurvives(r, r.open, body, ch.clock, a);
    if c.closed == c.listed {
      match c.after
      case Return =>
      case CheckThenDelete(_, _) =>
      case StartOver(_) =>
    }
  }

  lemma TransactionSurvives(r: World, id: nat, c: Call, ch: Choice, a: AttemptId)
    requires a in r.sessions && !Stale(r.sessions[a], ch.clock) && !Closing(c)
    requires c.Deciding? ==> c.loop.attempt != a
    ensures Survives(r, TransactionStep(r, id, c, ch), a)
  {
    match c
    case Attaching(b, handle) => AttachSurvives(r, id, b, handle, ch, a);
    case Detaching(_, _, _) => DetachSurvives(r, id, c, ch, a);
    case Fencing(b, environment) => FenceSurvives(r, id, b, environment, ch, a);
    case RetryListing(_, _, _) =>
    case RetryClosing(_, _, _, _, _, _) => DropSurvives(r, id, c, ch, a);
    case Preflight(_) =>
    case Deciding(loop, _) => DecideSurvives(r, id, loop, ch, a);
    case _ => SingleSurvives(r, id, c, ch, a);
  }

  /**
   * A step ends a record only by retention, or by the deciding transaction of a `cancel` or `remove` of that attempt.
   * Any other step keeps its owner, never turns its date back, and never lifts or renews a stop fence or gives a
   * fenced record another managed tab.
   */
  lemma RecordsContinue(w: World, e: Event, a: AttemptId)
    requires a in w.sessions
    requires e.Advance? ==> !Stale(w.sessions[a], e.choice.clock)
    requires !(e.Advance? && e.id in w.calls && w.calls[e.id].Deciding? && w.calls[e.id].loop.attempt == a)
    ensures Survives(w, Step(w, e), a)
  {
    if e.Advance? && e.id in w.calls {
      var c := w.calls[e.id];
      if !Closing(c) && !e.choice.fault.ReadFails? {
        var r := Expire(w, e.choice.clock.readAt);
        assert Survives(w, r, a);
        if e.choice.fault.NoFault? { TransactionSurvives(r, e.id, c, e.choice, a); }
      }
    }
  }

  /** The record of `a` and what it owes, as they are. */
  ghost predicate KeepsDebts(w: World, w': World, a: AttemptId) {
    && (a in w'.sessions ==> a in w.sessions && w'.sessions[a] == w.sessions[a])
    && forall d | d in w.owed && d.attempt == a :: d in w'.owed
  }

  lemma StoredKeepsDebts(r: World, open: set<TabId>, body: Transaction<DeleteReply>, clock: Clock, a: AttemptId)
    requires a in r.sessions && !Stale(r.sessions[a], clock)
    requires body.sessions == if body.writes then r.sessions - {a} else r.sessions
    ensures KeepsDebts(r, Stored(r.(open := open), body, clock), a)
  {
  }

  lemma DecideKeepsDebts(r: World, id: nat, loop: Loop, ch: Choice)
    requires loop.attempt in r.sessions && !Stale(r.sessions[loop.attempt], ch.clock)
    ensures KeepsDebts(r, DecideStep(r, id, loop, ch), loop.attempt)
  {
    var (open, body) := Decision(r, loop, ch);
    StoredKeepsDebts(r, open, body, ch.clock, loop.attempt);
    var w := Stored(r.(open := open), body, ch.clock);
    if body.reply.Ok? && body.reply.value.StillPending? {
      if body.reply.value.environment.None? {} else {}
    } else {
      assert DecideStep(r, id, loop, ch) == Ended(w, id);
    }
  }

  /** A deciding transaction keeps its own record as it is or deletes it, and never drops a debt. */
  lemma DecidingKeepsDebts(w: World, id: nat, ch: Choice, a: AttemptId)
    requires a in w.sessions && !Stale(w.sessions[a], ch.clock)
    requires id in w.calls && w.calls[id].Deciding? && w.calls[id].loop.attempt == a
    ensures var w' := Step(w, Advance(id, ch));
            && (a in w'.sessions ==> w'.sessions[a] == w.sessions[a])
            && forall d | d in w.owed && d.attempt == a :: d in w'.owed
  {
    var r := Expire(w, ch.clock.readAt);
    assert a in r.sessions && KeepsDebts(w, r, a);
    if ch.fault.ReadFails? {
    } else if ch.fault.WriteFails? {
    } else {
      DecideKeepsDebts(r, id, w.calls[id].loop, ch);
      assert Step(w, Advance(id, ch)) == DecideStep(r, id, w.calls[id].loop, ch);
    }
  }

  /** Any step may forget a debt only after its tab is gone, or because retention drops the record. */
  lemma DebtsAreNotForgotten(w: World, e: Event, d: Debt)
    requires Inv(w) && d in w.owed && d !in Step(w, e).owed
    ensures d.tab in w.open ==> e.Advance? && d.attempt in w.sessions && Stale(w.sessions[d.attempt], e.choice.clock)
  {
    if d.tab in w.open {
      var a := d.attempt;
      assert d.tab in Pending(w, a);
      if !(e.Advance? && Stale(w.sessions[a], e.choice.clock)) {
        if e.Advance? && e.id in w.calls && w.calls[e.id].Deciding? && w.calls[e.id].loop.attempt == a {
          DecidingKeepsDebts(w, e.id, e.choice, a);
        } else {
          RecordsContinue(w, e, a);
        }
      }
    }
  }

  /**
   * When a step of any reachable world deletes a record that retention would keep, it is the deciding transaction of
   * a `cancel` or `remove` of that attempt, and every tab the record ever owed a close is gone from Chrome.
   */
  lemma DeletionOwesNothing(w: World, e: Event, a: AttemptId)
    requires Reachable(w) && a in w.sessions && a !in Step(w, e).sessions
    requires e.Advance? ==> !Stale(w.sessions[a], e.choice.clock)
    ensures e.Advance? && e.id in w.calls && w.calls[e.id].Deciding? && w.calls[e.id].loop.attempt == a
    ensures forall d | d in w.owed && d.attempt == a :: d.tab !in Step(w, e).open
  {
    ReachableInv(w);
    var w' := Step(w, e);
    StepOk(w, e);
    if !(e.Advance? && e.id in w.calls && w.calls[e.id].Deciding? && w.calls[e.id].loop.attempt == a) {
      RecordsContinue(w, e, a);
      assert false;
    }
    DecidingKeepsDebts(w, e.id, e.choice, a);
    forall d | d in w.owed && d.attempt == a
      ensures d.tab !in w'.open
    {
      assert d in w'.owed && Pending(w', a) == {};
    }
  }

  /** The transaction call `c` performs on the world `r`, whose records are already pruned, rejects. */
  predicate Rejects(r: World, c: Call, ch: Choice) {
    match c
    case Starting(input) => StartBody(r.sessions, input, ch.clock.stampAt).reply.Rejected?
    case Reporting(a, p) => ProgressBody(r.sessions, a, p, ch.clock.stampAt).reply.Rejected?
    case Detaching(a, tab, close) =>
      var target := DetachCloses(r.sessions, a, tab, close);
      var closed := target.Some? ==> CloseTab(r.open, target.value, ch.fate).1;
      DetachBody(r.sessions, a, tab, close, closed, ch.clock.stampAt).reply.Rejected?
    case Deciding(loop, _) => Decision(r, loop, ch).1.reply.Rejected?
    case _ => false
  }

  /**
   * An operation that rejects, whether its read or its write fails or its own checks do, changes the stored map no
   * further than retention does: each record is as it was or was too old to keep. Its call is over, and the others stand
   * where they stood.
   */
  lemma RejectionsWriteNothing(w: World, id: nat, ch: Choice)
    requires id in w.calls && !Closing(w.calls[id])
    requires !ch.fault.NoFault? || Rejects(Expire(w, ch.clock.readAt), w.calls[id], ch)
    ensures var w' := Step(w, Advance(id, ch));
            && w'.sessions == (if ch.fault.ReadFails? then w.sessions else Prune(w.sessions, ch.clock.readAt))
            && w'.calls == w.calls - {id} && w'.late == w.late
  {
    var c, r := w.calls[id], Expire(w, ch.clock.readAt);
    if ch.fault.NoFault? {
      match c
      case Starting(_) =>
      case Reporting(_, _) =>
      case Detaching(a, tab, close) => DetachRejects(r, id, c, ch);
      case Deciding(loop, _) => DecisionRejects(r, id, loop, ch);
    }
  }

  lemma DetachRejects(r: World, id: nat, c: Call, ch: Choice)
    requires c.Detaching? && Rejects(r, c, ch)
    ensures var w' := DetachStep(r, id, c.attempt, c.detached, c.close, ch);
            w'.sessions == r.sessions && w'.calls == r.calls - {id} && w'.late == r.late
  {
  }

  lemma DecisionRejects(r: World, id: nat, loop: Loop, ch: Choice)
    requires Decision(r, loop, ch).1.reply.Rejected?
    ensures var w' := DecideStep(r, id, loop, ch);
            w'.sessions == r.sessions && w'.calls == r.calls - {id} && w'.late == r.late
  {
  }

  // ---- The retry loops ----------------------------------------------------------------------------------------

  /** The loop a call in flight belongs to, if it is a `cancel` or `remove`. */
  function LoopOf(c: Call): Option<Loop> {
    match c
    case Preflight(loop) => Some(loop)
    case Deciding(loop, _) => Some(loop)
    case RetryListing(_, _, CheckThenDelete(loop, _)) => Some(loop)
    case RetryListing(_, _, StartOver(loop)) => Some(loop)
    case RetryClosing(_, _, CheckThenDelete(loop, _), _, _, _) => Some(loop)
    case RetryClosing(_, _, StartOver(loop), _, _, _) => Some(loop)
    case _ => None
  }

  /**
   * However the calls interleave, a `cancel` or `remove` has gone round again at most as often as late attaches of its
   * attempt came in since it began, and no loop was ever asked to retry without an environment.
   */
  lemma LoopsContinueOncePerLateAttach(w: World, id: nat)
    requires Reachable(w) && id in w.calls && LoopOf(w.calls[id]).Some?
    ensures var loop := LoopOf(w.calls[id]).value;
            loop.continues <= Late(w, loop.attempt) - loop.lateAtStart
    ensures !w.fellThrough
  {
    ReachableInv(w);
    assert CallInv(w, w.calls[id]);
  }

  /** How far a loop's round still has to go; a retry's closes count down within one stage. */
  function Stage(c: Call): nat {
    match c
    case RetryListing(_, _, StartOver(_)) => 6
    case RetryClosing(_, _, StartOver(_), _, _, _) => 5
    case Preflight(_) => 4
    case RetryListing(_, _, _) => 3
    case RetryClosing(_, _, _, _, _, _) => 2
    case _ => 1
  }

  function Todo(c: Call): nat { if c.RetryClosing? then |c.todo| else 0 }

  /** Call `id`, which stood at `c`, has ended, gone round again, or come closer to the end of its round. */
  ghost predicate Progressed(c: Call, w': World, id: nat)
    requires LoopOf(c).Some?
  {
    id in w'.calls ==>
      var c', loop := w'.calls[id], LoopOf(c).value;
      && (LoopOf(c') == Some(loop) || LoopOf(c') == Some(loop.(continues := loop.continues + 1)))
      && (LoopOf(c') == Some(loop) ==>
            Stage(c') < Stage(c) || (Stage(c') == Stage(c) && Todo(c') < Todo(c)))
  }

  lemma SettledProgresses(w: World, id: nat, c: Call)
    requires (c.RetryListing? || c.RetryClosing?) && !c.after.Return?
    ensures Progressed(c, Settled(w, id, c.after), id)
  {
  }

  lemma RetryProgresses(r: World, id: nat, c: Call, ch: Choice)
    requires StoreInv(r) && (c.RetryListing? || c.RetryClosing?) && !c.after.Return? && !Closing(c)
    ensures Progressed(c, TransactionStep(r, id, c, ch), id)
  {
    match c
    case RetryListing(a, environment, after) => SettledProgresses(r, id, c);
    case RetryClosing(a, environment, after, _, _, closed) =>
      SettledProgresses(Stored(r, DropListedBody(r.sessions, a, environment, closed, ch.clock.stampAt), ch.clock), id, c);
  }

  lemma DecidingProgresses(r: World, id: nat, loop: Loop, mark: nat, ch: Choice)
    ensures Progressed(Deciding(loop, mark), DecideStep(r, id, loop, ch), id)
  {
  }

  /**
   * Every action of a loop ends it, goes round again (which the lemma above pays for with a late attach), or brings
   * the round closer to its end. With finitely many late attaches every `cancel` and `remove` therefore ends.
   */
  lemma LoopActionsMakeProgress(w: World, id: nat, ch: Choice)
    requires Reachable(w) && id in w.calls && LoopOf(w.calls[id]).Some?
    requires var c := w.calls[id]; c.RetryClosing? && c.todo != {} ==> ch.pick in c.todo
    ensures Progressed(w.calls[id], Step(w, Advance(id, ch)), id)
  {
    ReachableInv(w);
    var c := w.calls[id];
    if Closing(c) {
      assert |c.todo - {ch.pick}| == |c.todo| - 1;
    } else if ch.fault.NoFault? {
      var r := Expire(w, ch.clock.readAt);
      ExpireOk(w, ch.clock.readAt);
      match c
      case Preflight(_) =>
      case Deciding(loop, mark) => DecidingProgresses(r, id, loop, mark, ch);
      case _ => RetryProgresses(r, id, c, ch);
    }
  }

  /** A moment in which the record is not stale, Chrome removes tabs, and the owner agrees. */
  function Quiet(s: Session, pick: TabId): Choice {
    Choice(Clock(s.updatedAt, s.updatedAt, s.updatedAt), NoFault, RemoveWorks, true, pick)
  }

  lemma {:induction false} RunAppends(w: World, first: seq<Event>, second: seq<Event>)
    ensures Run(w, first + second) == Run(Run(w, first), second)
    decreases |first|
  {
    if first == [] {
      assert first + second == second;
    } else {
      assert (first + second)[1..] == first[1..] + second;
      RunAppends(Step(w, first[0]), first[1..], second);
    }
  }

  lemma RunTwice(w: World, e: Event)
    ensures Run(w, [e, e]) == Step(Step(w, e), e)
  {
    var w1 := Step(w, e);
    assert [e, e][1..] == [e] && [e][1..] == [];
    assert Run(w1, [e]) == Run(Step(w1, e), []);
  }

  /** Left alone, a retry closes all it listed and reaches its last transaction having closed everything. */
  lemma {:induction false} RetryClosesAll(w: World, id: nat, todo: set<TabId>, s: Session) returns (events: seq<Event>)
    requires id in w.calls && w.calls[id].RetryClosing? && w.calls[id].todo == todo
    requires w.calls[id].listed == todo + w.calls[id].closed
    ensures forall e | e in events :: e.Advance? && e.id == id
    ensures var c, w' := w.calls[id], Run(w, events);
            w' == w.(open := w.open - todo, calls := w.calls[id := c.(todo := {}, closed := c.listed)])
    decreases |todo|
  {
    var c := w.calls[id];
    var done := c.(todo := {}, closed := c.listed);
    if todo == {} {
      events := [];
      assert w.open - todo == w.open && c.listed == c.closed;
      assert done == c && w.calls[id := done] == w.calls;
    } else {
      var tab := AnyOf(todo);
      var e := Advance(id, Quiet(s, tab));
      var w1 := Step(w, e);
      var c1 := c.(todo := todo - {tab}, closed := c.closed + {tab});
      assert w1 == w.(open := w.open - {tab}, calls := w.calls[id := c1]);
      var rest := RetryClosesAll(w1, id, todo - {tab}, s);
      events := [e] + rest;
      assert w.open - {tab} - (todo - {tab}) == w.open - todo;
      assert w1.calls[id := done] == w.calls[id := done];
      assert events[1..] == rest;
    }
  }

  /** The managed tab, if this loop is to close it and may. */
  function ClosedWith(kind: LoopKind, s: Session): set<TabId> {
    if kind.Cancel? && kind.closeManagedTab && s.closeOnCancel && s.managedTab.Some? then {s.managedTab.value} else {}
  }

  lemma QuietDecisionDeletes(w: World, id: nat, loop: Loop, mark: nat, s: Session)
    requires id in w.calls && w.calls[id] == Deciding(loop, mark)
    requires loop.attempt in w.sessions && w.sessions[loop.attempt].pending == {}
    requires w.sessions[loop.attempt].updatedAt >= s.updatedAt
    ensures var w' := Step(w, Advance(id, Quiet(s, 0)));
            && loop.attempt !in w'.sessions && w'.calls == w.calls - {id}
            && w'.open == w.open - ClosedWith(loop.kind, w.sessions[loop.attempt])
  {
  }

  lemma QuietPreflight(w: World, id: nat, s: Session)
    requires Inv(w) && id in w.calls && w.calls[id].Preflight?
    requires w.calls[id].loop.attempt in w.sessions && w.sessions[w.calls[id].loop.attempt] == s
    ensures var loop, w1 := w.calls[id].loop, Step(w, Advance(id, Quiet(s, 0)));
            && loop.attempt in w1.sessions && w1.sessions[loop.attempt] == s && id in w1.calls && w1.open == w.open
            && (s.pending == {} ==> w1.calls[id] == Deciding(loop, Late(w, loop.attempt)))
            && (s.pending != {} ==>
                  w1.calls[id] ==
                  RetryListing(loop.attempt, s.environment.value, CheckThenDelete(loop, Late(w, loop.attempt))))
  {
  }

  lemma QuietListing(w: World, id: nat, s: Session, after: After)
    requires id in w.calls && s.environment.Some? && IsFenced(s) && s.pending != {}
    requires w.calls[id].RetryListing? && w.calls[id].environment == s.environment.value && w.calls[id].after == after
    requires w.calls[id].attempt in w.sessions && w.sessions[w.calls[id].attempt] == s
    ensures var a, w1 := w.calls[id].attempt, Step(w, Advance(id, Quiet(s, 0)));
            && a in w1.sessions && w1.sessions[a] == s && id in w1.calls && w1.open == w.open
            && w1.calls[id] == RetryClosing(a, s.environment.value, after, s.pending, s.pending, {})
  {
  }

  lemma QuietDropping(w: World, id: nat, s: Session, loop: Loop, mark: nat)
    requires id in w.calls && s.environment.Some? && loop.attempt in w.sessions && w.sessions[loop.attempt] == s
    requires w.calls[id] == RetryClosing(loop.attempt, s.environment.value, CheckThenDelete(loop, mark),
                                         s.pending, {}, s.pending)
    ensures var w1 := Step(w, Advance(id, Quiet(s, 0)));
            && loop.attempt in w1.sessions && w1.sessions[loop.attempt].pending == {}
            && w1.sessions[loop.attempt].updatedAt >= s.updatedAt
            && ClosedWith(loop.kind, w1.sessions[loop.attempt]) == ClosedWith(loop.kind, s)
            && id in w1.calls && w1.calls[id] == Deciding(loop, mark) && w1.open == w.open
  {
  }

  /**
   * A `cancel` or `remove` that nothing disturbs closes every tab its record owes and then deletes the record: a debt
   * never blocks the deletion for good. A `cancel` that is to close the managed tab closes it too, if it may, and no
   * other tab is closed.
   */
  lemma UndisturbedLoopDeletes(w: World, id: nat) returns (events: seq<Event>)
    requires Reachable(w) && id in w.calls && w.calls[id].Preflight?
    requires w.calls[id].loop.attempt in w.sessions
    ensures forall e | e in events :: e.Advance? && e.id == id
    ensures var a, w' := w.calls[id].loop.attempt, Run(w, events);
            && a !in w'.sessions && id !in w'.calls
            && w'.open == w.open - w.sessions[a].pending - ClosedWith(w.calls[id].loop.kind, w.sessions[a])
  {
    ReachableInv(w);
    var loop := w.calls[id].loop;
    var s := w.sessions[loop.attempt];
    var mark := Late(w, loop.attempt);
    var e := Advance(id, Quiet(s, 0));
    var w1 := Step(w, e);
    QuietPreflight(w, id, s);
    if s.pending == {} {
      QuietDecisionDeletes(w1, id, loop, mark, s);
      events := [e, e];
      RunTwice(w, e);
    } else {
      var w2 := Step(w1, e);
      QuietListing(w1, id, s, CheckThenDelete(loop, mark));
      var closes := RetryClosesAll(w2, id, s.pending, s);
      var w3 := Run(w2, closes);
      var w4 := Step(w3, e);
      QuietDropping(w3, id, s, loop, mark);
      QuietDecisionDeletes(w4, id, loop, mark, s);
      events := [e, e] + closes + [e, e];
      RunTwice(w, e);
      RunTwice(w3, e);
      RunAppends(w, [e, e] + closes, [e, e]);
      RunAppends(w, [e, e], closes);
    }
  }

  // ---- The permanent fence ------------------------------------------------------------------------------------

  /** Along this run the record of `a` is never deleted and never old enough for retention. */
  ghost predicate StaysStored(w: World, events: seq<Event>, a: AttemptId)
    decreases |events|
  {
    a in w.sessions &&
    (events != [] ==>
       (events[0].Advance? ==> !Stale(w.sessions[a], events[0].choice.clock)) &&
       StaysStored(Step(w, events[0]), events[1..], a))
  }

  lemma StepContinues(w: World, e: Event, a: AttemptId)
    requires a in w.sessions && a in Step(w, e).sessions
    requires e.Advance? ==> !Stale(w.sessions[a], e.choice.clock)
    ensures Continues(w.sessions[a], Step(w, e).sessions[a])
  {
    if e.Advance? && e.id in w.calls && w.calls[e.id].Deciding? && w.calls[e.id].loop.attempt == a {
      DecidingKeepsDebts(w, e.id, e.choice, a);
    } else {
      RecordsContinue(w, e, a);
    }
  }

  /** As long as a record lives, its owner stays, its date never decreases, and a stop fence is permanent. */
  lemma {:induction false} StoredRecordsContinue(w: World, events: seq<Event>, a: AttemptId)
    requires StaysStored(w, events, a)
    ensures a in Run(w, events).sessions && Continues(w.sessions[a], Run(w, events).sessions[a])
    decreases |events|
  {
    if events != [] {
      var w1 := Step(w, events[0]);
      assert a in w1.sessions;
      StepContinues(w, events[0], a);
      StoredRecordsContinue(w1, events[1..], a);
    }
  }

  /** After the fence, until the record goes: no start, no tab ownership and no activity, whoever asks. */
  lemma FenceIsPermanent(w: World, events: seq<Event>, a: AttemptId)
    requires StaysStored(w, events, a) && IsFenced(w.sessions[a])
    ensures var s := Run(w, events).sessions;
            && a in s && s[a].cancelledAt == w.sessions[a].cancelledAt
            && (forall input: StartInput, now | input.attempt == Some(a) :: StartBody(s, input, now).reply.Rejected?)
            && (forall environment, producer, tab :: !OwnsTab(s, a, environment, producer, tab))
            && (forall environment, producer :: !IsActive(s, a, environment, producer))
            && (forall handle: TabHandle, now ::
                  AttachBody(s, a, handle, now).sessions[a].managedTab == s[a].managedTab)
  {
    StoredRecordsContinue(w, events, a);
  }
}
