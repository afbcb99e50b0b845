/** What holds of every world the collection protocol can get into, and that every step keeps it. */
module CollectionInvariant {
  import opened Common
  import opened CollectionStore
  import opened CollectionProtocol

  // ---- Invariant ----------------------------------------------------------------------------------------------

  /** Owing a close implies the fence, and the fence implies an environment. */
  ghost predicate SessionsOk(sessions: Sessions, issued: set<TabId>) {
    forall a | a in sessions ::
      && (sessions[a].pending != {} ==> IsFenced(sessions[a]))
      && (IsFenced(sessions[a]) ==> sessions[a].environment.Some?)
      && sessions[a].pending <= issued
      && (sessions[a].managedTab.Some? ==> sessions[a].managedTab.value in issued)
  }

  /** Every debt is either still recorded with its attempt, or its tab is gone from Chrome. */
  ghost predicate DebtsCovered(w: World) {
    forall d | d in w.owed :: d.tab in w.issued && (d.tab in w.open ==> d.tab in Pending(w, d.attempt))
  }

  ghost predicate StoreInv(w: World) {
    && SessionsOk(w.sessions, w.issued)
    && DebtsCovered(w)
    && w.open <= w.issued
    && !w.fellThrough
  }

  ghost predicate Gone(w: World, tabs: set<TabId>) { tabs <= w.issued && tabs !! w.open }

  ghost predicate LoopInv(w: World, loop: Loop) { loop.lateAtStart + loop.continues <= Late(w, loop.attempt) }

  ghost predicate MarkInv(w: World, loop: Loop, mark: nat) {
    loop.lateAtStart + loop.continues <= mark <= Late(w, loop.attempt)
  }

  /** Unless a late attach came in since `mark`, what is pending belongs to a record of this environment. */
  ghost predicate SameOwner(w: World, a: AttemptId, environment: Environment, mark: nat) {
    Late(w, a) == mark && Pending(w, a) != {} ==> w.sessions[a].environment == Some(environment)
  }

  ghost predicate AfterInv(w: World, a: AttemptId, environment: Environment, after: After) {
    match after
    case Return => true
    case CheckThenDelete(loop, mark) => loop.attempt == a && MarkInv(w, loop, mark) && SameOwner(w, a, environment, mark)
    case StartOver(loop) => loop.attempt == a && LoopInv(w, loop)
  }

  ghost predicate CallInv(w: World, c: Call) {
    match c
    case Attaching(_, handle) => handle.tabId.Some? ==> handle.tabId.value in w.issued
    case AttachClosing(_, tab) => tab in w.issued
    case AttachDropping(_, tab) => Gone(w, {tab})
    case FenceClosing(_, _, tab) => tab in w.issued
    case FenceClearing(_, _, tab) => Gone(w, {tab})
    case RetryListing(a, environment, after) => AfterInv(w, a, environment, after)
    case RetryClosing(a, environment, after, listed, todo, closed) =>
      && AfterInv(w, a, environment, after)
      && listed <= w.issued && todo <= listed && closed <= listed && Gone(w, closed)
      && (after.CheckThenDelete? && Late(w, a) == after.mark ==> Pending(w, a) <= listed)
    case Preflight(loop) => LoopInv(w, loop)
    case Deciding(loop, mark) =>
      MarkInv(w, loop, mark) && (Late(w, loop.attempt) == mark ==> Pending(w, loop.attempt) == {})
    case _ => true
  }

  ghost predicate Inv(w: World) {
    StoreInv(w) && forall id | id in w.calls :: CallInv(w, w.calls[id])
  }

  /**
   * What one step may do to the parts of the world a call in flight relies on: closed tabs stay closed, and unless the
   * attempt takes a late attach its pending tabs only shrink and keep their environment.
   */
  ghost predicate Evolves(w: World, w': World) {
    && w.issued <= w'.issued
    && w'.open * w.issued <= w.open
    && forall a ::
         && Late(w, a) <= Late(w', a)
         && (Late(w, a) == Late(w', a) ==>
               Pending(w', a) <= Pending(w, a) &&
               (Pending(w', a) != {} ==> w'.sessions[a].environment == w.sessions[a].environment))
  }

  lemma CallStable(w: World, w': World, c: Call)
    requires Evolves(w, w') && CallInv(w, c)
    ensures CallInv(w', c)
  {
  }

  lemma AfterStable(w: World, w': World, a: AttemptId, environment: Environment, after: After)
    requires Evolves(w, w') && AfterInv(w, a, environment, after)
    ensures AfterInv(w', a, environment, after)
  {
  }

  lemma EvolvesTransitive(w: World, w1: World, w2: World)
    requires Evolves(w, w1) && Evolves(w1, w2)
    ensures Evolves(w, w2)
  {
  }

  // ---- Every step keeps the invariant -------------------------------------------------------------------------

  /** A body that takes in no late attach: pending tabs leave only when `dropped`, and only debt-free records go. */
  ghost predicate Tidy(s: Sessions, s': Sessions, dropped: set<TabId>) {
    && (forall b | b in s' ::
          if b in s then
            s'[b].environment == s[b].environment && s'[b].pending <= s[b].pending <= s'[b].pending + dropped
          else s'[b].pending == {})
    && (forall b | b in s && b !in s' :: s[b].pending == {})
  }

  lemma ExpireOk(w: World, now: int)
    requires StoreInv(w)
    ensures StoreInv(Expire(w, now)) && Evolves(w, Expire(w, now))
  {
  }

  lemma StoredOk<R>(w: World, body: Transaction<R>, clock: Clock, dropped: set<TabId>)
    requires StoreInv(w) && Tidy(w.sessions, body.sessions, dropped)
    requires SessionsOk(body.sessions, w.issued) && Gone(w, dropped)
    ensures StoreInv(Stored(w, body, clock)) && Evolves(w, Stored(w, body, clock))
    ensures Stored(w, body, clock).calls == w.calls
    ensures Stored(w, body, clock).open == w.open
  {
  }

  lemma OpenShrinks(w: World, open: set<TabId>)
    requires StoreInv(w) && open <= w.open
    ensures StoreInv(w.(open := open)) && Evolves(w, w.(open := open))
  {
  }

  /** The part of the claim about the acting call: it has ended, or where it stands next is in order. */
  ghost predicate Moved(r: World, w: World, id: nat) {
    && StoreInv(w) && Evolves(r, w)
    && (forall other | other in w.calls && other != id :: other in r.calls && w.calls[other] == r.calls[other])
    && (id in w.calls ==> CallInv(w, w.calls[id]))
  }

  lemma EndedOk(r: World, w: World, id: nat)
    requires StoreInv(w) && Evolves(r, w) && w.calls == r.calls
    ensures Moved(r, Ended(w, id), id)
  {
  }

  lemma GotoOk(r: World, w: World, id: nat, c: Call)
    requires StoreInv(w) && Evolves(r, w) && w.calls == r.calls && CallInv(w, c)
    ensures Moved(r, Goto(w, id, c), id)
  {
  }

  lemma SettledOk(r: World, w: World, id: nat, a: AttemptId, environment: Environment, after: After)
    requires StoreInv(w) && Evolves(r, w) && w.calls == r.calls
    requires AfterInv(w, a, environment, after)
    requires after.CheckThenDelete? && Late(w, a) == after.mark ==> Pending(w, a) == {}
    ensures Moved(r, Settled(w, id, after), id)
  {
  }

  lemma AttachStoredOk(r: World, a: AttemptId, handle: TabHandle, ch: Choice)
    requires StoreInv(r) && (handle.tabId.Some? ==> handle.tabId.value in r.issued)
    requires a in r.sessions && IsFenced(r.sessions[a]) && handle.closeOnCancel && handle.tabId.Some?
    ensures var tab := handle.tabId.value;
            var r1 := r.(late := r.late[a := Late(r, a) + 1], owed := r.owed + {Debt(a, tab)});
            var w := Stored(r1, AttachBody(r.sessions, a, handle, ch.clock.stampAt), ch.clock);
            StoreInv(w) && Evolves(r, w) && w.calls == r.calls
  {
  }

  lemma ActiveAttachTidy(r: World, a: AttemptId, handle: TabHandle, now: int)
    requires StoreInv(r) && (handle.tabId.Some? ==> handle.tabId.value in r.issued)
    requires a in r.sessions ==> !IsFenced(r.sessions[a]) || !handle.closeOnCancel || handle.tabId.None?
    ensures var body := AttachBody(r.sessions, a, handle, now);
            Tidy(r.sessions, body.sessions, {}) && SessionsOk(body.sessions, r.issued)
  {
  }

  lemma AttachOk(r: World, id: nat, a: AttemptId, handle: TabHandle, ch: Choice)
    requires StoreInv(r) && (handle.tabId.Some? ==> handle.tabId.value in r.issued)
    ensures Moved(r, AttachStep(r, id, a, handle, ch), id)
  {
    var body := AttachBody(r.sessions, a, handle, ch.clock.stampAt);
    var closable := if handle.closeOnCancel then handle.tabId else None;
    if a in r.sessions && IsFenced(r.sessions[a]) && closable.Some? {
      AttachStoredOk(r, a, handle, ch);
      var r1 := r.(late := r.late[a := Late(r, a) + 1], owed := r.owed + {Debt(a, closable.value)});
      GotoOk(r, Stored(r1, body, ch.clock), id, AttachClosing(a, closable.value));
    } else {
      ActiveAttachTidy(r, a, handle, ch.clock.stampAt);
      StoredOk(r, body, ch.clock, {});
      if body.reply.value.Refused? && closable.Some? {
        GotoOk(r, Stored(r, body, ch.clock), id, AttachClosing(a, closable.value));
      } else {
        EndedOk(r, Stored(r, body, ch.clock), id);
      }
    }
  }

  lemma ListOk(r: World, id: nat, a: AttemptId, environment: Environment, after: After)
    requires StoreInv(r) && AfterInv(r, a, environment, after)
    ensures Moved(r, ListStep(r, id, a, environment, after), id)
  {
    var body := ListPendingBody(r.sessions, a, environment);
    if body.reply.value.None? || body.reply.value.value == {} {
      SettledOk(r, r, id, a, environment, after);
    }
  }

  lemma DropOk(r: World, id: nat, c: Call, ch: Choice)
    requires StoreInv(r) && c.RetryClosing? && CallInv(r, c)
    ensures Moved(r, DropStep(r, id, c, ch), id)
  {
    var body := DropListedBody(r.sessions, c.attempt, c.environment, c.closed, ch.clock.stampAt);
    StoredOk(r, body, ch.clock, c.closed);
    var w := Stored(r, body, ch.clock);
    if c.closed == c.listed {
      AfterStable(r, w, c.attempt, c.environment, c.after);
      if c.after.CheckThenDelete? && Late(w, c.attempt) == c.after.mark {
        assert Pending(w, c.attempt) == {};
      }
      SettledOk(r, w, id, c.attempt, c.environment, c.after);
    }
  }

  /** A body stored after an in-queue close that shrank the open tabs to `open`. */
  lemma StoredAfterCloseOk<R>(r: World, open: set<TabId>, body: Transaction<R>, clock: Clock)
    requires StoreInv(r) && open <= r.open
    requires Tidy(r.sessions, body.sessions, {}) && SessionsOk(body.sessions, r.issued)
    ensures var w := Stored(r.(open := open), body, clock);
            StoreInv(w) && Evolves(r, w) && w.calls == r.calls
  {
  }

  lemma DecisionTidy(r: World, loop: Loop, ch: Choice)
    requires StoreInv(r)
    ensures var body := Decision(r, loop, ch).1;
            && Tidy(r.sessions, body.sessions, {}) && SessionsOk(body.sessions, r.issued)
            && (body.reply.Ok? && body.reply.value.StillPending? ==>
                  !body.writes && body.sessions == r.sessions && Pending(r, loop.attempt) != {} &&
                  body.reply.value.environment.Some?)
  {
  }

  lemma DecideOk(r: World, id: nat, loop: Loop, mark: nat, ch: Choice)
    requires StoreInv(r) && CallInv(r, Deciding(loop, mark))
    ensures Moved(r, DecideStep(r, id, loop, ch), id)
  {
    var (open, body) := Decision(r, loop, ch);
    DecisionTidy(r, loop, ch);
    StoredAfterCloseOk(r, open, body, ch.clock);
    var w := Stored(r.(open := open), body, ch.clock);
    if body.reply.Ok? && body.reply.value.StillPending? {
      assert mark < Late(r, loop.attempt);
      var next := loop.(continues := loop.continues + 1);
      assert LoopInv(w, next);
      GotoOk(r, w, id, RetryListing(loop.attempt, body.reply.value.environment.value, StartOver(next)));
    } else {
      EndedOk(r, w, id);
    }
  }

  lemma DetachTidy(r: World, a: AttemptId, tab: Option<TabId>, close: bool, closed: bool, now: int)
    requires StoreInv(r)
    ensures var body := DetachBody(r.sessions, a, tab, close, closed, now);
            Tidy(r.sessions, body.sessions, {}) && SessionsOk(body.sessions, r.issued)
  {
  }

  lemma DetachOk(r: World, id: nat, a: AttemptId, tab: Option<TabId>, close: bool, ch: Choice)
    requires StoreInv(r)
    ensures Moved(r, DetachStep(r, id, a, tab, close, ch), id)
  {
    var target := DetachCloses(r.sessions, a, tab, close);
    var (open, closed) := if target.Some? then CloseTab(r.open, target.value, ch.fate) else (r.open, true);
    var body := DetachBody(r.sessions, a, tab, close, closed, ch.clock.stampAt);
    DetachTidy(r, a, tab, close, closed, ch.clock.stampAt);
    StoredAfterCloseOk(r, open, body, ch.clock);
    EndedOk(r, Stored(r.(open := open), body, ch.clock), id);
  }

  lemma StartTidy(r: World, input: StartInput, now: int)
    requires StoreInv(r)
    ensures var body := StartBody(r.sessions, input, now);
            Tidy(r.sessions, body.sessions, {}) && SessionsOk(body.sessions, r.issued)
  {
  }

  lemma UpdateTidy(r: World, a: AttemptId, p: Progress, reason: string, message: string, now: int)
    requires StoreInv(r)
    ensures var body := ProgressBody(r.sessions, a, p, now);
            Tidy(r.sessions, body.sessions, {}) && SessionsOk(body.sessions, r.issued)
    ensures var body := AttentionBody(r.sessions, a, reason, message, now);
            Tidy(r.sessions, body.sessions, {}) && SessionsOk(body.sessions, r.issued)
  {
  }

  lemma FenceTidy(r: World, a: AttemptId, environment: Environment, now: int)
    requires StoreInv(r)
    ensures var body := FenceBody(r.sessions, a, environment, now);
            Tidy(r.sessions, body.sessions, {}) && SessionsOk(body.sessions, r.issued)
  {
  }

  lemma ClearTidy(r: World, a: AttemptId, tab: TabId, now: int)
    requires StoreInv(r)
    ensures var body := ClearManagedBody(r.sessions, a, tab, now);
            Tidy(r.sessions, body.sessions, {}) && SessionsOk(body.sessions, r.issued)
    ensures var body := DropAttachedBody(r.sessions, a, tab, now);
            Tidy(r.sessions, body.sessions, {tab}) && SessionsOk(body.sessions, r.issued)
  {
  }

  lemma FencingOk(r: World, id: nat, a: AttemptId, environment: Environment, ch: Choice)
    requires StoreInv(r)
    ensures Moved(r, FenceStep(r, id, a, environment, ch), id)
  {
    var body := FenceBody(r.sessions, a, environment, ch.clock.stampAt);
    FenceTidy(r, a, environment, ch.clock.stampAt);
    StoredOk(r, body, ch.clock, {});
    var w := Stored(r, body, ch.clock);
    match body.reply.value
    case NothingFenced => EndedOk(r, w, id);
    case Fenced(managedTab, closeManagedTab) =>
      if closeManagedTab && managedTab.Some? {
        GotoOk(r, w, id, FenceClosing(a, environment, managedTab.value));
      } else {
        GotoOk(r, w, id, RetryListing(a, environment, Return));
      }
  }

  /** The calls that end with one transaction. */
  lemma SingleOk(r: World, id: nat, c: Call, ch: Choice)
    requires StoreInv(r) && CallInv(r, c)
    requires c.Starting? || c.Reporting? || c.Asking? || c.AttachDropping? || c.FenceClearing?
    ensures Moved(r, TransactionStep(r, id, c, ch), id)
  {
    var now, clock := ch.clock.stampAt, ch.clock;
    match c
    case Starting(input) =>
      StartTidy(r, input, now);
      StoredOk(r, StartBody(r.sessions, input, now), clock, {});
      EndedOk(r, Stored(r, StartBody(r.sessions, input, now), clock), id);
    case Reporting(a, p) =>
      UpdateTidy(r, a, p, [], [], now);
      StoredOk(r, ProgressBody(r.sessions, a, p, now), clock, {});
      EndedOk(r, Stored(r, ProgressBody(r.sessions, a, p, now), clock), id);
    case Asking(a, reason, message) =>
      UpdateTidy(r, a, EmptyProgress(), reason, message, now);
      StoredOk(r, AttentionBody(r.sessions, a, reason, message, now), clock, {});
      EndedOk(r, Stored(r, AttentionBody(r.sessions, a, reason, message, now), clock), id);
    case AttachDropping(a, tab) =>
      ClearTidy(r, a, tab, now);
      StoredOk(r, DropAttachedBody(r.sessions, a, tab, now), clock, {tab});
      EndedOk(r, Stored(r, DropAttachedBody(r.sessions, a, tab, now), clock), id);
    case FenceClearing(a, environment, tab) =>
      ClearTidy(r, a, tab, now);
      StoredOk(r, ClearManagedBody(r.sessions, a, tab, now), clock, {});
      GotoOk(r, Stored(r, ClearManagedBody(r.sessions, a, tab, now), clock), id, RetryListing(a, environment, Return));
  }

  lemma PreflightOk(r: World, id: nat, loop: Loop)
    requires StoreInv(r) && CallInv(r, Preflight(loop))
    ensures Moved(r, PreflightStep(r, id, loop), id)
  {
  }

  lemma TransactionOk(r: World, id: nat, c: Call, ch: Choice)
    requires StoreInv(r) && CallInv(r, c) && !Closing(c)
    ensures Moved(r, TransactionStep(r, id, c, ch), id)
  {
    match c
    case Starting(_) => SingleOk(r, id, c, ch);
    case Reporting(_, _) => SingleOk(r, id, c, ch);
    case Asking(_, _, _) => SingleOk(r, id, c, ch);
    case Attaching(a, handle) => AttachOk(r, id, a, handle, ch);
    case AttachDropping(_, _) => SingleOk(r, id, c, ch);
    case Detaching(a, tab, close) => DetachOk(r, id, a, tab, close, ch);
    case Fencing(a, environment) => FencingOk(r, id, a, environment, ch);
    case FenceClearing(_, _, _) => SingleOk(r, id, c, ch);
    case RetryListing(a, environment, after) => ListOk(r, id, a, environment, after);
    case RetryClosing(_, _, _, _, _, _) => DropOk(r, id, c, ch);
    case Preflight(loop) => PreflightOk(r, id, loop);
    case Deciding(loop, mark) => DecideOk(r, id, loop, mark, ch);
  }

  lemma RetryCloseOk(w: World, id: nat, c: Call, ch: Choice)
    requires StoreInv(w) && CallInv(w, c) && Closing(c) && c.RetryClosing? && id in w.calls && w.calls[id] == c
    ensures Moved(w, CloseStep(w, id, c, ch), id)
  {
  }

  lemma CloseOk(w: World, id: nat, c: Call, ch: Choice)
    requires StoreInv(w) && CallInv(w, c) && Closing(c) && id in w.calls && w.calls[id] == c
    ensures Moved(w, CloseStep(w, id, c, ch), id)
  {
    match c
    case AttachClosing(_, tab) => OpenShrinks(w, CloseTab(w.open, tab, ch.fate).0);
    case FenceClosing(_, _, tab) => OpenShrinks(w, CloseTab(w.open, tab, ch.fate).0);
    case RetryClosing(_, _, _, _, _, _) => RetryCloseOk(w, id, c, ch);
  }

  lemma FailedWriteOk(r: World, id: nat, c: Call, ch: Choice)
    requires StoreInv(r)
    ensures Moved(r, FailedWrite(r, id, c, ch), id)
  {
    var target := ClosesInQueue(r, c, ch);
    if target.None? {
      EndedOk(r, r, id);
    } else {
      var open := CloseTab(r.open, target.value, ch.fate).0;
      OpenShrinks(r, open);
      EndedOk(r, r.(open := open), id);
    }
  }

  lemma AdvanceOk(w: World, id: nat, ch: Choice)
    requires Inv(w)
    ensures Moved(w, AdvanceStep(w, id, ch), id)
  {
    if id in w.calls {
      var c := w.calls[id];
      if Closing(c) {
        CloseOk(w, id, c, ch);
      } else if !ch.fault.ReadFails? {
        var r := Expire(w, ch.clock.readAt);
        ExpireOk(w, ch.clock.readAt);
        if ch.fault.WriteFails? {
          FailedWriteOk(r, id, c, ch);
          EvolvesTransitive(w, r, FailedWrite(r, id, c, ch));
        } else {
          CallStable(w, r, c);
          TransactionOk(r, id, c, ch);
          EvolvesTransitive(w, r, TransactionStep(r, id, c, ch));
        }
      }
    }
  }

  lemma MovedInv(w: World, w': World, id: nat)
    requires Inv(w) && Moved(w, w', id)
    ensures Inv(w')
  {
    forall other | other in w'.calls ensures CallInv(w', w'.calls[other]) {
      if other != id { CallStable(w, w', w.calls[other]); }
    }
  }

  lemma BeginOk(w: World, id: nat, c: Call)
    requires Inv(w)
    ensures Inv(Step(w, Begin(id, c))) && Evolves(w, Step(w, Begin(id, c)))
  {
    if id !in w.calls && Callable(w, c) {
      GotoOk(w, w, id, c);
      MovedInv(w, Goto(w, id, c), id);
    }
  }

  lemma EnvironmentOk(w: World, e: Event)
    requires Inv(w) && (e.TabOpens? || e.TabCloses? || e.WorkerRestarts?)
    ensures Inv(Step(w, e)) && Evolves(w, Step(w, e))
  {
    var w' := Step(w, e);
    forall id | id in w'.calls ensures CallInv(w', w'.calls[id]) { CallStable(w, w', w.calls[id]); }
  }

  lemma StepOk(w: World, e: Event)
    requires Inv(w)
    ensures Inv(Step(w, e)) && Evolves(w, Step(w, e))
  {
    match e
    case Advance(id, ch) =>
      AdvanceOk(w, id, ch);
      MovedInv(w, Step(w, e), id);
    case Begin(id, c) => BeginOk(w, id, c);
    case _ => EnvironmentOk(w, e);
  }
}
