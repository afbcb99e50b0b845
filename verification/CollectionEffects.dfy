/** What each call stores and answers, part by part of a record, and what becomes of a tab handed to an active session. */
module CollectionEffects {
  import opened Common
  import opened CollectionStore
  import opened CollectionProtocol
  import opened CollectionInvariant
  import opened CollectionTheorems

  // ---- The parts of a record -------------------------------------------------------------------------------------

  predicate KeepsOwner(s: Session, s': Session) { s'.producer == s.producer && s'.environment == s.environment }

  predicate KeepsReport(s: Session, s': Session) { s'.progress == s.progress && s'.attention == s.attention }

  predicate KeepsStop(s: Session, s': Session) { s'.cancelledAt == s.cancelledAt && s'.pending == s.pending }

  predicate KeepsTab(s: Session, s': Session) {
    && s'.managedTab == s.managedTab && s'.managedWindow == s.managedWindow && s'.closeOnCancel == s.closeOnCancel
  }

  predicate HoldsTab(s: Session, handle: TabHandle) {
    && s.managedTab == handle.tabId && s.managedWindow == handle.windowId && s.closeOnCancel == handle.closeOnCancel
  }

  const NoTab: TabHandle := TabHandle(None, None, true)

  /** The record's date is the clock's, or just after what it was. */
  predicate Dated(s: Session, s': Session, now: int) {
    s'.updatedAt >= now && s'.updatedAt > s.updatedAt && (s'.updatedAt == now || s'.updatedAt == s.updatedAt + 1)
  }

  /** Reading and writing keep exactly the records touched in the last seven days, as they are. */
  lemma PruneIs(sessions: Sessions, now: int, a: AttemptId)
    ensures a in Prune(sessions, now) <==> a in sessions && now - sessions[a].updatedAt <= 604_800_000
    ensures a in Prune(sessions, now) ==> Prune(sessions, now)[a] == sessions[a]
  {
  }

  // ---- What a transaction stores ---------------------------------------------------------------------------------

  predicate Unchanged<R>(read: Sessions, body: Transaction<R>) { !body.writes && body.sessions == read }

  predicate OthersAsRead(read: Sessions, stored: Sessions, a: AttemptId) {
    && (forall b | b in read && b != a :: b in stored && stored[b] == read[b])
    && (forall b | b in stored && b != a :: b in read)
  }

  predicate Writes<R>(read: Sessions, body: Transaction<R>, a: AttemptId) {
    body.writes && a in body.sessions && OthersAsRead(read, body.sessions, a)
  }

  predicate Deletes<R>(read: Sessions, body: Transaction<R>, a: AttemptId) {
    body.writes && a !in body.sessions && OthersAsRead(read, body.sessions, a)
  }

  function Owner(input: StartInput): Option<Environment> {
    if input.environment.Known? then Some(input.environment.environment) else None
  }

  /** Why a start is refused, by the first check that fails. */
  function StartRefusal(read: Sessions, input: StartInput): Option<Refusal> {
    if input.attempt.None? then Some(AttemptIdRequired)
    else if input.producer == "" then Some(ProducerRequired)
    else if input.environment.Unknown? then Some(EnvironmentRequired)
    else if input.attempt.value !in read then None
    else
      var s := read[input.attempt.value];
      if s.producer != input.producer || s.environment != Owner(input) then Some(AttemptTaken)
      else if s.cancelledAt.Some? then Some(AlreadyCancelled)
      else None
  }

  /** The attempt is active for its owner alone. */
  ghost predicate ActiveJust(sessions: Sessions, a: AttemptId, input: StartInput) {
    forall environment, producer ::
      IsActive(sessions, a, environment, producer) <==> Owner(input) == Some(environment) && producer == input.producer
  }

  /**
   * A start that is not refused resumes the record it finds, of the same owner, changing only its date, or creates one
   * that reports nothing, is not stopped and has no tab.
   */
  lemma StartDoes(read: Sessions, input: StartInput, now: int)
    ensures var body, refusal := StartBody(read, input, now), StartRefusal(read, input);
            && (refusal.Some? ==> Unchanged(read, body) && body.reply == Rejected(refusal.value))
            && (refusal.None? ==>
                  var a := input.attempt.value;
                  && Writes(read, body, a) && body.reply == Ok(View(a, input.producer, Owner(input)))
                  && ActiveJust(body.sessions, a, input)
                  && var s' := body.sessions[a];
                     && s'.producer == input.producer && s'.environment == Owner(input) && s'.cancelledAt.None?
                     && s'.updatedAt >= now
                     && (a in read ==>
                           && KeepsReport(read[a], s') && KeepsStop(read[a], s') && KeepsTab(read[a], s')
                           && s'.updatedAt in {now, read[a].updatedAt} && s'.updatedAt >= read[a].updatedAt)
                     && (a !in read ==>
                           && s'.progress == Progress(0, 0, 0, 0, None) && s'.attention.None? && HoldsTab(s', NoTab)
                           && s'.pending == {} && s'.updatedAt == now))
  {
  }

  /** An active record takes the tab over; a fenced one only records a closable tab as one to close. */
  lemma AttachDoes(read: Sessions, a: AttemptId, handle: TabHandle, now: int)
    ensures var body, closable := AttachBody(read, a, handle, now), handle.closeOnCancel && handle.tabId.Some?;
            if a in read && read[a].cancelledAt.None? then
              && Writes(read, body, a) && body.reply == Ok(Attached(View(a, read[a].producer, read[a].environment)))
              && var s, s' := read[a], body.sessions[a];
                 KeepsOwner(s, s') && KeepsReport(s, s') && KeepsStop(s, s') && HoldsTab(s', handle) && Dated(s, s', now)
            else
              && body.reply == Ok(Refused(if closable then handle.tabId else None))
              && (a in read && closable ==>
                    && Writes(read, body, a)
                    && var s, s' := read[a], body.sessions[a];
                       && KeepsOwner(s, s') && KeepsReport(s, s') && KeepsTab(s, s') && Dated(s, s', now)
                       && s'.cancelledAt == s.cancelledAt && s'.pending == s.pending + {handle.tabId.value})
              && (!(a in read && closable) ==> Unchanged(read, body))
  {
  }

  /** The stop fence is set once, by its own environment, and names the record's tab each time it is asked for. */
  lemma FenceDoes(read: Sessions, a: AttemptId, environment: Environment, now: int)
    ensures var body := FenceBody(read, a, environment, now);
            if a !in read || read[a].environment != Some(environment) then
              Unchanged(read, body) && body.reply == Ok(NothingFenced)
            else
              && body.reply == Ok(Fenced(read[a].managedTab, read[a].closeOnCancel))
              && (read[a].cancelledAt.Some? ==> Unchanged(read, body))
              && (read[a].cancelledAt.None? ==>
                    && Writes(read, body, a)
                    && var s, s' := read[a], body.sessions[a];
                       && KeepsOwner(s, s') && KeepsReport(s, s') && KeepsTab(s, s') && Dated(s, s', now)
                       && s'.cancelledAt == Some(s'.updatedAt) && s'.pending == s.pending)
  {
  }

  /** The managed tab is forgotten, if it is still the one that was closed. */
  lemma ClearDoes(read: Sessions, a: AttemptId, tab: TabId, now: int)
    ensures var body := ClearManagedBody(read, a, tab, now);
            && (a in read && read[a].managedTab == Some(tab) ==>
                  && Writes(read, body, a)
                  && var s, s' := read[a], body.sessions[a];
                     KeepsOwner(s, s') && KeepsReport(s, s') && KeepsStop(s, s') && HoldsTab(s', NoTab)
                     && Dated(s, s', now))
            && (!(a in read && read[a].managedTab == Some(tab)) ==> Unchanged(read, body))
  {
  }

  /** The tabs that owe a close, of a stopped record of this environment; and none of those closed owes one afterwards. */
  lemma RetryDoes(read: Sessions, a: AttemptId, environment: Environment, closed: set<TabId>, now: int)
    ensures var body := ListPendingBody(read, a, environment);
            && Unchanged(read, body) && body.reply.Ok?
            && (body.reply.value.Some? <==>
                  a in read && read[a].environment == Some(environment) && read[a].cancelledAt.Some?)
            && (body.reply.value.Some? ==> body.reply.value.value == read[a].pending)
    ensures var body := DropListedBody(read, a, environment, closed, now);
            && (a in read && read[a].environment == Some(environment) ==>
                  Writes(read, body, a) && OwesLess(read[a], body.sessions[a], closed, now))
            && (!(a in read && read[a].environment == Some(environment)) ==> Unchanged(read, body))
  {
  }

  predicate OwesLess(s: Session, s': Session, closed: set<TabId>, now: int) {
    && KeepsOwner(s, s') && KeepsReport(s, s') && KeepsTab(s, s') && Dated(s, s', now)
    && s'.cancelledAt == s.cancelledAt && s'.pending == s.pending - closed
  }

  lemma DropAttachedDoes(read: Sessions, a: AttemptId, tab: TabId, now: int)
    ensures var body := DropAttachedBody(read, a, tab, now);
            && (a in read ==> Writes(read, body, a) && OwesLess(read[a], body.sessions[a], {tab}, now))
            && (a !in read ==> Unchanged(read, body))
  {
  }

  /**
   * A detached tab that the record names is closed first if that is asked for and allowed; if it cannot be closed
   * nothing changes, and otherwise the record names no tab any more. Any other tab is left alone.
   */
  lemma DetachDoes(read: Sessions, a: AttemptId, tab: Option<TabId>, close: bool, closed: bool, now: int)
    ensures var body, target := DetachBody(read, a, tab, close, closed, now), DetachCloses(read, a, tab, close);
            var named := tab.Some? && a in read && read[a].managedTab == tab;
            && target == (if named && close && read[a].closeOnCancel then tab else None)
            && (tab.None? ==> body.reply == Rejected(TabIdRequired))
            && (target.Some? && !closed ==> body.reply == Rejected(TabNotRemoved))
            && (named && (target.Some? ==> closed) ==>
                  && Writes(read, body, a) && body.reply == Ok(Some(View(a, read[a].producer, read[a].environment)))
                  && var s, s' := read[a], body.sessions[a];
                     KeepsOwner(s, s') && KeepsReport(s, s') && KeepsStop(s, s') && HoldsTab(s', NoTab)
                     && Dated(s, s', now))
            && (!(named && (target.Some? ==> closed)) ==> Unchanged(read, body))
            && (tab.Some? && !named ==>
                  body.reply == Ok(if a in read then Some(View(a, read[a].producer, read[a].environment)) else None))
  {
  }

  /** What keeps `cancel` from deleting the record it finds, and what it closes before. */
  lemma CancelDoes(read: Sessions, a: AttemptId, closeManagedTab: bool, ownerAccepts: bool, closed: bool)
    ensures var body := CancelBody(read, a, closeManagedTab, ownerAccepts, closed);
            var target := CancelCloses(read, a, closeManagedTab, ownerAccepts);
            && (target.Some? <==> a in read && read[a].pending == {} && ownerAccepts && closeManagedTab &&
                                  read[a].closeOnCancel && read[a].managedTab.Some?)
            && (target.Some? ==> target == read[a].managedTab)
            && (a !in read ==> body.reply == Ok(Absent))
            && (a in read && read[a].pending != {} ==> body.reply == Ok(StillPending(read[a].environment)))
            && (a in read && read[a].pending == {} && !ownerAccepts ==> body.reply == Rejected(OwnerRefused))
            && (target.Some? && !closed ==> body.reply == Rejected(TabNotRemoved))
            && (body.reply == Ok(Deleted) <==>
                  a in read && read[a].pending == {} && ownerAccepts && (target.Some? ==> closed))
            && (body.reply == Ok(Deleted) ==> Deletes(read, body, a))
            && (body.reply != Ok(Deleted) ==> Unchanged(read, body))
  {
  }

  lemma RemoveDoes(read: Sessions, a: AttemptId)
    ensures var body := RemoveBody(read, a);
            && (a !in read ==> body.reply == Ok(Absent) && Unchanged(read, body))
            && (a in read && read[a].pending != {} ==>
                  body.reply == Ok(StillPending(read[a].environment)) && Unchanged(read, body))
            && (a in read && read[a].pending == {} ==> body.reply == Ok(Deleted) && Deletes(read, body, a))
    ensures var body := PendingEnvironmentBody(read, a);
            && Unchanged(read, body)
            && body.reply == Ok(if a in read && read[a].pending != {} then Some(read[a].environment) else None)
  {
  }

  /** Counters are taken exactly if they are sound, and then end the attention that was asked for. */
  lemma ReportDoes(read: Sessions, a: AttemptId, p: Progress, now: int)
    ensures var body, sound := ProgressBody(read, a, p, now), Sound(p);
            && (!sound ==> body.reply == Rejected(InvalidProgress) && Unchanged(read, body))
            && (sound && a !in read ==> body.reply == Ok(None) && Unchanged(read, body))
            && (sound && a in read ==>
                  && Writes(read, body, a) && body.reply == Ok(Some(View(a, read[a].producer, read[a].environment)))
                  && var s, s' := read[a], body.sessions[a];
                     && KeepsOwner(s, s') && KeepsStop(s, s') && KeepsTab(s, s') && Dated(s, s', now)
                     && s'.progress == p && s'.attention.None?)
  {
  }

  /** No counter is negative, over a million, or over the total, and the caption is at most 300 characters. */
  predicate Sound(p: Progress) {
    && 0 <= p.current <= p.total && 0 <= p.completed && 0 <= p.failed
    && p.completed + p.failed <= p.total <= 1_000_000
    && (p.caption.Some? ==> |p.caption.value| <= 300)
  }

  lemma AskDoes(read: Sessions, a: AttemptId, reason: string, message: string, now: int)
    ensures var body := AttentionBody(read, a, reason, message, now);
            && (a !in read ==> body.reply == Ok(None) && Unchanged(read, body))
            && (a in read ==>
                  && Writes(read, body, a) && body.reply == Ok(Some(View(a, read[a].producer, read[a].environment)))
                  && var s, s' := read[a], body.sessions[a];
                     && KeepsOwner(s, s') && KeepsStop(s, s') && KeepsTab(s, s') && Dated(s, s', now)
                     && s'.progress == s.progress && s'.attention.Some?
                     && s'.attention.value.reason == reason && s'.attention.value.message == message
                     && (s'.attention.value.canOpenTab <==> s.managedTab.Some? && s.managedWindow.Some?))
  {
  }

  /** Removing a tab ends well exactly if Chrome removed it or a query says that it is gone. */
  lemma CloseTells(open: set<TabId>, tab: TabId, fate: CloseFate)
    ensures var (left, gone) := CloseTab(open, tab, fate);
            && (gone <==> fate.RemoveWorks? || (fate.queryWorks && tab !in open))
            && (forall t :: t in left <==> t in open && (t == tab ==> fate.RemoveFails?))
  {
  }

  // ---- A tab that is handed over ---------------------------------------------------------------------------------

  /** Retention of a record that a step neither deletes nor changes. */
  predicate Retained(s: Session, clock: Clock, written: bool) {
    s.updatedAt >= clock.readAt - RETENTION_MS && (written ==> s.updatedAt >= clock.writeAt - RETENTION_MS)
  }

  /** Every record but that of `a` is as it was, or went by retention. */
  ghost predicate OthersRetained(w: World, w': World, a: AttemptId, clock: Clock, written: bool) {
    forall b | b != a ::
      && (b in w'.sessions <==> b in w.sessions && Retained(w.sessions[b], clock, written))
      && (b in w'.sessions ==> w'.sessions[b] == w.sessions[b])
  }

  /** Who owns the tab: the record's owner as long as it is not stopped, and only of the tab it names. */
  ghost predicate OwnsJust(sessions: Sessions, a: AttemptId, tab: Option<TabId>)
    requires a in sessions
  {
    forall environment, producer, t ::
      OwnsTab(sessions, a, environment, producer, t) <==>
        sessions[a].environment == Some(environment) && sessions[a].producer == producer && tab == Some(t)
  }

  ghost predicate TakesOver(w: World, w': World, a: AttemptId, handle: TabHandle, now: int)
    requires a in w.sessions
  {
    && a in w'.sessions
    && var s, s' := w.sessions[a], w'.sessions[a];
       && HoldsTab(s', handle) && Dated(s, s', now)
       && KeepsOwner(s, s') && KeepsReport(s, s') && KeepsStop(s, s')
       && OwnsJust(w'.sessions, a, handle.tabId)
  }

  /** A call whose tab was refused goes on to close it, if it may be closed. */
  function AfterRefusal(calls: map<nat, Call>, id: nat, a: AttemptId, handle: TabHandle): map<nat, Call> {
    if handle.closeOnCancel && handle.tabId.Some? then calls[id := AttachClosing(a, handle.tabId.value)] else calls - {id}
  }

  /**
   * A tab handed to an active session is taken over, with its window and its close flag, exactly if storage can be read
   * and written and retention leaves the record; nothing else of the record changes, no tab is closed and nothing is
   * owed. Otherwise the record is as it was, or gone by retention.
   */
  lemma ActiveSessionTakesTab(w: World, id: nat, ch: Choice)
    requires id in w.calls && w.calls[id].Attaching?
    requires w.calls[id].attempt in w.sessions && !IsFenced(w.sessions[w.calls[id].attempt])
    ensures var c, w' := w.calls[id], Step(w, Advance(id, ch));
            var a, clock := c.attempt, ch.clock;
            && (TakesOver(w, w', a, c.handle, clock.stampAt) <==>
                  ch.fault.NoFault? && !RetentionTakes(w.sessions[a], clock))
            && (!(ch.fault.NoFault? && !RetentionTakes(w.sessions[a], clock)) ==>
                  a in w'.sessions ==> w'.sessions[a] == w.sessions[a])
            && (ch.fault.NoFault? ==> OthersRetained(w, w', a, clock, Retained(w.sessions[a], clock, false)))
            && w'.open == w.open && w'.issued == w.issued && w'.late == w.late && w'.owed <= w.owed
            && (a in w'.sessions ==> forall d | d in w.owed && d.attempt == a :: d in w'.owed)
            && w'.calls == (if ch.fault.NoFault? && !Retained(w.sessions[a], clock, false)
                            then AfterRefusal(w.calls, id, a, c.handle) else w.calls - {id})
  {
    var c := w.calls[id];
    var r := Expire(w, ch.clock.readAt);
    if ch.fault.NoFault? { AttachTakes(w, r, id, c.attempt, c.handle, ch); }
  }

  lemma AttachTakes(w: World, r: World, id: nat, a: AttemptId, handle: TabHandle, ch: Choice)
    requires r == Expire(w, ch.clock.readAt) && a in w.sessions && !IsFenced(w.sessions[a])
    ensures var w', clock := AttachStep(r, id, a, handle, ch), ch.clock;
            && (!RetentionTakes(w.sessions[a], clock) ==> TakesOver(w, w', a, handle, clock.stampAt))
            && (RetentionTakes(w.sessions[a], clock) ==> a !in w'.sessions)
            && OthersRetained(w, w', a, clock, Retained(w.sessions[a], clock, false))
            && w'.open == w.open && w'.issued == w.issued && w'.late == w.late && w'.owed <= w.owed
            && (a in w'.sessions ==> forall d | d in w.owed && d.attempt == a :: d in w'.owed)
            && w'.calls == (if Retained(w.sessions[a], clock, false) then w.calls - {id}
                            else AfterRefusal(w.calls, id, a, handle))
  {
    AttachDoes(r.sessions, a, handle, ch.clock.stampAt);
  }

  // ---- As long as nothing takes the tab away ---------------------------------------------------------------------

  /** The calls that give the record of `a`, as it is, another tab or none: a handover, and a close or detach of its tab. */
  predicate Retargets(w: World, c: Call, a: AttemptId)
    requires a in w.sessions
  {
    match c
    case Attaching(b, _) => b == a
    case Detaching(b, tab, _) => b == a && w.sessions[a].managedTab == tab
    case FenceClearing(b, _, tab) => b == a && w.sessions[a].managedTab == Some(tab)
    case _ => false
  }

  /** Along this run the record of `a` is never deleted, too old, or given another tab or none. */
  ghost predicate StaysHanded(w: World, events: seq<Event>, a: AttemptId)
    decreases |events|
  {
    a in w.sessions &&
    (events != [] ==>
       && (events[0].Advance? ==>
             && !Stale(w.sessions[a], events[0].choice.clock)
             && (events[0].id in w.calls ==> !Retargets(w, w.calls[events[0].id], a)))
       && StaysHanded(Step(w, events[0]), events[1..], a))
  }

  ghost predicate TabKept(w: World, w': World, a: AttemptId)
    requires a in w.sessions
  {
    a in w'.sessions ==> KeepsTab(w.sessions[a], w'.sessions[a])
  }

  lemma StoredKeepsTab<R>(w: World, open: set<TabId>, body: Transaction<R>, clock: Clock, a: AttemptId)
    requires a in w.sessions
    requires a in body.sessions ==> KeepsTab(w.sessions[a], body.sessions[a])
    ensures TabKept(w, Stored(w.(open := open), body, clock), a)
  {
  }

  lemma AttachKeepsTab(r: World, id: nat, b: AttemptId, handle: TabHandle, ch: Choice, a: AttemptId)
    requires a in r.sessions && b != a
    ensures TabKept(r, AttachStep(r, id, b, handle, ch), a)
  {
    AttachDoes(r.sessions, b, handle, ch.clock.stampAt);
  }

  lemma DetachKeepsTab(r: World, id: nat, c: Call, ch: Choice, a: AttemptId)
    requires a in r.sessions && c.Detaching? && !Retargets(r, c, a)
    ensures TabKept(r, DetachStep(r, id, c.attempt, c.detached, c.close, ch), a)
  {
    var target := DetachCloses(r.sessions, c.attempt, c.detached, c.close);
    var (open, closed) := if target.Some? then CloseTab(r.open, target.value, ch.fate) else (r.open, true);
    var body := DetachBody(r.sessions, c.attempt, c.detached, c.close, closed, ch.clock.stampAt);
    DetachDoes(r.sessions, c.attempt, c.detached, c.close, closed, ch.clock.stampAt);
    StoredKeepsTab(r, open, body, ch.clock, a);
  }

  lemma DecideKeepsTab(r: World, id: nat, loop: Loop, ch: Choice, a: AttemptId)
    requires a in r.sessions
    ensures TabKept(r, DecideStep(r, id, loop, ch), a)
  {
    var (open, body) := Decision(r, loop, ch);
    RemoveDoes(r.sessions, loop.attempt);
    StoredKeepsTab(r, open, body, ch.clock, a);
  }

  lemma SingleKeepsTab(r: World, id: nat, c: Call, ch: Choice, a: AttemptId)
    requires a in r.sessions && !Retargets(r, c, a)
    requires c.Starting? || c.Reporting? || c.Asking? || c.AttachDropping? || c.FenceClearing? || c.Fencing?
    ensures TabKept(r, TransactionStep(r, id, c, ch), a)
  {
    var now := ch.clock.stampAt;
    match c
    case Starting(input) => StoredKeepsTab(r, r.open, StartBody(r.sessions, input, now), ch.clock, a);
    case Reporting(b, p) => StoredKeepsTab(r, r.open, ProgressBody(r.sessions, b, p, now), ch.clock, a);
    case Asking(b, reason, message) =>
      StoredKeepsTab(r, r.open, AttentionBody(r.sessions, b, reason, message, now), ch.clock, a);
    case AttachDropping(b, tab) => StoredKeepsTab(r, r.open, DropAttachedBody(r.sessions, b, tab, now), ch.clock, a);
    case FenceClearing(b, _, tab) => StoredKeepsTab(r, r.open, ClearManagedBody(r.sessions, b, tab, now), ch.clock, a);
    case Fencing(b, environment) =>
      StoredKeepsTab(r, r.open, FenceBody(r.sessions, b, environment, now), ch.clock, a);
  }

  lemma DropKeepsTab(r: World, id: nat, c: Call, ch: Choice, a: AttemptId)
    requires a in r.sessions && c.RetryClosing?
    ensures TabKept(r, DropStep(r, id, c, ch), a)
  {
    var body := DropListedBody(r.sessions, c.attempt, c.environment, c.closed, ch.clock.stampAt);
    StoredKeepsTab(r, r.open, body, ch.clock, a);
    if c.closed == c.listed {
      match c.after
      case Return =>
      case CheckThenDelete(_, _) =>
      case StartOver(_) =>
    }
  }

  lemma TransactionKeepsTab(r: World, id: nat, c: Call, ch: Choice, a: AttemptId)
    requires a in r.sessions && !Closing(c) && !Retargets(r, c, a)
    ensures TabKept(r, TransactionStep(r, id, c, ch), a)
  {
    match c
    case Attaching(b, handle) => AttachKeepsTab(r, id, b, handle, ch, a);
    case Detaching(_, _, _) => DetachKeepsTab(r, id, c, ch, a);
    case RetryListing(_, _, _) =>
    case RetryClosing(_, _, _, _, _, _) => DropKeepsTab(r, id, c, ch, a);
    case Preflight(_) =>
    case Deciding(loop, _) => DecideKeepsTab(r, id, loop, ch, a);
    case _ => SingleKeepsTab(r, id, c, ch, a);
  }

  lemma StepKeepsTab(w: World, e: Event, a: AttemptId)
    requires a in w.sessions && (e.Advance? ==> !Stale(w.sessions[a], e.choice.clock))
    requires e.Advance? && e.id in w.calls ==> !Retargets(w, w.calls[e.id], a)
    ensures TabKept(w, Step(w, e), a)
  {
    if e.Advance? && e.id in w.calls && !Closing(w.calls[e.id]) && !e.choice.fault.ReadFails? {
      var c, r := w.calls[e.id], Expire(w, e.choice.clock.readAt);
      assert a in r.sessions && r.sessions[a] == w.sessions[a];
      if e.choice.fault.NoFault? { TransactionKeepsTab(r, e.id, c, e.choice, a); }
    }
  }

  /** Nothing but a handover, a detach of the tab or its close gives a stored record another tab. */
  lemma {:induction false} HandedTabStays(w: World, events: seq<Event>, a: AttemptId)
    requires StaysHanded(w, events, a)
    ensures var w' := Run(w, events);
            a in w'.sessions && KeepsTab(w.sessions[a], w'.sessions[a]) && Continues(w.sessions[a], w'.sessions[a])
    decreases |events|
  {
    if events != [] {
      var w1 := Step(w, events[0]);
      StepKeepsTab(w, events[0], a);
      StepContinues(w, events[0], a);
      HandedTabStays(w1, events[1..], a);
    }
  }

  // ---- The stop and the cancel of a session that was handed a tab ------------------------------------------------

  /** A stop of an attempt that is still stored goes on to close the tab the record names, if it may be closed. */
  lemma FenceNamesTab(w: World, id: nat, ch: Choice)
    requires id in w.calls && w.calls[id].Fencing? && ch.fault.NoFault?
    ensures var c, w', now := w.calls[id], Step(w, Advance(id, ch)), ch.clock.stampAt;
            var a := c.attempt;
            if a in w.sessions && Retained(w.sessions[a], ch.clock, false) &&
               w.sessions[a].environment == Some(c.environment)
            then
              var s := w.sessions[a];
              && w'.calls == w.calls[id := if s.closeOnCancel && s.managedTab.Some?
                                           then FenceClosing(a, c.environment, s.managedTab.value)
                                           else RetryListing(a, c.environment, Return)]
              && (!Stale(s, ch.clock) ==>
                    && a in w'.sessions && IsFenced(w'.sessions[a]) && KeepsTab(s, w'.sessions[a])
                    && (IsFenced(s) ==> w'.sessions[a] == s)
                    && (!IsFenced(s) ==> Dated(s, w'.sessions[a], now) &&
                                         w'.sessions[a].cancelledAt == Some(w'.sessions[a].updatedAt)))
            else
              w'.calls == w.calls - {id} && w'.sessions == Prune(w.sessions, ch.clock.readAt)
  {
    var c, r := w.calls[id], Expire(w, ch.clock.readAt);
    FenceDoes(r.sessions, c.attempt, c.environment, ch.clock.stampAt);
    assert Step(w, Advance(id, ch)) == FenceStep(r, id, c.attempt, c.environment, ch);
  }

  /** A stop that nothing disturbs closes that tab, and the record names none any more. */
  lemma UndisturbedFenceCloses(w: World, id: nat)
    requires id in w.calls && w.calls[id].FenceClosing? && w.calls[id].attempt in w.sessions
    requires w.sessions[w.calls[id].attempt].managedTab == Some(w.calls[id].tab)
    ensures var c := w.calls[id];
            var a, e := c.attempt, Advance(id, Quiet(w.sessions[c.attempt], 0));
            var w' := Run(w, [e, e]);
            && w'.open == w.open - {c.tab} && w'.calls == w.calls[id := RetryListing(a, c.environment, Return)]
            && a in w'.sessions && HoldsTab(w'.sessions[a], NoTab) && KeepsStop(w.sessions[a], w'.sessions[a])
  {
    var c := w.calls[id];
    var ch := Quiet(w.sessions[c.attempt], 0);
    var w1 := Step(w, Advance(id, ch));
    CloseGoesOn(w, id, ch);
    ClearingForgets(w1, id, ch);
    RunTwice(w, Advance(id, ch));
    assert w.calls[id := w1.calls[id]][id := RetryListing(c.attempt, c.environment, Return)]
           == w.calls[id := RetryListing(c.attempt, c.environment, Return)];
  }

  lemma ClearingForgets(w: World, id: nat, ch: Choice)
    requires id in w.calls && w.calls[id].FenceClearing? && w.calls[id].attempt in w.sessions && ch.fault.NoFault?
    requires var s := w.sessions[w.calls[id].attempt];
             s.managedTab == Some(w.calls[id].tab) && ch.clock == Clock(s.updatedAt, s.updatedAt, s.updatedAt)
    ensures var c, w' := w.calls[id], Step(w, Advance(id, ch));
            && w'.open == w.open && w'.calls == w.calls[id := RetryListing(c.attempt, c.environment, Return)]
            && c.attempt in w'.sessions && HoldsTab(w'.sessions[c.attempt], NoTab)
            && KeepsStop(w.sessions[c.attempt], w'.sessions[c.attempt])
  {
    var c, r := w.calls[id], Expire(w, ch.clock.readAt);
    ClearDoes(r.sessions, c.attempt, c.tab, ch.clock.stampAt);
  }

  /** Call `n` is a stop of `a` by its environment, about to read a record that storage and retention leave it. */
  ghost predicate IsStop(w: World, n: nat, a: AttemptId, ch: Choice)
    requires a in w.sessions
  {
    && n in w.calls && ch.fault.NoFault? && Retained(w.sessions[a], ch.clock, false)
    && w.calls[n].Fencing? && w.calls[n].attempt == a && w.sessions[a].environment == Some(w.calls[n].environment)
  }

  ghost predicate StopCloses(w: World, a: AttemptId, tab: TabId)
    requires a in w.sessions
  {
    forall n: nat, ch: Choice | IsStop(w, n, a, ch) ::
      Step(w, Advance(n, ch)).calls == w.calls[n := FenceClosing(a, w.calls[n].environment, tab)]
  }

  /**
   * A closable tab that an active session took over, whatever happens afterwards short of a new handover, a detach or a
   * close of it: while the session is not stopped its owner owns that tab and no other; a stop by its environment goes
   * on to close it; and a `cancel` that is to close it and that nothing disturbs deletes the record and leaves it closed.
   */
  lemma HandedTabIsClosed(w: World, id: nat, ch: Choice, events: seq<Event>, k: nat) returns (rest: seq<Event>)
    requires Reachable(w) && id in w.calls && w.calls[id].Attaching? && ch.fault.NoFault?
    requires var c := w.calls[id];
             && c.attempt in w.sessions && !IsFenced(w.sessions[c.attempt])
             && c.handle.closeOnCancel && c.handle.tabId.Some?
             && !RetentionTakes(w.sessions[c.attempt], ch.clock)
             && StaysHanded(Step(w, Advance(id, ch)), events, c.attempt)
    ensures var c, w2 := w.calls[id], Run(Step(w, Advance(id, ch)), events);
            var a, tab := c.attempt, c.handle.tabId.value;
            && a in w2.sessions
            && (!IsFenced(w2.sessions[a]) ==> OwnsJust(w2.sessions, a, Some(tab)))
            && StopCloses(w2, a, tab)
            && (k in w2.calls && w2.calls[k].Preflight? && w2.calls[k].loop.attempt == a &&
                w2.calls[k].loop.kind == Cancel(true) ==>
                  && (forall e | e in rest :: e.Advance? && e.id == k)
                  && a !in Run(w2, rest).sessions && tab !in Run(w2, rest).open)
  {
    var c, w1 := w.calls[id], Step(w, Advance(id, ch));
    var w2, a := Run(w1, events), c.attempt;
    ActiveSessionTakesTab(w, id, ch);
    HandedTabStays(w1, events, a);
    forall n: nat, d: Choice | IsStop(w2, n, a, d)
      ensures Step(w2, Advance(n, d)).calls == w2.calls[n := FenceClosing(a, w2.calls[n].environment, c.handle.tabId.value)]
    {
      FenceNamesTab(w2, n, d);
    }
    rest := [];
    if k in w2.calls && w2.calls[k].Preflight? && w2.calls[k].loop.attempt == a && w2.calls[k].loop.kind == Cancel(true) {
      RunReaches(w, [Advance(id, ch)] + events);
      assert ([Advance(id, ch)] + events)[1..] == events;
      rest := UndisturbedLoopDeletes(w2, k);
    }
  }

  lemma RunReaches(w: World, events: seq<Event>)
    requires Reachable(w)
    ensures Reachable(Run(w, events))
  {
    var before: seq<Event> :| w == Run(InitialWorld(), before);
    RunAppends(InitialWorld(), before, events);
  }

  // ---- Where a call goes on --------------------------------------------------------------------------------------

  /** Call `id` stands at `c`, or is over; the others stand where they stood. */
  predicate StandsAt(w: World, w': World, id: nat, c: Option<Call>) {
    w'.calls == if c.Some? then w.calls[id := c.value] else w.calls - {id}
  }

  /** A tab that is not taken over is closed, if it may be. */
  lemma RefusedTabGoesOn(w: World, id: nat, ch: Choice)
    requires id in w.calls && w.calls[id].Attaching? && ch.fault.NoFault?
    requires var c := w.calls[id];
             c.attempt !in w.sessions || IsFenced(w.sessions[c.attempt]) || !Retained(w.sessions[c.attempt], ch.clock, false)
    ensures var c, w' := w.calls[id], Step(w, Advance(id, ch));
            && w'.calls == AfterRefusal(w.calls, id, c.attempt, c.handle)
            && w'.open == w.open
  {
    var c, r := w.calls[id], Expire(w, ch.clock.readAt);
    AttachDoes(r.sessions, c.attempt, c.handle, ch.clock.stampAt);
    assert Step(w, Advance(id, ch)) == AttachStep(r, id, c.attempt, c.handle, ch);
  }

  /** A close outside the queue: the call goes on if the tab is gone, and otherwise throws or notes that it is not. */
  lemma CloseGoesOn(w: World, id: nat, ch: Choice)
    requires id in w.calls && Closing(w.calls[id])
    ensures var c, w' := w.calls[id], Step(w, Advance(id, ch));
            && w'.sessions == w.sessions
            && (c.AttachClosing? ==>
                  var (open, gone) := CloseTab(w.open, c.tab, ch.fate);
                  && w'.open == open
                  && StandsAt(w, w', id, if gone then Some(AttachDropping(c.attempt, c.tab)) else None))
            && (c.FenceClosing? ==>
                  var (open, gone) := CloseTab(w.open, c.tab, ch.fate);
                  && w'.open == open
                  && StandsAt(w, w', id, if gone then Some(FenceClearing(c.attempt, c.environment, c.tab)) else None))
            && (c.RetryClosing? && ch.pick in c.todo ==>
                  var (open, gone) := CloseTab(w.open, ch.pick, ch.fate);
                  && w'.open == open && id in w'.calls
                  && w'.calls[id] ==
                       c.(todo := c.todo - {ch.pick}, closed := if gone then c.closed + {ch.pick} else c.closed))
  {
  }

  /** Where a retry goes on once every tab it listed is gone. */
  function Onward(after: After): Option<Call> {
    if after.Return? then None
    else if after.StartOver? then Some(Preflight(after.loop))
    else Some(Deciding(after.loop, after.mark))
  }

  /** A retry lists what a stopped record of its environment owes, and goes on at once if that is nothing. */
  lemma ListingGoesOn(w: World, id: nat, ch: Choice)
    requires id in w.calls && w.calls[id].RetryListing? && ch.fault.NoFault?
    ensures var c, w' := w.calls[id], Step(w, Advance(id, ch));
            var s := Prune(w.sessions, ch.clock.readAt);
            var owes := c.attempt in s && s[c.attempt].environment == Some(c.environment) &&
                        s[c.attempt].cancelledAt.Some? && s[c.attempt].pending != {};
            && w'.open == w.open && w'.sessions == s
            && StandsAt(w, w', id, if owes
                                   then Some(RetryClosing(c.attempt, c.environment, c.after, s[c.attempt].pending,
                                                          s[c.attempt].pending, {}))
                                   else Onward(c.after))
  {
    var c, r := w.calls[id], Expire(w, ch.clock.readAt);
    RetryDoes(r.sessions, c.attempt, c.environment, {}, ch.clock.stampAt);
    match c.after
    case Return =>
    case CheckThenDelete(_, _) =>
    case StartOver(_) =>
  }

  /** A retry that could not close every tab it listed makes its caller throw. */
  lemma DroppingGoesOn(w: World, id: nat, ch: Choice)
    requires id in w.calls && w.calls[id].RetryClosing? && w.calls[id].todo == {} && ch.fault.NoFault?
    ensures var c, w' := w.calls[id], Step(w, Advance(id, ch));
            w'.open == w.open && StandsAt(w, w', id, if c.closed == c.listed then Onward(c.after) else None)
  {
    var c, r := w.calls[id], Expire(w, ch.clock.readAt);
    var w1 := Stored(r, DropListedBody(r.sessions, c.attempt, c.environment, c.closed, ch.clock.stampAt), ch.clock);
    assert w1.open == w.open && w1.calls == w.calls;
    if c.closed == c.listed {
      match c.after
      case Return =>
      case CheckThenDelete(_, _) =>
      case StartOver(_) =>
    }
  }

  /** A round of a loop starts with a retry if the record owes a close, of whatever environment it is. */
  lemma PreflightGoesOn(w: World, id: nat, ch: Choice)
    requires id in w.calls && w.calls[id].Preflight? && ch.fault.NoFault?
    ensures var loop, w' := w.calls[id].loop, Step(w, Advance(id, ch));
            var a, s, mark := loop.attempt, Prune(w.sessions, ch.clock.readAt), Late(w, loop.attempt);
            && w'.open == w.open && w'.sessions == s
            && StandsAt(w, w', id,
                        Some(if a in s && s[a].pending != {} && s[a].environment.Some?
                             then RetryListing(a, s[a].environment.value, CheckThenDelete(loop, mark))
                             else Deciding(loop, mark)))
  {
    RemoveDoes(Expire(w, ch.clock.readAt).sessions, w.calls[id].loop.attempt);
  }

  /**
   * The deciding transaction deletes the record exactly if it is there and owes nothing, and for a `cancel` the owner
   * accepts and the tab it is to close is gone. If the record owes a close the loop goes round again; otherwise the call
   * is over.
   */
  lemma DecisionGoesOn(w: World, id: nat, ch: Choice)
    requires id in w.calls && w.calls[id].Deciding? && ch.fault.NoFault?
    ensures var loop, w' := w.calls[id].loop, Step(w, Advance(id, ch));
            var a, s := loop.attempt, Prune(w.sessions, ch.clock.readAt);
            var owes := a in s && s[a].pending != {};
            var tab := if a in s && !owes && loop.kind.Cancel? && ch.ownerAccepts && loop.kind.closeManagedTab &&
                          s[a].closeOnCancel then s[a].managedTab else None;
            var (open, gone) := if tab.Some? then CloseTab(w.open, tab.value, ch.fate) else (w.open, true);
            var deletes := a in s && !owes && (loop.kind.Cancel? ==> ch.ownerAccepts && gone);
            && w'.open == open
            && w'.sessions == (if deletes then Prune(s - {a}, ch.clock.writeAt) else s)
            && StandsAt(w, w', id,
                        if owes && s[a].environment.Some?
                        then Some(RetryListing(a, s[a].environment.value,
                                               StartOver(loop.(continues := loop.continues + 1))))
                        else None)
  {
    var loop, r := w.calls[id].loop, Expire(w, ch.clock.readAt);
    var (open, body) := Decision(r, loop, ch);
    RemoveDoes(r.sessions, loop.attempt);
    DecisionStores(r, id, loop, ch);
  }

  lemma DecisionStores(r: World, id: nat, loop: Loop, ch: Choice)
    ensures var (open, body), w' := Decision(r, loop, ch), DecideStep(r, id, loop, ch);
            && w'.sessions == Stored(r.(open := open), body, ch.clock).sessions && w'.open == open
            && StandsAt(r, w', id,
                        if body.reply.Ok? && body.reply.value.StillPending? && body.reply.value.environment.Some?
                        then Some(RetryListing(loop.attempt, body.reply.value.environment.value,
                                               StartOver(loop.(continues := loop.continues + 1))))
                        else None)
  {
    var (open, body) := Decision(r, loop, ch);
    if body.reply.Ok? && body.reply.value.StillPending? {
      if body.reply.value.environment.None? {} else {}
    } else {
      assert DecideStep(r, id, loop, ch) == Ended(Stored(r.(open := open), body, ch.clock), id);
    }
  }

  /** The tab a call closes in the middle of its transaction, given the records it reads. */
  function QueueTab(s: Sessions, c: Call, ch: Choice): Option<TabId> {
    if c.Detaching? && c.close && c.attempt in s && s[c.attempt].managedTab == c.detached && s[c.attempt].closeOnCancel
    then c.detached
    else if c.Deciding? && c.loop.kind == Cancel(true) && c.loop.attempt in s && s[c.loop.attempt].pending == {} &&
            ch.ownerAccepts && s[c.loop.attempt].closeOnCancel
    then s[c.loop.attempt].managedTab
    else None
  }

  lemma DetachClosesIts(r: World, id: nat, c: Call, ch: Choice)
    requires c.Detaching?
    ensures var tab := QueueTab(r.sessions, c, ch);
            DetachStep(r, id, c.attempt, c.detached, c.close, ch).open ==
            if tab.Some? then CloseTab(r.open, tab.value, ch.fate).0 else r.open
  {
    DetachDoes(r.sessions, c.attempt, c.detached, c.close, true, ch.clock.stampAt);
  }

  /** A transaction closes that tab and no other, whether or not its write works; if its read fails it closes none. */
  lemma OnlyQueueTabCloses(w: World, id: nat, ch: Choice)
    requires id in w.calls && !Closing(w.calls[id])
    ensures var c, w' := w.calls[id], Step(w, Advance(id, ch));
            var tab := if ch.fault.ReadFails? then None else QueueTab(Prune(w.sessions, ch.clock.readAt), c, ch);
            w'.open == if tab.Some? then CloseTab(w.open, tab.value, ch.fate).0 else w.open
  {
    var c, r := w.calls[id], Expire(w, ch.clock.readAt);
    if ch.fault.NoFault? {
      match c
      case Attaching(a, handle) => AttachDoes(r.sessions, a, handle, ch.clock.stampAt);
      case Detaching(a, tab, close) => DetachClosesIts(r, id, c, ch);
      case Fencing(_, _) => FenceNamesTab(w, id, ch);
      case RetryListing(_, _, _) => ListingGoesOn(w, id, ch);
      case RetryClosing(_, _, _, _, _, _) => DroppingGoesOn(w, id, ch);
      case Preflight(_) => PreflightGoesOn(w, id, ch);
      case Deciding(_, _) => DecisionGoesOn(w, id, ch);
      case _ =>
    } else if ch.fault.WriteFails? {
      assert Step(w, Advance(id, ch)) == FailedWrite(r, id, c, ch);
    }
  }

  /**
   * A transaction stores what its call asks for, by its own arguments and clock, on the records it reads: the `..Does`
   * lemmas above say what that is. A call that is one transaction is then over.
   */
  lemma CallStores(w: World, id: nat, ch: Choice)
    requires id in w.calls && !Closing(w.calls[id]) && ch.fault.NoFault?
    ensures var c, w' := w.calls[id], Step(w, Advance(id, ch));
            var read, now := Prune(w.sessions, ch.clock.readAt), ch.clock.stampAt;
            && (c.Starting? ==> w'.sessions == Written(StartBody(read, c.input, now), ch.clock))
            && (c.Reporting? ==> w'.sessions == Written(ProgressBody(read, c.attempt, c.progress, now), ch.clock))
            && (c.Asking? ==> w'.sessions == Written(AttentionBody(read, c.attempt, c.reason, c.message, now), ch.clock))
            && (c.Attaching? ==> w'.sessions == Written(AttachBody(read, c.attempt, c.handle, now), ch.clock))
            && (c.AttachDropping? ==> w'.sessions == Written(DropAttachedBody(read, c.attempt, c.tab, now), ch.clock))
            && (c.Fencing? ==> w'.sessions == Written(FenceBody(read, c.attempt, c.environment, now), ch.clock))
            && (c.FenceClearing? ==> w'.sessions == Written(ClearManagedBody(read, c.attempt, c.tab, now), ch.clock))
            && (c.RetryClosing? ==>
                  w'.sessions == Written(DropListedBody(read, c.attempt, c.environment, c.closed, now), ch.clock))
            && (c.Detaching? ==>
                  var tab := DetachCloses(read, c.attempt, c.detached, c.close);
                  var closed := tab.Some? ==> CloseTab(w.open, tab.value, ch.fate).1;
                  w'.sessions == Written(DetachBody(read, c.attempt, c.detached, c.close, closed, now), ch.clock))
            && (c.Starting? || c.Reporting? || c.Asking? || c.AttachDropping? || c.Detaching? ==>
                  w'.calls == w.calls - {id})
            && (c.FenceClearing? ==> w'.calls == w.calls[id := RetryListing(c.attempt, c.environment, Return)])
  {
    var c, r := w.calls[id], Expire(w, ch.clock.readAt);
    match c
    case Detaching(a, tab, close) => DetachStores(r, id, c, ch);
    case Attaching(a, handle) => AttachStores(r, id, a, handle, ch);
    case Fencing(a, environment) => FenceStores(r, id, a, environment, ch);
    case RetryClosing(_, _, _, _, _, _) => DropStores(r, id, c, ch);
    case RetryListing(_, _, _) =>
    case Preflight(_) =>
    case Deciding(_, _) =>
    case _ => SingleStores(r, id, c, ch);
  }

  lemma StoredIs<R>(w: World, body: Transaction<R>, clock: Clock)
    ensures Stored(w, body, clock).sessions == Written(body, clock) && Stored(w, body, clock).calls == w.calls
  {
  }

  lemma SingleStores(r: World, id: nat, c: Call, ch: Choice)
    requires c.Starting? || c.Reporting? || c.Asking? || c.AttachDropping? || c.FenceClearing?
    ensures var w', read, now := TransactionStep(r, id, c, ch), r.sessions, ch.clock.stampAt;
            && (c.Starting? ==> w'.sessions == Written(StartBody(read, c.input, now), ch.clock))
            && (c.Reporting? ==> w'.sessions == Written(ProgressBody(read, c.attempt, c.progress, now), ch.clock))
            && (c.Asking? ==> w'.sessions == Written(AttentionBody(read, c.attempt, c.reason, c.message, now), ch.clock))
            && (c.AttachDropping? ==> w'.sessions == Written(DropAttachedBody(read, c.attempt, c.tab, now), ch.clock))
            && (c.FenceClearing? ==> w'.sessions == Written(ClearManagedBody(read, c.attempt, c.tab, now), ch.clock))
            && w'.calls == if c.FenceClearing? then r.calls[id := RetryListing(c.attempt, c.environment, Return)]
                           else r.calls - {id}
  {
    var now := ch.clock.stampAt;
    match c
    case Starting(input) => StoredIs(r, StartBody(r.sessions, input, now), ch.clock);
    case Reporting(a, p) => StoredIs(r, ProgressBody(r.sessions, a, p, now), ch.clock);
    case Asking(a, reason, message) => StoredIs(r, AttentionBody(r.sessions, a, reason, message, now), ch.clock);
    case AttachDropping(a, tab) => StoredIs(r, DropAttachedBody(r.sessions, a, tab, now), ch.clock);
    case FenceClearing(a, _, tab) => StoredIs(r, ClearManagedBody(r.sessions, a, tab, now), ch.clock);
  }

  lemma AttachStores(r: World, id: nat, a: AttemptId, handle: TabHandle, ch: Choice)
    ensures AttachStep(r, id, a, handle, ch).sessions
            == Written(AttachBody(r.sessions, a, handle, ch.clock.stampAt), ch.clock)
  {
  }

  lemma FenceStores(r: World, id: nat, a: AttemptId, environment: Environment, ch: Choice)
    ensures FenceStep(r, id, a, environment, ch).sessions
            == Written(FenceBody(r.sessions, a, environment, ch.clock.stampAt), ch.clock)
  {
    StoredIs(r, FenceBody(r.sessions, a, environment, ch.clock.stampAt), ch.clock);
  }

  lemma DropStores(r: World, id: nat, c: Call, ch: Choice)
    requires c.RetryClosing?
    ensures DropStep(r, id, c, ch).sessions
            == Written(DropListedBody(r.sessions, c.attempt, c.environment, c.closed, ch.clock.stampAt), ch.clock)
  {
    var body := DropListedBody(r.sessions, c.attempt, c.environment, c.closed, ch.clock.stampAt);
    StoredIs(r, body, ch.clock);
    if c.closed == c.listed {
      match c.after
      case Return =>
      case CheckThenDelete(_, _) =>
      case StartOver(_) =>
    }
  }

  lemma DetachStores(r: World, id: nat, c: Call, ch: Choice)
    requires c.Detaching?
    ensures var w' := DetachStep(r, id, c.attempt, c.detached, c.close, ch);
            var tab := DetachCloses(r.sessions, c.attempt, c.detached, c.close);
            var closed := tab.Some? ==> CloseTab(r.open, tab.value, ch.fate).1;
            && w'.calls == r.calls - {id}
            && w'.sessions == Written(DetachBody(r.sessions, c.attempt, c.detached, c.close, closed, ch.clock.stampAt),
                                      ch.clock)
  {
    var tab := DetachCloses(r.sessions, c.attempt, c.detached, c.close);
    var (open, closed) := if tab.Some? then CloseTab(r.open, tab.value, ch.fate) else (r.open, true);
    StoredIs(r.(open := open), DetachBody(r.sessions, c.attempt, c.detached, c.close, closed, ch.clock.stampAt), ch.clock);
  }

  // ---- What comes from outside -----------------------------------------------------------------------------------

  /** Any public call can begin, whatever is stored; callers name only tabs that Chrome gave them, and sound counters. */
  lemma PublicCallsBegin(w: World, id: nat, c: Call)
    requires id !in w.calls
    requires c.Starting? || c.Reporting? || c.Asking? || c.Attaching? || c.Detaching? || c.Fencing? || c.RetryListing?
             || c.Preflight?
    requires c.RetryListing? ==> c.after.Return?
    requires c.Preflight? ==> c.loop == Loop(c.loop.kind, c.loop.attempt, Late(w, c.loop.attempt), 0)
    requires c.Reporting? ==> Sound(c.progress)
    requires c.Attaching? && c.handle.tabId.Some? ==> c.handle.tabId.value in w.issued
    ensures Step(w, Begin(id, c)) == w.(calls := w.calls[id := c])
  {
  }

  /** Tabs open and close at any time, each id once; and a restart of the worker forgets the calls and nothing else. */
  lemma OutsideDoes(w: World, tab: TabId)
    ensures Step(w, TabCloses(tab)) == w.(open := w.open - {tab})
    ensures tab !in w.issued ==> Step(w, TabOpens(tab)) == w.(open := w.open + {tab}, issued := w.issued + {tab})
    ensures Step(w, WorkerRestarts) == w.(calls := map[])
  {
  }
}
