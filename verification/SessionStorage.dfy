/** The queued transactions of the collection session store, performed in place on what storage holds. */
module SessionStorage {
  import opened Common
  import opened CollectionStore
  import opened CollectionProtocol

  /** A subset of the same size is the whole map, so comparing the two counts finds out whether anything was dropped. */
  lemma PruneKeepsAll(sessions: Sessions, now: int)
    requires |Prune(sessions, now)| == |sessions|
    ensures Prune(sessions, now) == sessions
  {
    var kept := Prune(sessions, now);
    assert kept.Keys <= sessions.Keys;
    if a :| a in sessions && a !in kept {
      assert kept.Keys <= sessions.Keys - {a};
      SubsetSize(kept.Keys, sessions.Keys - {a});
    }
  }

  lemma SubsetSize<T>(s: set<T>, t: set<T>)
    requires s <= t
    ensures |s| <= |t|
  {
    assert t == s + (t - s);
  }

  class Storage {
    /** chrome.storage.local under the store's key. */
    var sessions: Sessions
    /** The tabs Chrome has open. */
    var open: set<TabId>

    constructor ()
      ensures sessions == map[] && open == {}
    {
      sessions, open := map[], {};
    }

    method ReadSessions(clock: Clock) returns (retained: Sessions)
      modifies this`sessions
      ensures retained == Prune(old(sessions), clock.readAt)
      ensures sessions == retained
    {
      retained := Prune(sessions, clock.readAt);
      if |retained| != |sessions| {
        sessions := retained;
      } else {
        PruneKeepsAll(sessions, clock.readAt);
      }
    }

    method WriteSessions(next: Sessions, clock: Clock)
      modifies this`sessions
      ensures sessions == Prune(next, clock.writeAt)
    {
      sessions := Prune(next, clock.writeAt);
    }

    /** Returns true only when the tab is known to be gone; a failed query counts as still open. */
    method RemoveManagedTab(tab: TabId, fate: CloseFate) returns (gone: bool)
      modifies this`open
      ensures (open, gone) == CloseTab(old(open), tab, fate)
    {
      if fate.RemoveWorks? {
        open := open - {tab};
        return true;
      }
      var tabStillExists := true;
      if fate.queryWorks {
        tabStillExists := tab in open;
      }
      gone := !tabStillExists;
    }

    method Start(input: StartInput, clock: Clock) returns (reply: Result<View, Refusal>)
      modifies this`sessions
      ensures var body := StartBody(Prune(old(sessions), clock.readAt), input, clock.stampAt);
              reply == body.reply && sessions == Written(body, clock)
    {
      var retained := ReadSessions(clock);
      if input.attempt.None? { return Rejected(AttemptIdRequired); }
      if input.producer == "" { return Rejected(ProducerRequired); }
      if input.environment.Unknown? { return Rejected(EnvironmentRequired); }
      var a := input.attempt.value;
      var environment := if input.environment.Omitted? then None else Some(input.environment.environment);
      if a in retained {
        var existing := retained[a];
        if existing.producer != input.producer || existing.environment != environment { return Rejected(AttemptTaken); }
        if IsFenced(existing) { return Rejected(AlreadyCancelled); }
        var resumed := existing.(updatedAt := Max(clock.stampAt, existing.updatedAt));
        retained := retained[a := resumed];
        WriteSessions(retained, clock);
        return Ok(PublicView(a, resumed));
      }
      var created :=
        Session(environment, input.producer, EmptyProgress(), None, None, None, None, true, {}, clock.stampAt);
      retained := retained[a := created];
      WriteSessions(retained, clock);
      reply := Ok(PublicView(a, created));
    }

    method Fence(a: AttemptId, environment: Environment, clock: Clock) returns (reply: FenceReply)
      modifies this`sessions
      ensures var body := FenceBody(Prune(old(sessions), clock.readAt), a, environment, clock.stampAt);
              Ok(reply) == body.reply && sessions == Written(body, clock)
    {
      var retained := ReadSessions(clock);
      if a !in retained || retained[a].environment != Some(environment) { return NothingFenced; }
      var current := retained[a];
      if !IsFenced(current) {
        var requestedAt := Stamp(clock.stampAt, current.updatedAt);
        current := current.(cancelledAt := Some(requestedAt), updatedAt := requestedAt);
        retained := retained[a := current];
        WriteSessions(retained, clock);
      }
      reply := Fenced(current.managedTab, current.closeOnCancel);
    }

    method ClearManagedTab(a: AttemptId, tab: TabId, clock: Clock)
      modifies this`sessions
      ensures sessions == Written(ClearManagedBody(Prune(old(sessions), clock.readAt), a, tab, clock.stampAt), clock)
    {
      var retained := ReadSessions(clock);
      if a !in retained || retained[a].managedTab != Some(tab) { return; }
      retained := retained[a := WithoutManagedTab(retained[a], clock.stampAt)];
      WriteSessions(retained, clock);
    }

    method ListPending(a: AttemptId, environment: Environment, clock: Clock) returns (listed: Option<set<TabId>>)
      modifies this`sessions
      ensures var body := ListPendingBody(Prune(old(sessions), clock.readAt), a, environment);
              Ok(listed) == body.reply && sessions == Written(body, clock)
    {
      var retained := ReadSessions(clock);
      if a !in retained || retained[a].environment != Some(environment) || !IsFenced(retained[a]) { return None; }
      listed := Some(retained[a].pending);
    }

    method DropListed(a: AttemptId, environment: Environment, closed: set<TabId>, clock: Clock)
      modifies this`sessions
      ensures sessions ==
        Written(DropListedBody(Prune(old(sessions), clock.readAt), a, environment, closed, clock.stampAt), clock)
    {
      var retained := ReadSessions(clock);
      if a !in retained || retained[a].environment != Some(environment) { return; }
      retained := retained[a := WithoutPending(retained[a], closed, clock.stampAt)];
      WriteSessions(retained, clock);
    }

    method Attach(a: AttemptId, tab: TabHandle, clock: Clock) returns (reply: AttachReply)
      modifies this`sessions
      ensures var body := AttachBody(Prune(old(sessions), clock.readAt), a, tab, clock.stampAt);
              Ok(reply) == body.reply && sessions == Written(body, clock)
    {
      var retained := ReadSessions(clock);
      if a !in retained {
        return Refused(if tab.closeOnCancel then tab.tabId else None);
      }
      var next := retained[a];
      if IsFenced(next) {
        if !tab.closeOnCancel || tab.tabId.None? { return Refused(None); }
        next := next.(pending := next.pending + {tab.tabId.value}, updatedAt := Stamp(clock.stampAt, next.updatedAt));
        retained := retained[a := next];
        WriteSessions(retained, clock);
        return Refused(tab.tabId);
      }
      next := next.(managedTab := tab.tabId, managedWindow := tab.windowId, closeOnCancel := tab.closeOnCancel);
      next := next.(updatedAt := Stamp(clock.stampAt, next.updatedAt));
      retained := retained[a := next];
      WriteSessions(retained, clock);
      reply := Attached(PublicView(a, next));
    }

    method DropAttached(a: AttemptId, tab: TabId, clock: Clock)
      modifies this`sessions
      ensures sessions == Written(DropAttachedBody(Prune(old(sessions), clock.readAt), a, tab, clock.stampAt), clock)
    {
      var retained := ReadSessions(clock);
      if a !in retained { return; }
      retained := retained[a := WithoutPending(retained[a], {tab}, clock.stampAt)];
      WriteSessions(retained, clock);
    }

    method Detach(a: AttemptId, tab: Option<TabId>, close: bool, fate: CloseFate, clock: Clock)
      returns (reply: Result<Option<View>, Refusal>)
      modifies this
      ensures var read := Prune(old(sessions), clock.readAt);
              var target := DetachCloses(read, a, tab, close);
              var closing := if target.Some? then CloseTab(old(open), target.value, fate) else (old(open), true);
              var body := DetachBody(read, a, tab, close, closing.1, clock.stampAt);
              reply == body.reply && sessions == Written(body, clock) && open == closing.0
    {
      var retained := ReadSessions(clock);
      if tab.None? { return Rejected(TabIdRequired); }
      var matchesCurrent := a in retained && retained[a].managedTab == tab;
      var canClose := matchesCurrent && retained[a].closeOnCancel;
      if close && canClose {
        var gone := RemoveManagedTab(tab.value, fate);
        if !gone { return Rejected(TabNotRemoved); }
      }
      if a !in retained { return Ok(None); }
      if !matchesCurrent { return Ok(Some(PublicView(a, retained[a]))); }
      var next := WithoutManagedTab(retained[a], clock.stampAt);
      retained := retained[a := next];
      WriteSessions(retained, clock);
      reply := Ok(Some(PublicView(a, next)));
    }

    method PendingCleanupEnvironment(a: AttemptId, clock: Clock) returns (pending: Option<Option<Environment>>)
      modifies this`sessions
      ensures var body := PendingEnvironmentBody(Prune(old(sessions), clock.readAt), a);
              Ok(pending) == body.reply && sessions == Written(body, clock)
    {
      var retained := ReadSessions(clock);
      if a !in retained || |retained[a].pending| == 0 { return None; }
      pending := Some(retained[a].environment);
    }

    method Remove(a: AttemptId, clock: Clock) returns (reply: DeleteReply)
      modifies this`sessions
      ensures var body := RemoveBody(Prune(old(sessions), clock.readAt), a);
              Ok(reply) == body.reply && sessions == Written(body, clock)
    {
      var retained := ReadSessions(clock);
      if a !in retained { return Absent; }
      if |retained[a].pending| > 0 { return StillPending(retained[a].environment); }
      retained := retained - {a};
      WriteSessions(retained, clock);
      reply := Deleted;
    }

    method Cancel(a: AttemptId, closeManagedTab: bool, ownerAccepts: bool, fate: CloseFate, clock: Clock)
      returns (reply: Result<DeleteReply, Refusal>)
      modifies this
      ensures var read := Prune(old(sessions), clock.readAt);
              var target := CancelCloses(read, a, closeManagedTab, ownerAccepts);
              var closing := if target.Some? then CloseTab(old(open), target.value, fate) else (old(open), true);
              var body := CancelBody(read, a, closeManagedTab, ownerAccepts, closing.1);
              reply == body.reply && sessions == Written(body, clock) && open == closing.0
    {
      var retained := ReadSessions(clock);
      if a !in retained { return Ok(Absent); }
      var current := retained[a];
      if |current.pending| > 0 { return Ok(StillPending(current.environment)); }
      if !ownerAccepts { return Rejected(OwnerRefused); }
      if closeManagedTab && current.managedTab.Some? && current.closeOnCancel {
        var gone := RemoveManagedTab(current.managedTab.value, fate);
        if !gone { return Rejected(TabNotRemoved); }
      }
      retained := retained - {a};
      WriteSessions(retained, clock);
      reply := Ok(Deleted);
    }

    method ReportProgress(a: AttemptId, progress: Progress, clock: Clock) returns (reply: Result<Option<View>, Refusal>)
      modifies this`sessions
      ensures !ValidProgress(progress) ==> reply == Rejected(InvalidProgress) && sessions == old(sessions)
      ensures ValidProgress(progress) ==>
                var body := ProgressBody(Prune(old(sessions), clock.readAt), a, progress, clock.stampAt);
                reply == body.reply && sessions == Written(body, clock)
    {
      if !ValidProgress(progress) { return Rejected(InvalidProgress); }
      var retained := ReadSessions(clock);
      if a !in retained { return Ok(None); }
      var next := retained[a].(progress := progress, attention := None);
      next := next.(updatedAt := Stamp(clock.stampAt, next.updatedAt));
      retained := retained[a := next];
      WriteSessions(retained, clock);
      reply := Ok(Some(PublicView(a, next)));
    }

    method RequireAttention(a: AttemptId, reason: string, message: string, clock: Clock) returns (view: Option<View>)
      modifies this`sessions
      ensures var body := AttentionBody(Prune(old(sessions), clock.readAt), a, reason, message, clock.stampAt);
              Ok(view) == body.reply && sessions == Written(body, clock)
    {
      var retained := ReadSessions(clock);
      if a !in retained { return None; }
      var current := retained[a];
      var canOpenTab := current.managedTab.Some? && current.managedWindow.Some?;
      var next := current.(attention := Some(Attention(reason, message, canOpenTab)));
      next := next.(updatedAt := Stamp(clock.stampAt, next.updatedAt));
      retained := retained[a := next];
      WriteSessions(retained, clock);
      view := Some(PublicView(a, next));
    }
  }
}
