/**
 * The public calls carried out on storage: each does the transactions and closes of `SessionStorage` one after the
 * other. Every action of a call is proved to be the step the protocol takes, so what is proved of every interleaving of
 * the protocol holds of these.
 */
module SessionCalls {
  import opened Common
  import opened CollectionStore
  import opened CollectionProtocol
  import opened SessionStorage

  /** Storage and Chrome's tabs are as in this world. */
  ghost predicate Shows(s: Storage, w: World)
    reads s
  {
    s.sessions == w.sessions && s.open == w.open
  }

  /** Where a call stands, unless it is over. */
  ghost function Standing(w: World, id: nat): Option<Call> { if id in w.calls then Some(w.calls[id]) else None }

  /** Where a retry goes on that closed all it listed. */
  function Resumed(after: After): Option<Call> {
    match after
    case Return => None
    case CheckThenDelete(loop, mark) => Some(Deciding(loop, mark))
    case StartOver(loop) => Some(Preflight(loop))
  }

  method PerformWhole(s: Storage, ghost w: World, ghost id: nat, c: Call, ch: Choice)
    requires Shows(s, w) && id in w.calls && w.calls[id] == c && ch.fault.NoFault?
    requires c.Starting? || c.Reporting? || c.Asking? || c.Detaching? || c.AttachDropping?
    requires c.Reporting? ==> ValidProgress(c.progress)
    modifies s
    ensures var w' := Step(w, Advance(id, ch)); Shows(s, w') && Standing(w', id) == None
  {
    match c
    case Starting(input) => var _ := s.Start(input, ch.clock);
    case Reporting(a, progress) => var _ := s.ReportProgress(a, progress, ch.clock);
    case Asking(a, reason, message) => var _ := s.RequireAttention(a, reason, message, ch.clock);
    case Detaching(a, tab, close) => var _ := s.Detach(a, tab, close, ch.fate, ch.clock);
    case AttachDropping(a, tab) => s.DropAttached(a, tab, ch.clock);
  }

  /** `attachTab` and `requestCancellation` up to their first close. */
  method PerformFirst(s: Storage, ghost w: World, ghost id: nat, c: Call, ch: Choice) returns (next: Option<Call>)
    requires Shows(s, w) && id in w.calls && w.calls[id] == c && ch.fault.NoFault?
    requires c.Attaching? || c.Fencing? || c.FenceClearing?
    modifies s
    ensures var w' := Step(w, Advance(id, ch)); Shows(s, w') && Standing(w', id) == next
  {
    match c
    case Attaching(a, handle) =>
      var reply := s.Attach(a, handle, ch.clock);
      next := if reply.Refused? && reply.tabToClose.Some? then Some(AttachClosing(a, reply.tabToClose.value)) else None;
    case Fencing(a, environment) =>
      var reply := s.Fence(a, environment, ch.clock);
      next := if reply.NothingFenced? then None
              else if reply.closeManagedTab && reply.managedTab.Some?
              then Some(FenceClosing(a, environment, reply.managedTab.value))
              else Some(RetryListing(a, environment, Return));
    case FenceClearing(a, environment, tab) =>
      s.ClearManagedTab(a, tab, ch.clock);
      next := Some(RetryListing(a, environment, Return));
  }

  /** The first transaction of `retryPendingManagedTabs`. */
  method PerformListing(s: Storage, ghost w: World, ghost id: nat, c: Call, ch: Choice) returns (next: Option<Call>)
    requires Shows(s, w) && id in w.calls && w.calls[id] == c && ch.fault.NoFault? && c.RetryListing?
    modifies s
    ensures var w' := Step(w, Advance(id, ch)); Shows(s, w') && Standing(w', id) == next
  {
    var listed := s.ListPending(c.attempt, c.environment, ch.clock);
    next := if listed.None? || listed.value == {} then Resumed(c.after)
            else Some(RetryClosing(c.attempt, c.environment, c.after, listed.value, listed.value, {}));
  }

  /** And its last, once it has tried every tab. */
  method PerformDropping(s: Storage, ghost w: World, ghost id: nat, c: Call, ch: Choice) returns (next: Option<Call>)
    requires Shows(s, w) && id in w.calls && w.calls[id] == c && ch.fault.NoFault?
    requires c.RetryClosing? && c.todo == {}
    modifies s
    ensures var w' := Step(w, Advance(id, ch)); Shows(s, w') && Standing(w', id) == next
  {
    s.DropListed(c.attempt, c.environment, c.closed, ch.clock);
    next := if c.closed == c.listed then Resumed(c.after) else None;
  }

  /** A close outside the queue. */
  method PerformClose(s: Storage, ghost w: World, ghost id: nat, c: Call, ch: Choice) returns (next: Option<Call>)
    requires Shows(s, w) && id in w.calls && w.calls[id] == c && Closing(c)
    modifies s`open
    ensures var w' := Step(w, Advance(id, ch)); Shows(s, w') && Standing(w', id) == next
  {
    match c
    case AttachClosing(a, tab) =>
      var gone := s.RemoveManagedTab(tab, ch.fate);
      next := if gone then Some(AttachDropping(a, tab)) else None;
    case FenceClosing(a, environment, tab) =>
      var gone := s.RemoveManagedTab(tab, ch.fate);
      next := if gone then Some(FenceClearing(a, environment, tab)) else None;
    case RetryClosing(a, environment, after, listed, todo, closed) =>
      if ch.pick !in todo { return Some(c); }
      var gone := s.RemoveManagedTab(ch.pick, ch.fate);
      next := Some(RetryClosing(a, environment, after, listed, todo - {ch.pick},
                                if gone then closed + {ch.pick} else closed));
  }

  /** The check before a round of a loop; `late` counts the late attaches the attempt has had. */
  method PerformPreflight(s: Storage, ghost w: World, ghost id: nat, loop: Loop, late: nat, ch: Choice)
    returns (next: Option<Call>)
    requires Shows(s, w) && id in w.calls && w.calls[id] == Preflight(loop) && ch.fault.NoFault?
    requires late == Late(w, loop.attempt)
    modifies s
    ensures var w' := Step(w, Advance(id, ch)); Shows(s, w') && Standing(w', id) == next
  {
    var pending := s.PendingCleanupEnvironment(loop.attempt, ch.clock);
    next := if pending.None? || pending.value.None? then Some(Deciding(loop, late))
            else Some(RetryListing(loop.attempt, pending.value.value, CheckThenDelete(loop, late)));
  }

  /** The deciding transaction of `cancel` or `remove`. */
  method PerformDecision(s: Storage, ghost w: World, ghost id: nat, c: Call, ch: Choice) returns (next: Option<Call>)
    requires Shows(s, w) && id in w.calls && w.calls[id] == c && c.Deciding? && ch.fault.NoFault?
    modifies s
    ensures var w' := Step(w, Advance(id, ch)); Shows(s, w') && Standing(w', id) == next
  {
    var loop := c.loop;
    ghost var r := Expire(w, ch.clock.readAt);
    var reply: Result<DeleteReply, Refusal>;
    match loop.kind {
      case Remove =>
        var removed := s.Remove(loop.attempt, ch.clock);
        reply := Ok(removed);
      case Cancel(closeManagedTab) =>
        reply := s.Cancel(loop.attempt, closeManagedTab, ch.ownerAccepts, ch.fate, ch.clock);
    }
    assert reply == Decision(r, loop, ch).1.reply && s.open == Decision(r, loop, ch).0;
    assert s.sessions == Written(Decision(r, loop, ch).1, ch.clock);
    DecisionStands(r, id, loop, ch);
    next := if reply.Ok? && reply.value.StillPending? && reply.value.environment.Some?
            then Some(RetryListing(loop.attempt, reply.value.environment.value,
                                   StartOver(loop.(continues := loop.continues + 1))))
            else None;
  }

  lemma DecisionStands(r: World, id: nat, loop: Loop, ch: Choice)
    ensures var (open, body), w' := Decision(r, loop, ch), DecideStep(r, id, loop, ch);
            && w'.sessions == Written(body, ch.clock) && w'.open == open
            && Standing(w', id) ==
                 if body.reply.Ok? && body.reply.value.StillPending? && body.reply.value.environment.Some?
                 then Some(RetryListing(loop.attempt, body.reply.value.environment.value,
                                        StartOver(loop.(continues := loop.continues + 1))))
                 else None
  {
    var (open, body) := Decision(r, loop, ch);
    var w := Stored(r.(open := open), body, ch.clock);
    assert w.sessions == Written(body, ch.clock) && w.open == open && w.calls == r.calls;
    if body.reply.Ok? && body.reply.value.StillPending? {
      if body.reply.value.environment.None? {
        assert DecideStep(r, id, loop, ch) == Ended(w, id).(fellThrough := true);
      } else {
        assert DecideStep(r, id, loop, ch).sessions == w.sessions;
      }
    } else {
      assert DecideStep(r, id, loop, ch) == Ended(w, id);
    }
  }

  /**
   * Reading or writing fails: at most the pruned map is stored, and the call is over. What `detachTab` or `cancel` closes
   * before it writes is closed all the same.
   */
  method PerformFault(s: Storage, ghost w: World, ghost id: nat, c: Call, ch: Choice)
    requires Shows(s, w) && id in w.calls && w.calls[id] == c && !Closing(c) && !ch.fault.NoFault?
    modifies s
    ensures var w' := Step(w, Advance(id, ch)); Shows(s, w') && Standing(w', id) == None
  {
    if ch.fault.ReadFails? { return; }
    var retained := s.ReadSessions(ch.clock);
    if c.Detaching? && c.close && c.detached.Some? && c.attempt in retained {
      var current := retained[c.attempt];
      if current.managedTab == c.detached && current.closeOnCancel {
        var _ := s.RemoveManagedTab(c.detached.value, ch.fate);
      }
    }
    if c.Deciding? && c.loop.kind.Cancel? && c.loop.kind.closeManagedTab && c.loop.attempt in retained {
      var current := retained[c.loop.attempt];
      if |current.pending| == 0 && ch.ownerAccepts && current.managedTab.Some? && current.closeOnCancel {
        var _ := s.RemoveManagedTab(current.managedTab.value, ch.fate);
      }
    }
  }

  /** The next action of a call, whatever it is. It leaves storage and the call as the protocol's step does. */
  method Perform(s: Storage, ghost w: World, ghost id: nat, c: Call, late: nat, ch: Choice) returns (next: Option<Call>)
    requires Shows(s, w) && id in w.calls && w.calls[id] == c
    requires c.Reporting? ==> ValidProgress(c.progress)
    requires c.Preflight? ==> late == Late(w, c.loop.attempt)
    modifies s
    ensures var w' := Step(w, Advance(id, ch)); Shows(s, w') && Standing(w', id) == next
  {
    if Closing(c) {
      next := PerformClose(s, w, id, c, ch);
    } else if !ch.fault.NoFault? {
      PerformFault(s, w, id, c, ch);
      next := None;
    } else if c.Attaching? || c.Fencing? || c.FenceClearing? {
      next := PerformFirst(s, w, id, c, ch);
    } else if c.RetryListing? {
      next := PerformListing(s, w, id, c, ch);
    } else if c.RetryClosing? {
      next := PerformDropping(s, w, id, c, ch);
    } else if c.Preflight? {
      next := PerformPreflight(s, w, id, c.loop, late, ch);
    } else if c.Deciding? {
      next := PerformDecision(s, w, id, c, ch);
    } else {
      PerformWhole(s, w, id, c, ch);
      next := None;
    }
  }
}
