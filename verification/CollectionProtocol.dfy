/**
 * The public calls of the collection session store as a transition system.
 *
 * A call is several queued transactions with tab closes between them, so calls interleave at every transaction and
 * every close. `World` holds what is stored, which Chrome tabs are open, and where each call in flight stands;
 * `Step` performs one atomic action of one call, or of Chrome, or a restart of the extension worker.
 */
module CollectionProtocol {
  import opened Common
  import opened CollectionStore

  /** A closable tab that a fenced record once accepted for closing. */
  datatype Debt = Debt(attempt: AttemptId, tab: TabId)

  datatype LoopKind = Remove | Cancel(closeManagedTab: bool)

  /**
   * One run of the retry loop of `cancel` or `remove`. `lateAtStart` is the attempt's count of late attaches when the
   * loop began and `continues` how often it has gone round again.
   */
  datatype Loop = Loop(kind: LoopKind, attempt: AttemptId, lateAtStart: nat, continues: nat)

  /**
   * Who waits for a retry of the pending closes. CheckThenDelete is the preflight of a loop's round, whose count of
   * late attaches was `mark` when the preflight read the record; StartOver is the retry before the next round.
   */
  datatype After = Return | CheckThenDelete(loop: Loop, mark: nat) | StartOver(loop: Loop)

  datatype Call =
    | Starting(input: StartInput)
    | Reporting(attempt: AttemptId, progress: Progress)
    | Asking(attempt: AttemptId, reason: string, message: string)
    | Attaching(attempt: AttemptId, handle: TabHandle)
    | AttachClosing(attempt: AttemptId, tab: TabId)
    | AttachDropping(attempt: AttemptId, tab: TabId)
    | Detaching(attempt: AttemptId, detached: Option<TabId>, close: bool)
    | Fencing(attempt: AttemptId, environment: Environment)
    | FenceClosing(attempt: AttemptId, environment: Environment, tab: TabId)
    | FenceClearing(attempt: AttemptId, environment: Environment, tab: TabId)
    | RetryListing(attempt: AttemptId, environment: Environment, after: After)
    | RetryClosing(attempt: AttemptId, environment: Environment, after: After,
                   listed: set<TabId>, todo: set<TabId>, closed: set<TabId>)
    | Preflight(loop: Loop)
    | Deciding(loop: Loop, mark: nat)

  /** What chrome.tabs.remove and the query that follows a failed remove do. */
  datatype CloseFate = RemoveWorks | RemoveFails(queryWorks: bool)

  datatype Fault = NoFault | ReadFails | WriteFails

  /** Everything the environment decides during one atomic action. */
  datatype Choice = Choice(clock: Clock, fault: Fault, fate: CloseFate, ownerAccepts: bool, pick: TabId)

  datatype Event =
    | TabOpens(tab: TabId)
    | TabCloses(tab: TabId)
    | Begin(id: nat, call: Call)
    | Advance(id: nat, choice: Choice)
    | WorkerRestarts

  /**
   * `issued` are the tab ids Chrome has handed out so far; it never hands one out twice. `late` counts the late
   * attaches per attempt, `owed` remembers them until retention drops the record, and `fellThrough` records a loop
   * that was asked to retry without an environment.
   */
  datatype World = World(
    sessions: Sessions,
    open: set<TabId>,
    issued: set<TabId>,
    calls: map<nat, Call>,
    late: map<AttemptId, nat>,
    owed: set<Debt>,
    fellThrough: bool)

  function Late(w: World, a: AttemptId): nat { if a in w.late then w.late[a] else 0 }

  function Pending(w: World, a: AttemptId): set<TabId> { if a in w.sessions then w.sessions[a].pending else {} }

  function InitialWorld(): World { World(map[], {}, {}, map[], map[], {}, false) }

  // ---- Steps --------------------------------------------------------------------------------------------------

  /** removeManagedTab: it returns normally only when the remove worked or a query no longer finds the tab. */
  function CloseTab(open: set<TabId>, tab: TabId, fate: CloseFate): (r: (set<TabId>, bool))
    ensures r.0 <= open
    ensures r.1 ==> tab !in r.0
    ensures open - {tab} <= r.0
  {
    match fate
    case RemoveWorks => (open - {tab}, true)
    case RemoveFails(queryWorks) => (open, queryWorks && tab !in open)
  }

  /** Retention: stale records go, and what they owed is forgotten with them. */
  function Expire(w: World, now: int): World {
    var kept := Prune(w.sessions, now);
    w.(sessions := kept, owed := set d | d in w.owed && (d.attempt in w.sessions ==> d.attempt in kept))
  }

  function Ended(w: World, id: nat): World { w.(calls := w.calls - {id}) }

  function Goto(w: World, id: nat, c: Call): World { w.(calls := w.calls[id := c]) }

  /** The world with a body's map stored, and pruned again if it was written. */
  function Stored<R>(w: World, body: Transaction<R>, clock: Clock): World {
    var w1 := w.(sessions := body.sessions);
    if body.writes then Expire(w1, clock.writeAt) else w1
  }

  /** Where a retry that closed everything, or had nothing to close, goes on. */
  function Settled(w: World, id: nat, after: After): World {
    match after
    case Return => Ended(w, id)
    case CheckThenDelete(loop, mark) => Goto(w, id, Deciding(loop, mark))
    case StartOver(loop) => Goto(w, id, Preflight(loop))
  }

  function AttachStep(r: World, id: nat, a: AttemptId, handle: TabHandle, ch: Choice): World {
    var body := AttachBody(r.sessions, a, handle, ch.clock.stampAt);
    var isLate := body.writes && body.reply.value.Refused?;
    var r1 := if !isLate then r else
      r.(late := r.late[a := Late(r, a) + 1], owed := r.owed + {Debt(a, body.reply.value.tabToClose.value)});
    var w := Stored(r1, body, ch.clock);
    if body.reply.value.Refused? && body.reply.value.tabToClose.Some?
    then Goto(w, id, AttachClosing(a, body.reply.value.tabToClose.value))
    else Ended(w, id)
  }

  function FenceStep(r: World, id: nat, a: AttemptId, environment: Environment, ch: Choice): World {
    var body := FenceBody(r.sessions, a, environment, ch.clock.stampAt);
    var w := Stored(r, body, ch.clock);
    match body.reply.value
    case NothingFenced => Ended(w, id)
    case Fenced(managedTab, closeManagedTab) =>
      if closeManagedTab && managedTab.Some? then Goto(w, id, FenceClosing(a, environment, managedTab.value))
      else Goto(w, id, RetryListing(a, environment, Return))
  }

  function ListStep(r: World, id: nat, a: AttemptId, environment: Environment, after: After): World {
    var body := ListPendingBody(r.sessions, a, environment);
    if body.reply.value.None? || body.reply.value.value == {} then Settled(r, id, after)
    else
      var listed := body.reply.value.value;
      Goto(r, id, RetryClosing(a, environment, after, listed, listed, {}))
  }

  /** The last transaction of a retry. A retry that could not close every listed tab makes its caller throw. */
  function DropStep(r: World, id: nat, c: Call, ch: Choice): World
    requires c.RetryClosing?
  {
    var w := Stored(r, DropListedBody(r.sessions, c.attempt, c.environment, c.closed, ch.clock.stampAt), ch.clock);
    if c.closed == c.listed then Settled(w, id, c.after) else Ended(w, id)
  }

  function PreflightStep(r: World, id: nat, loop: Loop): World {
    var mark := Late(r, loop.attempt);
    match PendingEnvironmentBody(r.sessions, loop.attempt).reply.value
    case None => Goto(r, id, Deciding(loop, mark))
    case Some(None) => Goto(r, id, Deciding(loop, mark))
    case Some(Some(environment)) =>
      Goto(r, id, RetryListing(loop.attempt, environment, CheckThenDelete(loop, mark)))
  }

  /** The deciding transaction of a loop: the tabs open after its in-queue close, and its body. */
  function Decision(r: World, loop: Loop, ch: Choice): (d: (set<TabId>, Transaction<DeleteReply>))
    ensures d.0 <= r.open
  {
    match loop.kind
    case Remove => (r.open, RemoveBody(r.sessions, loop.attempt))
    case Cancel(closeManagedTab) =>
      var target := CancelCloses(r.sessions, loop.attempt, closeManagedTab, ch.ownerAccepts);
      var (open, closed) := if target.Some? then CloseTab(r.open, target.value, ch.fate) else (r.open, true);
      (open, CancelBody(r.sessions, loop.attempt, closeManagedTab, ch.ownerAccepts, closed))
  }

  function DecideStep(r: World, id: nat, loop: Loop, ch: Choice): World {
    var (open, body) := Decision(r, loop, ch);
    var w := Stored(r.(open := open), body, ch.clock);
    if body.reply.Ok? && body.reply.value.StillPending? then
      match body.reply.value.environment
      case None => Ended(w, id).(fellThrough := true)
      case Some(environment) =>
        Goto(w, id, RetryListing(loop.attempt, environment, StartOver(loop.(continues := loop.continues + 1))))
    else Ended(w, id)
  }

  function DetachStep(r: World, id: nat, a: AttemptId, tab: Option<TabId>, close: bool, ch: Choice): World {
    var target := DetachCloses(r.sessions, a, tab, close);
    var (open, closed) := if target.Some? then CloseTab(r.open, target.value, ch.fate) else (r.open, true);
    Ended(Stored(r.(open := open), DetachBody(r.sessions, a, tab, close, closed, ch.clock.stampAt), ch.clock), id)
  }

  /** The transaction a call performs next, on the world `r` whose records are already pruned. */
  function TransactionStep(r: World, id: nat, c: Call, ch: Choice): World
    requires !Closing(c)
  {
    match c
    case Starting(input) => Ended(Stored(r, StartBody(r.sessions, input, ch.clock.stampAt), ch.clock), id)
    case Reporting(a, p) => Ended(Stored(r, ProgressBody(r.sessions, a, p, ch.clock.stampAt), ch.clock), id)
    case Asking(a, reason, message) =>
      Ended(Stored(r, AttentionBody(r.sessions, a, reason, message, ch.clock.stampAt), ch.clock), id)
    case Attaching(a, handle) => AttachStep(r, id, a, handle, ch)
    case AttachDropping(a, tab) => Ended(Stored(r, DropAttachedBody(r.sessions, a, tab, ch.clock.stampAt), ch.clock), id)
    case Detaching(a, tab, close) => DetachStep(r, id, a, tab, close, ch)
    case Fencing(a, environment) => FenceStep(r, id, a, environment, ch)
    case FenceClearing(a, environment, tab) =>
      Goto(Stored(r, ClearManagedBody(r.sessions, a, tab, ch.clock.stampAt), ch.clock), id,
           RetryListing(a, environment, Return))
    case RetryListing(a, environment, after) => ListStep(r, id, a, environment, after)
    case RetryClosing(_, _, _, _, _, _) => DropStep(r, id, c, ch)
    case Preflight(loop) => PreflightStep(r, id, loop)
    case Deciding(loop, _) => DecideStep(r, id, loop, ch)
  }

  /** The call's next action is a tab close outside the queue. */
  predicate Closing(c: Call) {
    c.AttachClosing? || c.FenceClosing? || (c.RetryClosing? && c.todo != {})
  }

  function CloseStep(w: World, id: nat, c: Call, ch: Choice): World
    requires Closing(c)
  {
    match c
    case AttachClosing(a, tab) =>
      var (open, closed) := CloseTab(w.open, tab, ch.fate);
      var w1 := w.(open := open);
      if closed then Goto(w1, id, AttachDropping(a, tab)) else Ended(w1, id)
    case FenceClosing(a, environment, tab) =>
      var (open, closed) := CloseTab(w.open, tab, ch.fate);
      var w1 := w.(open := open);
      if closed then Goto(w1, id, FenceClearing(a, environment, tab)) else Ended(w1, id)
    case RetryClosing(a, environment, after, listed, todo, done) =>
      if ch.pick !in todo then w
      else
        var (open, closed) := CloseTab(w.open, ch.pick, ch.fate);
        var done' := if closed then done + {ch.pick} else done;
        Goto(w.(open := open), id, RetryClosing(a, environment, after, listed, todo - {ch.pick}, done'))
  }

  /** The tab a call closes inside its transaction, before it writes. */
  function ClosesInQueue(r: World, c: Call, ch: Choice): Option<TabId> {
    match c
    case Detaching(a, tab, close) => DetachCloses(r.sessions, a, tab, close)
    case Deciding(Loop(Cancel(close), a, _, _), _) => CancelCloses(r.sessions, a, close, ch.ownerAccepts)
    case _ => None
  }

  /** A transaction whose write fails has stored nothing, but has made its close. */
  function FailedWrite(r: World, id: nat, c: Call, ch: Choice): World {
    var target := ClosesInQueue(r, c, ch);
    Ended(if target.None? then r else r.(open := CloseTab(r.open, target.value, ch.fate).0), id)
  }

  function AdvanceStep(w: World, id: nat, ch: Choice): World {
    if id !in w.calls then w
    else
      var c := w.calls[id];
      if Closing(c) then CloseStep(w, id, c, ch)
      else if ch.fault.ReadFails? then Ended(w, id)
      else
        var r := Expire(w, ch.clock.readAt);
        if ch.fault.WriteFails? then FailedWrite(r, id, c, ch) else TransactionStep(r, id, c, ch)
  }

  /**
   * A public call as its caller makes it and as it gets to the queue: counters are checked before, and callers hand over
   * only tab ids that Chrome gave them.
   */
  predicate Callable(w: World, c: Call) {
    match c
    case Starting(_) => true
    case Reporting(_, p) => ValidProgress(p)
    case Asking(_, _, _) => true
    case Attaching(_, handle) => handle.tabId.Some? ==> handle.tabId.value in w.issued
    case Detaching(_, _, _) => true
    case Fencing(_, _) => true
    case RetryListing(_, _, after) => after.Return?
    case Preflight(loop) => loop.lateAtStart == Late(w, loop.attempt) && loop.continues == 0
    case _ => false
  }

  function Step(w: World, e: Event): World {
    match e
    case TabOpens(tab) => if tab in w.issued then w else w.(open := w.open + {tab}, issued := w.issued + {tab})
    case TabCloses(tab) => w.(open := w.open - {tab})
    case Begin(id, c) => if id in w.calls || !Callable(w, c) then w else Goto(w, id, c)
    case Advance(id, ch) => AdvanceStep(w, id, ch)
    case WorkerRestarts => w.(calls := map[])
  }

  function Run(w: World, events: seq<Event>): World
    decreases |events|
  {
    if events == [] then w else Run(Step(w, events[0]), events[1..])
  }
}
