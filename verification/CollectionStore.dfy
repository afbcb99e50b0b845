/**
 * The persisted map of browser collection attempts and the queued transactions that rewrite it.
 *
 * A queued transaction reads the map (dropping records past retention), changes it, and writes it back (dropping
 * again). The functions below are the part in between, `read map -> map to write`; `SessionStorage` performs whole
 * transactions in place and is proved equal to them.
 */
module CollectionStore {
  import opened Common

  const RETENTION_MS: int := 7 * 24 * 60 * 60 * 1000
  const MAX_PROGRESS_COUNT: int := 1_000_000
  const MAX_LABEL_LENGTH: int := 300

  type TabId = int

  datatype AttemptId = AttemptId(uuid: string)

  datatype Environment = Local | Office

  datatype Progress = Progress(current: int, total: int, completed: int, failed: int, caption: Option<string>)

  datatype Attention = Attention(reason: string, message: string, canOpenTab: bool)

  /** One attempt. `pending` are the tabs that were attached after the stop fence and still owe a close. */
  datatype Session = Session(
    environment: Option<Environment>,
    producer: string,
    progress: Progress,
    attention: Option<Attention>,
    cancelledAt: Option<int>,
    managedTab: Option<TabId>,
    managedWindow: Option<int>,
    closeOnCancel: bool,
    pending: set<TabId>,
    updatedAt: int)

  type Sessions = map<AttemptId, Session>

  /** The environment argument of a call: left out, not one of the two names, or one of them. */
  datatype Supplied = Omitted | Unknown | Known(environment: Environment)

  /** `attempt` is None when the text is not an attempt UUID. */
  datatype StartInput = StartInput(attempt: Option<AttemptId>, producer: string, environment: Supplied)

  datatype TabHandle = TabHandle(tabId: Option<TabId>, windowId: Option<int>, closeOnCancel: bool)

  /** Why a call throws. */
  datatype Refusal =
    | AttemptIdRequired | ProducerRequired | EnvironmentRequired | AttemptTaken | AlreadyCancelled
    | TabIdRequired | TabNotRemoved | OwnerRefused | InvalidProgress | AttentionReasonUnknown
    | PendingNotClosed | StorageFailed

  /** What a transaction writes and answers. `writes` is false when it only read. */
  datatype Transaction<+R> = Transaction(sessions: Sessions, reply: Result<R, Refusal>, writes: bool)

  datatype View = View(attempt: AttemptId, producer: string, environment: Option<Environment>)

  datatype FenceReply = NothingFenced | Fenced(managedTab: Option<TabId>, closeManagedTab: bool)

  datatype AttachReply = Attached(view: View) | Refused(tabToClose: Option<TabId>)

  datatype DeleteReply = Absent | Deleted | StillPending(environment: Option<Environment>)

  function EmptyProgress(): Progress { Progress(0, 0, 0, 0, None) }

  function PublicView(a: AttemptId, s: Session): View { View(a, s.producer, s.environment) }

  /** Reading or writing at clock `now` drops the records that were last touched more than seven days before. */
  function Prune(sessions: Sessions, now: int): Sessions {
    map a | a in sessions && sessions[a].updatedAt >= now - RETENTION_MS :: sessions[a]
  }

  /** A record's clock moves on even when the wall clock does not. */
  function Stamp(now: int, previous: int): (t: int)
    ensures t > previous && t >= now && (t == now || t == previous + 1)
  {
    Max(now, previous + 1)
  }

  predicate IsFenced(s: Session) { s.cancelledAt.Some? }

  function WithoutManagedTab(s: Session, now: int): Session {
    s.(managedTab := None, managedWindow := None, closeOnCancel := true, updatedAt := Stamp(now, s.updatedAt))
  }

  function Reject<R>(read: Sessions, reason: Refusal): Transaction<R> { Transaction(read, Rejected(reason), false) }

  function Answer<R>(read: Sessions, reply: R): Transaction<R> { Transaction(read, Ok(reply), false) }

  function Store<R>(read: Sessions, a: AttemptId, s: Session, reply: R): Transaction<R> {
    Transaction(read[a := s], Ok(reply), true)
  }

  function StartBody(read: Sessions, input: StartInput, now: int): Transaction<View> {
    if input.attempt.None? then Reject(read, AttemptIdRequired)
    else if input.producer == "" then Reject(read, ProducerRequired)
    else if input.environment.Unknown? then Reject(read, EnvironmentRequired)
    else
      var a := input.attempt.value;
      var environment := if input.environment.Omitted? then None else Some(input.environment.environment);
      if a in read then
        var existing := read[a];
        if existing.producer != input.producer || existing.environment != environment then
          Reject(read, AttemptTaken)
        else if IsFenced(existing) then
          Reject(read, AlreadyCancelled)
        else
          var resumed := existing.(updatedAt := Max(now, existing.updatedAt));
          Store(read, a, resumed, PublicView(a, resumed))
      else
        var s := Session(environment, input.producer, EmptyProgress(), None, None, None, None, true, {}, now);
        Store(read, a, s, PublicView(a, s))
  }

  /** First transaction of requestCancellation: store the stop fence, once. */
  function FenceBody(read: Sessions, a: AttemptId, environment: Environment, now: int): Transaction<FenceReply> {
    if a !in read || read[a].environment != Some(environment) then Answer(read, NothingFenced)
    else
      var s := read[a];
      if IsFenced(s) then Answer(read, Fenced(s.managedTab, s.closeOnCancel))
      else
        var t := Stamp(now, s.updatedAt);
        Store(read, a, s.(cancelledAt := Some(t), updatedAt := t), Fenced(s.managedTab, s.closeOnCancel))
  }

  /** Second transaction of requestCancellation: forget the managed tab that was just closed. */
  function ClearManagedBody(read: Sessions, a: AttemptId, tab: TabId, now: int): Transaction<()> {
    if a !in read || read[a].managedTab != Some(tab) then Answer(read, ())
    else Store(read, a, WithoutManagedTab(read[a], now), ())
  }

  /** First transaction of retryPendingManagedTabs: which tabs still owe a close, for a fenced record only. */
  function ListPendingBody(read: Sessions, a: AttemptId, environment: Environment): Transaction<Option<set<TabId>>> {
    if a !in read || read[a].environment != Some(environment) || !IsFenced(read[a]) then Answer(read, None)
    else Answer(read, Some(read[a].pending))
  }

  function WithoutPending(s: Session, closed: set<TabId>, now: int): Session {
    s.(pending := s.pending - closed, updatedAt := Stamp(now, s.updatedAt))
  }

  /** Last transaction of retryPendingManagedTabs: drop the tabs it closed. */
  function DropListedBody(read: Sessions, a: AttemptId, environment: Environment, closed: set<TabId>, now: int)
    : Transaction<()>
  {
    if a !in read || read[a].environment != Some(environment) then Answer(read, ())
    else Store(read, a, WithoutPending(read[a], closed, now), ())
  }

  /** First transaction of attachTab. A fenced record never takes the tab; it records that the tab owes a close. */
  function AttachBody(read: Sessions, a: AttemptId, tab: TabHandle, now: int): Transaction<AttachReply> {
    var closable := if tab.closeOnCancel then tab.tabId else None;
    if a !in read then Answer(read, Refused(closable))
    else if IsFenced(read[a]) then
      if closable.None? then Answer(read, Refused(None))
      else
        var s := read[a].(pending := read[a].pending + {closable.value}, updatedAt := Stamp(now, read[a].updatedAt));
        Store(read, a, s, Refused(closable))
    else
      var s := read[a].(managedTab := tab.tabId, managedWindow := tab.windowId, closeOnCancel := tab.closeOnCancel,
                        updatedAt := Stamp(now, read[a].updatedAt));
      Store(read, a, s, Attached(PublicView(a, s)))
  }

  /** Second transaction of attachTab: the refused tab is closed, so it owes nothing any more. */
  function DropAttachedBody(read: Sessions, a: AttemptId, tab: TabId, now: int): Transaction<()> {
    if a !in read then Answer(read, ())
    else Store(read, a, WithoutPending(read[a], {tab}, now), ())
  }

  /** The tab detachTab closes before it writes, if any. */
  function DetachCloses(read: Sessions, a: AttemptId, tab: Option<TabId>, close: bool): Option<TabId> {
    if close && tab.Some? && a in read && read[a].managedTab == tab && read[a].closeOnCancel then tab else None
  }

  /** `closed` says whether the tab of DetachCloses, if any, was removed. */
  function DetachBody(read: Sessions, a: AttemptId, tab: Option<TabId>, close: bool, closed: bool, now: int)
    : Transaction<Option<View>>
  {
    if tab.None? then Reject(read, TabIdRequired)
    else if DetachCloses(read, a, tab, close).Some? && !closed then
      Reject(read, TabNotRemoved)
    else if a !in read then Answer(read, None)
    else if read[a].managedTab != tab then Answer(read, Some(PublicView(a, read[a])))
    else
      var s := WithoutManagedTab(read[a], now);
      Store(read, a, s, Some(PublicView(a, s)))
  }

  /** pendingCleanupEnvironment: the environment of a record that still owes closes. */
  function PendingEnvironmentBody(read: Sessions, a: AttemptId): Transaction<Option<Option<Environment>>> {
    if a !in read || read[a].pending == {} then Answer(read, None)
    else Answer(read, Some(read[a].environment))
  }

  /** The deciding transaction of `remove`. */
  function RemoveBody(read: Sessions, a: AttemptId): Transaction<DeleteReply> {
    if a !in read then Answer(read, Absent)
    else if read[a].pending != {} then Answer(read, StillPending(read[a].environment))
    else Transaction(read - {a}, Ok(Deleted), true)
  }

  /** The tab `cancel` closes inside its deciding transaction, if it gets that far. */
  function CancelCloses(read: Sessions, a: AttemptId, closeManagedTab: bool, ownerAccepts: bool): Option<TabId> {
    if a in read && read[a].pending == {} && ownerAccepts && closeManagedTab && read[a].closeOnCancel
    then read[a].managedTab
    else None
  }

  /** The deciding transaction of `cancel`: like `remove`, after the owner's answer and the managed tab's close. */
  function CancelBody(read: Sessions, a: AttemptId, closeManagedTab: bool, ownerAccepts: bool, closed: bool)
    : Transaction<DeleteReply>
  {
    if a !in read then Answer(read, Absent)
    else if read[a].pending != {} then Answer(read, StillPending(read[a].environment))
    else if !ownerAccepts then Reject(read, OwnerRefused)
    else if CancelCloses(read, a, closeManagedTab, ownerAccepts).Some? && !closed then
      Reject(read, TabNotRemoved)
    else Transaction(read - {a}, Ok(Deleted), true)
  }

  predicate ValidProgress(p: Progress) {
    && 0 <= p.current <= MAX_PROGRESS_COUNT
    && 0 <= p.total <= MAX_PROGRESS_COUNT
    && 0 <= p.completed <= MAX_PROGRESS_COUNT
    && 0 <= p.failed <= MAX_PROGRESS_COUNT
    && p.current <= p.total
    && p.completed + p.failed <= p.total
    && (p.caption.Some? ==> |p.caption.value| <= MAX_LABEL_LENGTH)
  }

  /** `progress`: replaces the counters and clears the attention flag. Invalid counters are refused before queueing. */
  function ProgressBody(read: Sessions, a: AttemptId, p: Progress, now: int): Transaction<Option<View>> {
    if !ValidProgress(p) then Reject(read, InvalidProgress)
    else if a !in read then Answer(read, None)
    else
      var s := read[a].(progress := p, attention := None, updatedAt := Stamp(now, read[a].updatedAt));
      Store(read, a, s, Some(PublicView(a, s)))
  }

  function AttentionBody(read: Sessions, a: AttemptId, reason: string, message: string, now: int)
    : Transaction<Option<View>>
  {
    if a !in read then Answer(read, None)
    else
      var canOpenTab := read[a].managedTab.Some? && read[a].managedWindow.Some?;
      var s := read[a].(attention := Some(Attention(reason, message, canOpenTab)),
                        updatedAt := Stamp(now, read[a].updatedAt));
      Store(read, a, s, Some(PublicView(a, s)))
  }

  predicate OwnsTab(read: Sessions, a: AttemptId, environment: Environment, producer: string, tab: TabId) {
    a in read && read[a].environment == Some(environment) && read[a].producer == producer &&
    !IsFenced(read[a]) && read[a].managedTab == Some(tab)
  }

  /** Unlike OwnsTab this reads storage without pruning it. */
  predicate IsActive(stored: Sessions, a: AttemptId, environment: Environment, producer: string) {
    a in stored && stored[a].environment == Some(environment) && stored[a].producer == producer &&
    !IsFenced(stored[a])
  }

  // ---- Whole transactions -------------------------------------------------------------------------------------

  /** The clock is read separately for the read prune, the record's stamp and the write prune. */
  datatype Clock = Clock(readAt: int, stampAt: int, writeAt: int)

  /** What storage holds after a transaction whose body, applied to the pruned map, gives `body`. */
  function Written<R>(body: Transaction<R>, clock: Clock): Sessions {
    if body.writes then Prune(body.sessions, clock.writeAt) else body.sessions
  }
}
