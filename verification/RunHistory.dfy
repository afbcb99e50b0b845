/**
 * Agent runs on threads and their stored history.
 *
 * A run's events go to its subscribers as they come, except the terminal ones, which wait until the run's row is stored.
 * Rows name the run before them on their thread, and the history of a thread is read by following those names.
 */
module RunHistory {
  import opened Common

  type ThreadId = nat
  type RunId = nat

  datatype EventKind = RunStarted | RunFinished | RunError | Content

  datatype Event = Event(kind: EventKind, id: nat)

  predicate Terminal(e: Event) { e.kind.RunFinished? || e.kind.RunError? }

  function Terminals(events: seq<Event>): seq<Event> {
    if events == [] then []
    else Terminals(events[..|events| - 1]) + (if Terminal(events[|events| - 1]) then [events[|events| - 1]] else [])
  }

  function Others(events: seq<Event>): seq<Event> {
    if events == [] then []
    else Others(events[..|events| - 1]) + (if Terminal(events[|events| - 1]) then [] else [events[|events| - 1]])
  }

  /** Rows are kept in the order of their ids. */
  datatype Row = Row(thread: ThreadId, run: RunId, parent: Option<RunId>, events: seq<Event>, createdAt: int)

  datatype Connection = Connection(serial: nat, run: RunId, parent: Option<RunId>, events: seq<Event>,
                                   pending: seq<Event>, stopRequested: bool)

  datatype StreamStatus = Open | Complete | Failed

  /** What the subscribers of a run have been sent, and for the record every event the run had. */
  datatype Stream = Stream(sent: seq<Event>, status: StreamStatus, seen: seq<Event>)

  datatype State = State(rows: seq<Row>, active: map<ThreadId, Connection>, streams: seq<Stream>)

  // ---- Operations ------------------------------------------------------------------------------------------------

  /** The newest row of a thread by its time of creation; of several, any. */
  ghost predicate IsLatest(rows: seq<Row>, thread: ThreadId, i: nat) {
    && i < |rows| && rows[i].thread == thread
    && forall k | 0 <= k < |rows| && rows[k].thread == thread :: rows[k].createdAt <= rows[i].createdAt
  }

  predicate HasRun(rows: seq<Row>, thread: ThreadId, run: RunId) {
    exists r | r in rows :: r.thread == thread && r.run == run
  }

  /**
   * `latest` is the row found as the thread's newest, None if there was none or it could not be read. `appended` are the
   * events that finalising adds, `compacted` the events as stored; None if that failed.
   */
  datatype Op =
    | Start(thread: ThreadId, run: RunId, readable: bool, latest: Option<nat>)
    | Emits(thread: ThreadId, event: Event)
    | Settles(thread: ThreadId, appended: Option<seq<Event>>, compacted: Option<seq<Event>>, inserts: bool, now: int)
    | Stops(thread: ThreadId, only: Option<RunId>, aborts: bool)
    | Deletes(thread: ThreadId)

  ghost predicate OpOk(s: State, op: Op) {
    op.Start? && op.latest.Some? ==> IsLatest(s.rows, op.thread, op.latest.value)
  }

  function OnStart(s: State, thread: ThreadId, run: RunId, latest: Option<nat>): State {
    var parent := if latest.Some? && latest.value < |s.rows| then Some(s.rows[latest.value].run) else None;
    s.(active := s.active[thread := Connection(|s.streams|, run, parent, [], [], false)],
       streams := s.streams + [Stream([], Open, [])])
  }

  /** A terminal event waits; any other is sent on at once. */
  function OnEvent(s: State, thread: ThreadId, e: Event): State
    requires thread in s.active && s.active[thread].serial < |s.streams|
  {
    var c := s.active[thread];
    var stream := s.streams[c.serial];
    var heard := stream.(seen := stream.seen + [e], sent := if Terminal(e) then stream.sent else stream.sent + [e]);
    s.(active := s.active[thread := c.(events := c.events + [e],
                                       pending := if Terminal(e) then c.pending + [e] else c.pending)],
       streams := s.streams[c.serial := heard])
  }

  function OnEvents(s: State, thread: ThreadId, events: seq<Event>): (r: State)
    requires thread in s.active && s.active[thread].serial < |s.streams|
    ensures thread in r.active && r.active[thread].serial < |r.streams|
    decreases |events|
  {
    if events == [] then s else OnEvents(OnEvent(s, thread, events[0]), thread, events[1..])
  }

  function Release(s: State, thread: ThreadId): State { s.(active := s.active - {thread}) }

  function Close(s: State, serial: nat, status: StreamStatus, last: seq<Event>): State
    requires serial < |s.streams|
  {
    var stream := s.streams[serial];
    s.(streams := s.streams[serial := stream.(sent := stream.sent + last, status := status)])
  }

  /** Stores the run if it had any events, then sends what waited; or fails, and sends nothing more. */
  function Finish(s: State, thread: ThreadId, compacted: Option<seq<Event>>, inserts: bool, now: int): State
    requires thread in s.active && s.active[thread].serial < |s.streams|
  {
    var c := s.active[thread];
    if c.events == [] then Close(Release(s, thread), c.serial, Complete, c.pending)
    else if compacted.None? || !inserts || HasRun(s.rows, thread, c.run) then
      Close(Release(s, thread), c.serial, Failed, [])
    else
      var row := Row(thread, c.run, c.parent, compacted.value, now);
      Close(Release(s.(rows := s.rows + [row]), thread), c.serial, Complete, c.pending)
  }

  function OnSettle(
    s: State, thread: ThreadId, appended: Option<seq<Event>>, compacted: Option<seq<Event>>, inserts: bool, now: int): State
    requires thread in s.active && s.active[thread].serial < |s.streams|
  {
    if appended.None? then Close(Release(s, thread), s.active[thread].serial, Failed, [])
    else Finish(OnEvents(s, thread, appended.value), thread, compacted, inserts, now)
  }

  function Keep(rows: seq<Row>, thread: ThreadId): seq<Row> {
    if rows == [] then []
    else
      var last := rows[|rows| - 1];
      Keep(rows[..|rows| - 1], thread) + (if last.thread == thread then [] else [last])
  }

  predicate Running(s: State, thread: ThreadId) { thread in s.active && s.active[thread].serial < |s.streams| }

  /** An operation that is refused changes nothing. */
  function Next(s: State, op: Op): State {
    match op
    case Start(thread, run, readable, latest) =>
      if thread in s.active || !readable then s else OnStart(s, thread, run, latest)
    case Emits(thread, e) => if Running(s, thread) then OnEvent(s, thread, e) else s
    case Settles(thread, appended, compacted, inserts, now) =>
      if Running(s, thread) then OnSettle(s, thread, appended, compacted, inserts, now) else s
    case Stops(thread, run, aborts) =>
      if thread !in s.active || s.active[thread].stopRequested || !aborts then s
      else if run.Some? && run.value != s.active[thread].run then s
      else s.(active := s.active[thread := s.active[thread].(stopRequested := true)])
    case Deletes(thread) => if thread in s.active then s else s.(rows := Keep(s.rows, thread))
  }

  function Play(s: State, ops: seq<Op>): State
    decreases |ops|
  {
    if ops == [] then s else Play(Next(s, ops[0]), ops[1..])
  }

  ghost predicate OpsOk(s: State, ops: seq<Op>)
    decreases |ops|
  {
    ops == [] || (OpOk(s, ops[0]) && OpsOk(Next(s, ops[0]), ops[1..]))
  }

  const Empty: State := State([], map[], [])

  // ---- Invariant -------------------------------------------------------------------------------------------------

  /** A row's parent is an earlier row of its thread, and no run of a thread is stored twice. */
  ghost predicate RowsOk(rows: seq<Row>) {
    && (forall i | 0 <= i < |rows| && rows[i].parent.Some? :: HasRun(rows[..i], rows[i].thread, rows[i].parent.value))
    && (forall i, j | 0 <= i < j < |rows| && rows[i].thread == rows[j].thread :: rows[i].run != rows[j].run)
  }

  /** An open stream got the run's events but the terminal ones; a complete one got those too, last. */
  ghost predicate StreamOk(t: Stream) {
    t.sent == Others(t.seen) + (if t.status.Complete? then Terminals(t.seen) else [])
  }

  ghost predicate ConnectionOk(s: State, thread: ThreadId) {
    thread in s.active ==>
      var c := s.active[thread];
      && c.serial < |s.streams| && s.streams[c.serial].status.Open? && s.streams[c.serial].seen == c.events
      && c.pending == Terminals(c.events)
      && (c.parent.Some? ==> HasRun(s.rows, thread, c.parent.value))
  }

  ghost predicate Inv(s: State) {
    && RowsOk(s.rows) && (forall k | 0 <= k < |s.streams| :: StreamOk(s.streams[k]))
    && (forall t | t in s.active :: ConnectionOk(s, t))
    && (forall t, u | t in s.active && u in s.active && t != u :: s.active[t].serial != s.active[u].serial)
  }

  lemma Appends(events: seq<Event>, e: Event)
    ensures Others(events + [e]) == Others(events) + (if Terminal(e) then [] else [e])
    ensures Terminals(events + [e]) == Terminals(events) + (if Terminal(e) then [e] else [])
  {
  }

  lemma StartKept(s: State, thread: ThreadId, run: RunId, latest: Option<nat>)
    requires Inv(s) && thread !in s.active && (latest.Some? ==> IsLatest(s.rows, thread, latest.value))
    ensures Inv(OnStart(s, thread, run, latest))
  {
  }

  lemma EventKept(s: State, thread: ThreadId, e: Event)
    requires Inv(s) && Running(s, thread)
    ensures Inv(OnEvent(s, thread, e)) && OnEvent(s, thread, e).rows == s.rows
  {
    var n, c := OnEvent(s, thread, e), s.active[thread];
    assert ConnectionOk(s, thread);
    HeardOk(s.streams[c.serial], e);
    forall t | t in n.active ensures ConnectionOk(n, t) {
      if t == thread { Appends(c.events, e); } else { assert ConnectionOk(s, t); }
    }
    forall k | 0 <= k < |n.streams| ensures StreamOk(n.streams[k]) {
      if k != c.serial { assert n.streams[k] == s.streams[k]; }
    }
  }

  lemma HeardOk(t: Stream, e: Event)
    requires StreamOk(t) && t.status.Open?
    ensures StreamOk(t.(seen := t.seen + [e], sent := if Terminal(e) then t.sent else t.sent + [e]))
  {
  }

  lemma {:induction false} EventsKept(s: State, thread: ThreadId, events: seq<Event>)
    requires Inv(s) && Running(s, thread)
    ensures Inv(OnEvents(s, thread, events)) && OnEvents(s, thread, events).rows == s.rows
    decreases |events|
  {
    if events != [] {
      EventKept(s, thread, events[0]);
      EventsKept(OnEvent(s, thread, events[0]), thread, events[1..]);
    }
  }

  /** Closing a run's stream and freeing its thread. */
  lemma CloseKept(s: State, thread: ThreadId, status: StreamStatus, last: seq<Event>)
    requires Inv(s) && Running(s, thread)
    requires last == if status.Complete? then s.active[thread].pending else []
    requires !status.Open?
    ensures Inv(Close(Release(s, thread), s.active[thread].serial, status, last))
  {
  }

  lemma StoreKept(s: State, thread: ThreadId, row: Row)
    requires Inv(s) && row.thread == thread && !HasRun(s.rows, thread, row.run)
    requires row.parent.Some? ==> HasRun(s.rows, thread, row.parent.value)
    ensures Inv(s.(rows := s.rows + [row]))
  {
    var rows := s.rows + [row];
    forall i | 0 <= i < |rows| && rows[i].parent.Some?
      ensures HasRun(rows[..i], rows[i].thread, rows[i].parent.value)
    {
      assert rows[..i] == s.rows[..i];
      if i == |s.rows| { assert s.rows[..i] == s.rows; }
    }
    forall i | 0 <= i < |s.rows| && s.rows[i].thread == thread ensures s.rows[i].run != row.run {
      assert s.rows[i] in s.rows;
    }
    forall t | t in s.active ensures ConnectionOk(s.(rows := rows), t) {
      assert ConnectionOk(s, t);
      HasRunGrows(s.rows, row);
    }
  }

  lemma HasRunGrows(rows: seq<Row>, row: Row)
    ensures forall t, r | HasRun(rows, t, r) :: HasRun(rows + [row], t, r)
  {
  }

  lemma SettleKept(
    s: State, thread: ThreadId, appended: Option<seq<Event>>, compacted: Option<seq<Event>>, inserts: bool, now: int)
    requires Inv(s) && Running(s, thread)
    ensures Inv(OnSettle(s, thread, appended, compacted, inserts, now))
  {
    if appended.None? {
      CloseKept(s, thread, Failed, []);
    } else {
      var m := OnEvents(s, thread, appended.value);
      EventsKept(s, thread, appended.value);
      FinishKept(m, thread, compacted, inserts, now);
    }
  }

  lemma FinishKept(s: State, thread: ThreadId, compacted: Option<seq<Event>>, inserts: bool, now: int)
    requires Inv(s) && Running(s, thread)
    ensures Inv(Finish(s, thread, compacted, inserts, now))
  {
    var c := s.active[thread];
    assert ConnectionOk(s, thread);
    if c.events == [] {
      CloseKept(s, thread, Complete, c.pending);
    } else if compacted.None? || !inserts || HasRun(s.rows, thread, c.run) {
      CloseKept(s, thread, Failed, []);
    } else {
      var row := Row(thread, c.run, c.parent, compacted.value, now);
      StoreKept(s, thread, row);
      CloseKept(s.(rows := s.rows + [row]), thread, Complete, c.pending);
    }
  }

  // ---- Deleting a thread -----------------------------------------------------------------------------------------

  lemma {:induction false} KeepHas(rows: seq<Row>, thread: ThreadId, t: ThreadId, r: RunId)
    ensures HasRun(Keep(rows, thread), t, r) <==> t != thread && HasRun(rows, t, r)
  {
    if rows != [] {
      var init, last := rows[..|rows| - 1], rows[|rows| - 1];
      assert rows == init + [last];
      KeepHas(init, thread, t, r);
      HasRunSplits(init, last, t, r);
      HasRunSplits(Keep(init, thread), last, t, r);
    }
  }

  lemma HasRunSplits(rows: seq<Row>, row: Row, t: ThreadId, r: RunId)
    ensures HasRun(rows + [row], t, r) <==> HasRun(rows, t, r) || (row.thread == t && row.run == r)
  {
  }

  lemma RowsOkPrefix(rows: seq<Row>)
    requires RowsOk(rows) && rows != []
    ensures RowsOk(rows[..|rows| - 1])
    ensures var last := rows[|rows| - 1];
            && (last.parent.Some? ==> HasRun(rows[..|rows| - 1], last.thread, last.parent.value))
            && !HasRun(rows[..|rows| - 1], last.thread, last.run)
  {
  }

  lemma RowsOkExtend(rows: seq<Row>, last: Row)
    requires RowsOk(rows) && !HasRun(rows, last.thread, last.run)
    requires last.parent.Some? ==> HasRun(rows, last.thread, last.parent.value)
    ensures RowsOk(rows + [last])
  {
    StoreKept(State(rows, map[], []), last.thread, last);
  }

  lemma {:induction false} KeepKept(rows: seq<Row>, thread: ThreadId)
    requires RowsOk(rows)
    ensures RowsOk(Keep(rows, thread))
  {
    if rows != [] {
      var init, last := rows[..|rows| - 1], rows[|rows| - 1];
      RowsOkPrefix(rows);
      KeepKept(init, thread);
      if last.thread != thread {
        KeepHas(init, thread, last.thread, last.run);
        if last.parent.Some? { KeepHas(init, thread, last.thread, last.parent.value); }
        RowsOkExtend(Keep(init, thread), last);
      } else {
        assert Keep(rows, thread) == Keep(init, thread);
      }
    }
  }

  lemma DeleteKept(s: State, thread: ThreadId)
    requires Inv(s) && thread !in s.active
    ensures Inv(s.(rows := Keep(s.rows, thread)))
  {
    var n := s.(rows := Keep(s.rows, thread));
    KeepKept(s.rows, thread);
    forall t | t in n.active ensures ConnectionOk(n, t) {
      assert ConnectionOk(s, t);
      if s.active[t].parent.Some? { KeepHas(s.rows, thread, t, s.active[t].parent.value); }
    }
  }

  lemma StopKept(s: State, thread: ThreadId)
    requires Inv(s) && thread in s.active
    ensures Inv(s.(active := s.active[thread := s.active[thread].(stopRequested := true)]))
  {
  }

  lemma NextKept(s: State, op: Op)
    requires Inv(s) && OpOk(s, op)
    ensures Inv(Next(s, op))
  {
    match op
    case Start(thread, run, readable, latest) =>
      if thread !in s.active && readable { StartKept(s, thread, run, latest); }
    case Emits(thread, e) => if Running(s, thread) { EventKept(s, thread, e); }
    case Settles(thread, appended, compacted, inserts, now) =>
      if Running(s, thread) { SettleKept(s, thread, appended, compacted, inserts, now); }
    case Stops(thread, run, aborts) => if thread in s.active { StopKept(s, thread); }
    case Deletes(thread) => if thread !in s.active { DeleteKept(s, thread); }
  }

  lemma {:induction false} PlayKept(s: State, ops: seq<Op>)
    requires Inv(s) && OpsOk(s, ops)
    ensures Inv(Play(s, ops))
    decreases |ops|
  {
    if ops != [] {
      NextKept(s, ops[0]);
      PlayKept(Next(s, ops[0]), ops[1..]);
    }
  }

  // ---- What every run of the runner keeps ------------------------------------------------------------------------

  lemma {:induction false} OthersHaveNone(events: seq<Event>)
    ensures forall e | e in Others(events) :: !Terminal(e)
    ensures forall e | e in Terminals(events) :: Terminal(e)
  {
    if events != [] { OthersHaveNone(events[..|events| - 1]); }
  }

  lemma EmptyInv()
    ensures Inv(Empty)
  {
  }

  /**
   * Whatever runs, stops, deletions and failures there were, every subscriber has been sent the run's events that are
   * not terminal, in their order, and the terminal ones after them if and only if the run completed; and the rows of
   * every thread point back to earlier ones of the same thread.
   */
  lemma EveryStreamIsInOrder(ops: seq<Op>, k: nat)
    requires OpsOk(Empty, ops) && k < |Play(Empty, ops).streams|
    ensures var s := Play(Empty, ops); var t := s.streams[k];
            && t.sent == Others(t.seen) + (if t.status.Complete? then Terminals(t.seen) else [])
            && ((exists e :: e in t.sent && Terminal(e)) ==> t.status.Complete?)
            && RowsOk(s.rows)
  {
    EmptyInv();
    PlayKept(Empty, ops);
    var t := Play(Empty, ops).streams[k];
    OthersHaveNone(t.seen);
    assert StreamOk(t);
  }

  lemma {:induction false} EventsSeen(s: State, thread: ThreadId, events: seq<Event>)
    requires Running(s, thread)
    ensures var r := OnEvents(s, thread, events);
            && r.active.Keys == s.active.Keys && r.rows == s.rows && |r.streams| == |s.streams|
            && r.active[thread].serial == s.active[thread].serial && r.active[thread].run == s.active[thread].run
            && r.active[thread].events == s.active[thread].events + events
    decreases |events|
  {
    if events != [] {
      EventsSeen(OnEvent(s, thread, events[0]), thread, events[1..]);
      assert events == [events[0]] + events[1..];
    }
  }

  /**
   * Settling frees the thread's slot whatever happens. A run that had events completes, and so shows its terminal
   * events, exactly when its row is stored in that step; otherwise its stream fails and no row is added.
   */
  lemma TerminalOnlyAfterStored(
    s: State, thread: ThreadId, appended: Option<seq<Event>>, compacted: Option<seq<Event>>, inserts: bool, now: int)
    requires Inv(s) && Running(s, thread)
    ensures var n := Next(s, Settles(thread, appended, compacted, inserts, now));
            var c := s.active[thread];
            && thread !in n.active && c.serial < |n.streams| && !n.streams[c.serial].status.Open?
            && (n.streams[c.serial].status.Complete? && n.streams[c.serial].seen != []
                <==> |n.rows| == |s.rows| + 1 && n.rows[..|s.rows|] == s.rows && n.rows[|s.rows|].thread == thread
                     && n.rows[|s.rows|].run == c.run)
            && (n.streams[c.serial].status.Failed? || n.streams[c.serial].seen == [] ==> n.rows == s.rows)
  {
    assert ConnectionOk(s, thread);
    if appended.Some? {
      EventsSeen(s, thread, appended.value);
      EventsKept(s, thread, appended.value);
      assert ConnectionOk(OnEvents(s, thread, appended.value), thread);
    }
  }

  /** No other step ends a stream, so nothing terminal is seen before a row is stored. */
  lemma OnlySettlingEnds(s: State, op: Op, k: nat)
    requires Inv(s) && k < |s.streams| && s.streams[k].status.Open?
    ensures k < |Next(s, op).streams|
    ensures !Next(s, op).streams[k].status.Open? ==>
              op.Settles? && Running(s, op.thread) && s.active[op.thread].serial == k
  {
    if op.Settles? && Running(s, op.thread) && op.appended.Some? {
      EventsSeen(s, op.thread, op.appended.value);
      OtherStreams(s, op.thread, op.appended.value, k);
    }
  }

  lemma {:induction false} OtherStreams(s: State, thread: ThreadId, events: seq<Event>, k: nat)
    requires Running(s, thread) && k < |s.streams|
    ensures k < |OnEvents(s, thread, events).streams|
    ensures OnEvents(s, thread, events).streams[k].status == s.streams[k].status
    decreases |events|
  {
    if events != [] { OtherStreams(OnEvent(s, thread, events[0]), thread, events[1..], k); }
  }

  // ---- Durable before terminal, over whole runs ------------------------------------------------------------------

  lemma {:induction false} EventsLeaveOthers(s: State, thread: ThreadId, events: seq<Event>, k: nat)
    requires Running(s, thread) && k < |s.streams| && s.active[thread].serial != k
    ensures k < |OnEvents(s, thread, events).streams| && OnEvents(s, thread, events).streams[k] == s.streams[k]
    decreases |events|
  {
    if events != [] { EventsLeaveOthers(OnEvent(s, thread, events[0]), thread, events[1..], k); }
  }

  /** A stream that has ended is sent nothing more. */
  lemma EndedIsSilent(s: State, op: Op, k: nat)
    requires Inv(s) && k < |s.streams| && !s.streams[k].status.Open?
    ensures k < |Next(s, op).streams| && Next(s, op).streams[k] == s.streams[k]
  {
    match op
    case Emits(thread, e) => if Running(s, thread) { assert ConnectionOk(s, thread); }
    case Settles(thread, appended, compacted, inserts, now) =>
      if Running(s, thread) {
        assert ConnectionOk(s, thread);
        if appended.Some? {
          EventsSeen(s, thread, appended.value);
          EventsLeaveOthers(s, thread, appended.value, k);
        }
      }
    case _ =>
  }

  lemma {:induction false} PlayLast(s: State, ops: seq<Op>)
    requires ops != [] && OpsOk(s, ops)
    ensures var n := |ops| - 1;
            && OpsOk(s, ops[..n]) && OpOk(Play(s, ops[..n]), ops[n])
            && Play(s, ops) == Next(Play(s, ops[..n]), ops[n])
    decreases |ops|
  {
    if |ops| > 1 {
      PlayLast(Next(s, ops[0]), ops[1..]);
      assert ops[1..][..|ops| - 2] == ops[..|ops| - 1][1..];
    }
  }

  predicate ShowsTerminal(s: State, k: nat) {
    k < |s.streams| && exists e :: e in s.streams[k].sent && Terminal(e)
  }

  /** This step settles the run of stream `k`: it frees its thread and stores its row. */
  predicate StoresRow(s: State, op: Op, n: State, k: nat) {
    && op.Settles? && op.thread in s.active && s.active[op.thread].serial == k && op.thread !in n.active
    && |n.rows| == |s.rows| + 1 && n.rows[..|s.rows|] == s.rows
    && n.rows[|s.rows|].thread == op.thread && n.rows[|s.rows|].run == s.active[op.thread].run
  }

  /** A stream begins with nothing sent. */
  lemma NewIsSilent(s: State, op: Op, k: nat)
    requires |s.streams| <= k < |Next(s, op).streams|
    ensures Next(s, op).streams[k].sent == []
  {
    if op.Settles? && Running(s, op.thread) && op.appended.Some? { EventsSeen(s, op.thread, op.appended.value); }
  }

  lemma FirstTerminal(s: State, op: Op, k: nat)
    requires Inv(s) && OpOk(s, op) && !ShowsTerminal(s, k) && ShowsTerminal(Next(s, op), k)
    ensures StoresRow(s, op, Next(s, op), k)
  {
    var n := Next(s, op);
    NextKept(s, op);
    assert StreamOk(n.streams[k]);
    OthersHaveNone(n.streams[k].seen);
    if k >= |s.streams| {
      NewIsSilent(s, op, k);
    } else if !s.streams[k].status.Open? {
      EndedIsSilent(s, op, k);
    } else {
      OnlySettlingEnds(s, op, k);
      TerminalOnlyAfterStored(s, op.thread, op.appended, op.compacted, op.inserts, op.now);
    }
  }

  lemma {:induction false} FirstTerminalFrom(s: State, ops: seq<Op>, k: nat) returns (at: nat)
    requires Inv(s) && OpsOk(s, ops) && !ShowsTerminal(s, k) && ShowsTerminal(Play(s, ops), k)
    ensures at < |ops|
    ensures !ShowsTerminal(Play(s, ops[..at]), k)
    ensures StoresRow(Play(s, ops[..at]), ops[at], Play(s, ops[..at + 1]), k)
    decreases |ops|
  {
    var last := |ops| - 1;
    PlayLast(s, ops);
    var before := Play(s, ops[..last]);
    if ShowsTerminal(before, k) {
      at := FirstTerminalFrom(s, ops[..last], k);
      assert ops[..last][..at] == ops[..at] && ops[..last][..at + 1] == ops[..at + 1];
    } else {
      at := last;
      assert ops[..last + 1] == ops;
      PlayKept(s, ops[..last]);
      FirstTerminal(before, ops[last], k);
    }
  }

  /**
   * Durable before terminal, over every sequence of operations: if a subscriber has been sent a terminal event, then
   * there was a step that settled its run and stored the run's row, and before that step it had been sent none.
   */
  lemma TerminalMeansStored(ops: seq<Op>, k: nat) returns (at: nat)
    requires OpsOk(Empty, ops) && ShowsTerminal(Play(Empty, ops), k)
    ensures at < |ops|
    ensures var s, n := Play(Empty, ops[..at]), Play(Empty, ops[..at + 1]);
            !ShowsTerminal(s, k) && StoresRow(s, ops[at], n, k)
  {
    EmptyInv();
    at := FirstTerminalFrom(Empty, ops, k);
  }
}
