/** What every operation of the agent runner does to the stored rows, the active runs and what subscribers are sent. */
module HistoryEffects {
  import opened Common
  import opened RunHistory

  /** The events that wait for the run's row: its end, well or not. */
  predicate Waits(e: Event) { e.kind in {RunFinished, RunError} }

  /** Every stream but that of one run is as it was. */
  ghost predicate OtherStreams(s: State, n: State, serial: nat) {
    && |n.streams| == |s.streams|
    && forall k | 0 <= k < |s.streams| && k != serial :: n.streams[k] == s.streams[k]
  }

  ghost predicate OtherThreads(s: State, n: State, thread: ThreadId) {
    forall t | t != thread :: (t in n.active <==> t in s.active) && (t in s.active ==> n.active[t] == s.active[t])
  }

  /** A run starts on a free thread whose history can be read, and follows the run that was found to be the newest. */
  lemma StartDoes(s: State, thread: ThreadId, run: RunId, readable: bool, latest: Option<nat>)
    requires latest.Some? ==> IsLatest(s.rows, thread, latest.value)
    ensures var n := Next(s, Start(thread, run, readable, latest));
            if thread in s.active || !readable then n == s
            else
              && n.rows == s.rows && n.streams == s.streams + [Stream([], Open, [])]
              && OtherThreads(s, n, thread) && thread in n.active
              && var c := n.active[thread];
                 && c.serial == |s.streams| && c.run == run && !c.stopRequested && c.events == [] && c.pending == []
                 && c.parent == if latest.Some? then Some(s.rows[latest.value].run) else None
  {
  }

  /** An event is noted, and sent on at once unless it is the run's end. */
  lemma EmitsDoes(s: State, thread: ThreadId, e: Event)
    requires Running(s, thread)
    ensures var n, c := Next(s, Emits(thread, e)), s.active[thread];
            && n.rows == s.rows && OtherThreads(s, n, thread) && OtherStreams(s, n, c.serial) && thread in n.active
            && var d, was, now := n.active[thread], s.streams[c.serial], n.streams[c.serial];
               && d.serial == c.serial && d.run == c.run && d.parent == c.parent && d.stopRequested == c.stopRequested
               && d.events == c.events + [e] && now.seen == was.seen + [e] && now.status == was.status
               && (Waits(e) ==> d.pending == c.pending + [e] && now.sent == was.sent)
               && (!Waits(e) ==> d.pending == c.pending && now.sent == was.sent + [e])
  {
  }

  /** The run of `thread` has had these events too, and nothing else of rows, runs and streams is different. */
  ghost predicate Heard(s: State, n: State, thread: ThreadId, events: seq<Event>)
    requires thread in s.active
  {
    var c := s.active[thread];
    && n.rows == s.rows && OtherThreads(s, n, thread) && OtherStreams(s, n, c.serial) && thread in n.active
    && var d := n.active[thread];
       d.serial == c.serial && d.run == c.run && d.parent == c.parent && d.events == c.events + events
  }

  lemma HeardMore(s: State, m: State, n: State, thread: ThreadId, e: Event, events: seq<Event>)
    requires thread in s.active && Heard(s, m, thread, [e]) && Heard(m, n, thread, events)
    ensures Heard(s, n, thread, [e] + events)
  {
    assert s.active[thread].events + ([e] + events) == (s.active[thread].events + [e]) + events;
  }

  lemma {:induction false} EventsDo(s: State, thread: ThreadId, events: seq<Event>)
    requires Running(s, thread)
    ensures Heard(s, OnEvents(s, thread, events), thread, events)
    decreases |events|
  {
    if events == [] {
      assert s.active[thread].events + [] == s.active[thread].events;
    } else {
      var m := OnEvent(s, thread, events[0]);
      EmitsDoes(s, thread, events[0]);
      EventsDo(m, thread, events[1..]);
      HeardMore(s, m, OnEvents(m, thread, events[1..]), thread, events[0], events[1..]);
      assert events == [events[0]] + events[1..];
    }
  }

  predicate Stored(rows: seq<Row>, thread: ThreadId, run: RunId) { exists i | 0 <= i < |rows| :: Names(rows[i], thread, run) }

  predicate Names(row: Row, thread: ThreadId, run: RunId) { row.thread == thread && row.run == run }

  lemma StoredIff(rows: seq<Row>, thread: ThreadId, run: RunId)
    ensures Stored(rows, thread, run) <==> HasRun(rows, thread, run)
  {
    if HasRun(rows, thread, run) {
      var r :| r in rows && r.thread == thread && r.run == run;
      var i :| 0 <= i < |rows| && rows[i] == r;
      assert Names(rows[i], thread, run);
    }
    if Stored(rows, thread, run) {
      var i :| 0 <= i < |rows| && Names(rows[i], thread, run);
      assert rows[i] in rows;
    }
  }

  /** The run's row is stored: it had events, they could be compacted, and the database takes a row not stored before. */
  ghost predicate Stores(
    s: State, thread: ThreadId, appended: Option<seq<Event>>, compacted: Option<seq<Event>>, inserts: bool)
    requires thread in s.active
  {
    && appended.Some? && s.active[thread].events + appended.value != [] && compacted.Some? && inserts
    && !Stored(s.rows, thread, s.active[thread].run)
  }

  /** What the subscribers of a settled run have been sent in all. */
  ghost predicate Shows(t: Stream, all: seq<Event>, complete: bool) {
    && t.seen == all && t.status == (if complete then Complete else Failed)
    && t.sent == Others(all) + (if complete then Terminals(all) else [])
  }

  /**
   * Settling frees the thread. If finalising works and the run had no events, or its row is stored, with the run it
   * followed, its events compacted and the time, then the subscribers are sent the run's end; otherwise they never are.
   */
  lemma SettlesDoes(
    s: State, thread: ThreadId, appended: Option<seq<Event>>, compacted: Option<seq<Event>>, inserts: bool, now: int)
    requires Inv(s) && Running(s, thread)
    ensures var n, c := Next(s, Settles(thread, appended, compacted, inserts, now)), s.active[thread];
            var all := c.events + (if appended.Some? then appended.value else []);
            var stores := Stores(s, thread, appended, compacted, inserts);
            && n.active == s.active - {thread} && OtherStreams(s, n, c.serial)
            && n.rows == s.rows + (if stores then [Row(thread, c.run, c.parent, compacted.value, now)] else [])
            && Shows(n.streams[c.serial], all, stores || (appended.Some? && all == []))
  {
    var c := s.active[thread];
    assert ConnectionOk(s, thread) && StreamOk(s.streams[c.serial]);
    StoredIff(s.rows, thread, c.run);
    if appended.None? {
      assert c.events + [] == c.events && s.rows + [] == s.rows;
    } else {
      var m := OnEvents(s, thread, appended.value);
      EventsDo(s, thread, appended.value);
      EventsKept(s, thread, appended.value);
      ActiveRemoved(s, m, thread);
      assert ConnectionOk(m, thread) && StreamOk(m.streams[c.serial]);
      FinishDoes(m, thread, compacted, inserts, now);
    }
  }

  lemma ActiveRemoved(s: State, m: State, thread: ThreadId)
    requires OtherThreads(s, m, thread)
    ensures m.active - {thread} == s.active - {thread}
  {
  }

  lemma FinishDoes(m: State, thread: ThreadId, compacted: Option<seq<Event>>, inserts: bool, now: int)
    requires Inv(m) && Running(m, thread)
    ensures var n, c := Finish(m, thread, compacted, inserts, now), m.active[thread];
            var stores := c.events != [] && compacted.Some? && inserts && !HasRun(m.rows, thread, c.run);
            && n.active == m.active - {thread} && OtherStreams(m, n, c.serial)
            && n.rows == m.rows + (if stores then [Row(thread, c.run, c.parent, compacted.value, now)] else [])
            && Shows(n.streams[c.serial], c.events, stores || c.events == [])
  {
    var c := m.active[thread];
    assert ConnectionOk(m, thread) && StreamOk(m.streams[c.serial]);
    assert m.rows + [] == m.rows;
  }

  /** A run is marked as stopped by a stop that is for it, the first that could abort it; nothing else changes. */
  lemma StopsDoes(s: State, thread: ThreadId, only: Option<RunId>, aborts: bool)
    ensures var n := Next(s, Stops(thread, only, aborts));
            && n.rows == s.rows && n.streams == s.streams && n.active.Keys == s.active.Keys && OtherThreads(s, n, thread)
            && (thread in s.active ==>
                  var c := s.active[thread];
                  && n.active[thread].(stopRequested := c.stopRequested) == c
                  && (n.active[thread].stopRequested <==>
                        c.stopRequested || (aborts && (only.None? || only == Some(c.run)))))
  {
  }

  /** Deleting a thread without a run drops its rows, and no other and in no other order. */
  lemma DeletesDoes(s: State, thread: ThreadId)
    ensures var n := Next(s, Deletes(thread));
            && n.active == s.active && n.streams == s.streams
            && n.rows == if thread in s.active then s.rows else Keep(s.rows, thread)
  {
  }

  lemma {:induction false} KeepIs(a: seq<Row>, b: seq<Row>, row: Row, thread: ThreadId)
    ensures Keep(a + b, thread) == Keep(a, thread) + Keep(b, thread)
    ensures Keep([row], thread) == if row.thread == thread then [] else [row]
  {
    assert [row][..0] == [];
    if b == [] {
      assert a + b == a;
    } else {
      KeepIs(a, b[..|b| - 1], row, thread);
      assert (a + b)[..|a + b| - 1] == a + b[..|b| - 1];
    }
  }
}
