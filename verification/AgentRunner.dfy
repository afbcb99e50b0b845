/**
 * The runner as it works: a map of active connections, the table of stored runs, and the streams of subscribers, changed
 * in place. Every call is proved to do what `RunHistory.Next` says.
 */
module AgentRunner {
  import opened Common
  import opened RunHistory

  class SqliteAgentRunner {
    var rows: seq<Row>
    var activeConnections: map<ThreadId, Connection>
    var streams: seq<Stream>

    ghost function View(): State reads this { State(rows, activeConnections, streams) }

    constructor ()
      ensures View() == Empty
    {
      rows, activeConnections, streams := [], map[], [];
    }

    /** The newest row of the thread, by time of creation. */
    method LatestRun(thread: ThreadId) returns (latest: Option<nat>)
      ensures latest.Some? ==> IsLatest(rows, thread, latest.value)
      ensures latest.None? <==> forall r | r in rows :: r.thread != thread
    {
      latest := None;
      for i := 0 to |rows|
        invariant latest.Some? ==>
                    && latest.value < i && rows[latest.value].thread == thread
                    && forall k | 0 <= k < i && rows[k].thread == thread :: rows[k].createdAt <= rows[latest.value].createdAt
        invariant latest.None? ==> forall k | 0 <= k < i :: rows[k].thread != thread
      {
        if rows[i].thread == thread && (latest.None? || rows[latest.value].createdAt <= rows[i].createdAt) {
          latest := Some(i);
        }
      }
      if latest.Some? { assert rows[latest.value] in rows; }
    }

    /** Takes the thread's slot, and reads the run to follow; a read that fails makes the run a root. */
    method Run(thread: ThreadId, run: RunId, historyReads: bool, latestReads: bool)
      returns (refused: bool, ghost latest: Option<nat>)
      requires Inv(View())
      modifies this
      ensures OpOk(old(View()), Start(thread, run, historyReads, latest))
      ensures View() == Next(old(View()), Start(thread, run, historyReads, latest)) && Inv(View())
      ensures refused <==> thread in old(activeConnections) || !historyReads
      ensures latest.Some? <==> !refused && latestReads && exists r | r in old(rows) :: r.thread == thread
    {
      latest := None;
      if thread in activeConnections || !historyReads { return true, latest; }
      var found := None;
      if latestReads { found := LatestRun(thread); }
      latest := found;
      NextKept(View(), Start(thread, run, historyReads, found));
      var parent := if found.Some? then Some(rows[found.value].run) else None;
      activeConnections := activeConnections[thread := Connection(|streams|, run, parent, [], [], false)];
      streams := streams + [Stream([], Open, [])];
      refused := false;
    }

    /** `onEvent`: recorded, and sent on unless it is terminal. */
    method OnEvent(thread: ThreadId, e: Event)
      requires Running(View(), thread)
      modifies this`activeConnections, this`streams
      ensures View() == RunHistory.OnEvent(old(View()), thread, e)
    {
      var c := activeConnections[thread];
      var stream := streams[c.serial];
      stream := stream.(seen := stream.seen + [e]);
      c := c.(events := c.events + [e]);
      if Terminal(e) {
        c := c.(pending := c.pending + [e]);
      } else {
        stream := stream.(sent := stream.sent + [e]);
      }
      activeConnections := activeConnections[thread := c];
      streams := streams[c.serial := stream];
    }

    method FinalizeEvents(thread: ThreadId, appended: seq<Event>)
      requires Running(View(), thread)
      modifies this`activeConnections, this`streams
      ensures View() == OnEvents(old(View()), thread, appended) && Running(View(), thread)
    {
      var i := 0;
      assert appended[0..] == appended;
      while i < |appended|
        invariant 0 <= i <= |appended| && Running(View(), thread)
        invariant OnEvents(View(), thread, appended[i..]) == OnEvents(old(View()), thread, appended)
      {
        assert appended[i..][0] == appended[i] && appended[i..][1..] == appended[i + 1..];
        OnEvent(thread, appended[i]);
        i := i + 1;
      }
    }

    method CloseStream(thread: ThreadId, status: StreamStatus, last: seq<Event>)
      requires Running(View(), thread)
      modifies this`activeConnections, this`streams
      ensures View() == Close(Release(old(View()), thread), old(activeConnections)[thread].serial, status, last)
    {
      var serial := activeConnections[thread].serial;
      activeConnections := activeConnections - {thread};
      streams := streams[serial := streams[serial].(sent := streams[serial].sent + last, status := status)];
    }

    /** The agent is done or has thrown: finalise, store, and only then show what is terminal. */
    method Settle(thread: ThreadId, appended: Option<seq<Event>>, compacted: Option<seq<Event>>, inserts: bool, now: int)
      requires Running(View(), thread)
      modifies this
      ensures View() == Next(old(View()), Settles(thread, appended, compacted, inserts, now))
    {
      if appended.None? {
        CloseStream(thread, Failed, []);
        return;
      }
      FinalizeEvents(thread, appended.value);
      var c := activeConnections[thread];
      if c.events != [] {
        if compacted.None? || !inserts || HasRun(rows, thread, c.run) {
          CloseStream(thread, Failed, []);
          return;
        }
        rows := rows + [Row(thread, c.run, c.parent, compacted.value, now)];
      }
      CloseStream(thread, Complete, c.pending);
    }

    method Stop(thread: ThreadId, only: Option<RunId>, aborts: bool) returns (stopped: bool)
      modifies this`activeConnections
      ensures View() == Next(old(View()), Stops(thread, only, aborts))
      ensures stopped <==>
                && thread in old(activeConnections) && !old(activeConnections)[thread].stopRequested && aborts
                && (only.None? || only == Some(old(activeConnections)[thread].run))
    {
      if thread !in activeConnections { return false; }
      var c := activeConnections[thread];
      if only.Some? && only.value != c.run { return false; }
      if c.stopRequested { return false; }
      activeConnections := activeConnections[thread := c.(stopRequested := true)];
      if !aborts {
        activeConnections := activeConnections[thread := c];
        return false;
      }
      return true;
    }

    method DeleteThread(thread: ThreadId) returns (refused: bool)
      modifies this`rows
      ensures View() == Next(old(View()), Deletes(thread)) && (refused <==> thread in activeConnections)
    {
      if thread in activeConnections { return true; }
      rows := Keep(rows, thread);
      return false;
    }
  }
}
