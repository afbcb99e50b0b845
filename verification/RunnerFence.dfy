/**
 * When a run that has lost its fence still makes a finish request.
 *
 * The server refuses puts of a run whose fence is lost, whatever they are: chunks, heartbeats, reports. A refused chunk
 * fails the collection and a refused heartbeat is remembered, but a report's refusal goes to the collector, which may
 * throw it on or not.
 */
module RunnerFence {
  import opened Common
  import opened Runner
  import opened RunnerInvariant
  import Theorems = RunnerTheorems

  /** The codes by which the server says that the fence is lost: by name, or by knowing no such operation. */
  predicate Lost(e: ErrorCode) { e.OperationFenceLost? || e.OperationNotFound? }

  /** The rule of the server's refusals, code by code. */
  lemma StopIs(e: ErrorCode)
    ensures StopFor(e).FenceIsLost? <==> Lost(e)
    ensures StopFor(e).AlreadyRunning? <==> e.OperationInProgress?
  {
  }

  predicate LostIn(e: Option<ErrorCode>) { e.Some? && Lost(e.value) }

  /** A put, of whatever kind, comes back refused because the fence is lost. */
  predicate LosesFence(s: Run, e: Event) { e.HeadSettles? && s.chain != [] && LostIn(e.refusal) }

  /**
   * The run learns that its fence is lost: by a refused chunk, by a refused heartbeat unless it is draining another
   * failure, or by an error that is thrown to it. A report's refusal is such an error if the collector throws it on.
   */
  predicate LearnsOfLoss(s: Run, e: Event) {
    match e
    case HeadSettles(refusal) =>
      LosesFence(s, e) &&
      (s.chain[0].ChunkPut? || (s.chain[0].HeartbeatPut? && !s.place.DrainingFailure? && !Over(s.place)))
    case Throws(error) => s.place.Collecting? && Lost(error)
    case StreamCloses(failure) => s.place.StoppingStream? && LostIn(failure)
    case AcquireSettles(error, siteError) =>
      s.place.Acquiring? && LostIn(if error.Some? then error else siteError)
    case ChainDrains(summary) =>
      s.place.Draining? && s.chain == [] && s.outcome.None? && summary.Rejected? && Lost(summary.reason)
    case _ => false
  }

  predicate Learns(s: Run, events: seq<Event>)
    decreases |events|
  {
    events != [] && (LearnsOfLoss(s, events[0]) || Learns(Next(s, events[0]), events[1..]))
  }

  /** A run that stands here, with this heartbeat loss and these finish requests, has no way left to a finish request. */
  predicate NoWayLeft(place: Place, stop: Option<ErrorCode>, finishes: seq<Finish>) {
    finishes == [] &&
    match place
    case ClosingStream(e) => Lost(e) || stop.Some?
    case DrainingFailure(_) => false
    case FinishingFailure(_) => false
    case Releasing(_) => true
    case Ended(_) => true
    case _ => stop.Some?
  }

  predicate Doomed(s: Run) { NoWayLeft(s.place, s.heartbeatStop, s.finishes) }

  predicate WasCancelled(s: Run) { Over(s.place) && s.place.ending.Cancelled? }

  predicate DoomedByLoss(s: Run) { Doomed(s) && !WasCancelled(s) }

  // ---- Every event -----------------------------------------------------------------------------------------------

  /** As much of the run's invariant as this needs. */
  predicate Basics(s: Run) {
    && FinishesOk(s.place, s.finishes)
    && (s.heartbeatStop.Some? ==> Lost(s.heartbeatStop.value))
    && (s.chain != [] ==>
          s.finishes == [] && !s.place.Acquiring? && !s.place.Finishing? && !s.place.FinishingFailure?
          && (s.chain[0].ChunkPut? ==> s.place.Sending?))
  }

  lemma InvBasics(s: Run)
    requires Inv(s)
    ensures Basics(s)
  {
    if s.chain != [] { HeadOf(s.place, s.chain); }
  }

  /** What `Catch` makes of a run without a finish. */
  lemma CatchDooms(s: Run, e: ErrorCode)
    requires s.finishes == []
    requires s.heartbeatStop.Some? ==> Lost(s.heartbeatStop.value)
    ensures Lost(e) || s.heartbeatStop.Some? ==> Doomed(Catch(s, e))
    ensures DoomedByLoss(Catch(s, e)) ==> Lost(e) || s.heartbeatStop.Some?
  {
  }

  lemma ChunkSettledFields(s: Run, refusal: Option<ErrorCode>)
    requires s.chain != [] && s.chain[0].ChunkPut?
    ensures var n := OnHeadSettled(s, refusal);
            && n.place == (if refusal.Some? then ClosingStream(refusal.value) else Collecting)
            && n.heartbeatStop == s.heartbeatStop && n.finishes == s.finishes
  {
    var s1 := s.(chain := s.chain[1..]);
    assert OnHeadSettled(s, refusal) == OnChunkSettled(s1, s.chain[0], refusal);
    if refusal.None? { assert ScheduleHeartbeat(s1).finishes == s.finishes; }
  }

  lemma HeartbeatSettledFields(s: Run, refusal: Option<ErrorCode>)
    requires s.chain != [] && !s.chain[0].ChunkPut?
    ensures var n := OnHeadSettled(s, refusal);
            && n.place == s.place && n.finishes == s.finishes
            && n.heartbeatStop == (if s.chain[0].HeartbeatPut? && LostIn(refusal) then refusal else s.heartbeatStop)
  {
    var s1 := s.(chain := s.chain[1..]);
    if s.chain[0].HeartbeatPut? {
      assert OnHeadSettled(s, refusal) == OnHeartbeatSettled(s1, refusal);
    }
  }

  lemma HeadStep(s: Run, refusal: Option<ErrorCode>)
    requires Basics(s) && s.chain != []
    ensures var e, n := HeadSettles(refusal), OnHeadSettled(s, refusal);
            && (Doomed(s) || LearnsOfLoss(s, e) ==> Doomed(n))
            && (DoomedByLoss(n) ==> DoomedByLoss(s) || LearnsOfLoss(s, e))
  {
    if s.chain[0].ChunkPut? { ChunkSettledFields(s, refusal); } else { HeartbeatSettledFields(s, refusal); }
  }

  lemma ClosesStep(s: Run, failure: Option<ErrorCode>)
    requires Basics(s)
    ensures var e := StreamCloses(failure); var n := Next(s, e);
            && (Doomed(s) || LearnsOfLoss(s, e) ==> Doomed(n))
            && (DoomedByLoss(n) ==> DoomedByLoss(s) || LearnsOfLoss(s, e))
  {
    if s.place.ClosingStream? { CatchDooms(s, s.place.error); }
  }

  lemma DrainsStep(s: Run, summary: Result<Outcome, ErrorCode>)
    requires Basics(s)
    ensures var e := ChainDrains(summary); var n := Next(s, e);
            && (Doomed(s) || LearnsOfLoss(s, e) ==> Doomed(n))
            && (DoomedByLoss(n) ==> DoomedByLoss(s) || LearnsOfLoss(s, e))
  {
    if s.chain == [] && s.place.Draining? {
      if s.heartbeatStop.Some? { CatchDooms(s, s.heartbeatStop.value); }
      else if !s.callerAborted && s.outcome.None? && summary.Rejected? {
        CatchDooms(s.(summarized := Some((s.tally.chunks, s.tally.items))), summary.reason);
      }
    }
  }

  lemma AcquireStep(s: Run, error: Option<ErrorCode>, siteError: Option<ErrorCode>)
    requires Basics(s) && s.place.Acquiring?
    ensures var e, n := AcquireSettles(error, siteError), OnAcquire(s, error, siteError);
            && (Doomed(s) || LearnsOfLoss(s, e) ==> Doomed(n))
            && (DoomedByLoss(n) ==> DoomedByLoss(s) || LearnsOfLoss(s, e))
  {
    if error.Some? { CatchDooms(s, error.value); }
    else if siteError.Some? { CatchDooms(s.(leased := true), siteError.value); }
  }

  lemma FinishStep(s: Run, refusal: Option<ErrorCode>)
    requires s.finishes != []
    ensures OnFinishSettled(s, refusal).finishes != []
  {
    if !s.place.FinishingFailure? && refusal.Some? {
      assert Catch(s.(finishes := Answered(s.finishes, refusal)), refusal.value).finishes != [];
    }
  }

  lemma YieldFields(s: Run, c: Chunk)
    ensures var n := OnYield(s, c);
            && n.heartbeatStop == s.heartbeatStop && n.finishes == s.finishes
            && (n.place.Sending? || n.place.StoppingStream?
                || n.place == ClosingStream(CollectFailed) || n.place == ClosingStream(ChunkTooLarge))
  {
    var t := Yielded(s.tally, c);
    if s.localAborted {
      assert OnYield(s, c) == s.(tally := t, place := StoppingStream);
    } else if c.kind.HeartbeatKind? {
      assert OnYield(s, c) == s.(tally := t, place := ClosingStream(CollectFailed));
    } else if c.payload > 0 && (c.bytes > OPERATION_CHUNK_MAX_BYTES || t.chunks >= OPERATION_CHUNKS_MAX) {
      assert OnYield(s, c) == s.(tally := t, place := ClosingStream(ChunkTooLarge));
    } else {
      var p := PutFor(t, c);
      assert OnYield(s, c) == Write(s, p).(tally := Sent(t, p), place := Sending(p));
    }
  }

  lemma YieldStep(s: Run, c: Chunk)
    ensures Doomed(s) ==> Doomed(Next(s, Yields(c)))
    ensures DoomedByLoss(Next(s, Yields(c))) ==> DoomedByLoss(s)
  {
    if s.place.Collecting? {
      YieldFields(s, c);
      assert Next(s, Yields(c)) == OnYield(s, c);
    }
  }

  lemma ReturnStep(s: Run, result: Option<Outcome>)
    ensures Doomed(s) ==> Doomed(Next(s, Returns(result)))
    ensures DoomedByLoss(Next(s, Returns(result))) ==> DoomedByLoss(s)
  {
    if s.place.Collecting? {
      assert EndCollection(s).heartbeatStop == s.heartbeatStop && EndCollection(s).finishes == s.finishes;
    }
  }

  /** The events that end the collection by a throw, or the run. */
  lemma EndStep(s: Run, e: Event)
    requires Basics(s) && (e.Throws? || e.ReleaseSettles?)
    ensures Doomed(s) || LearnsOfLoss(s, e) ==> Doomed(Next(s, e))
    ensures DoomedByLoss(Next(s, e)) ==> DoomedByLoss(s) || LearnsOfLoss(s, e)
  {
    if e.Throws? {
      if s.place.Collecting? { assert Next(s, e) == s.(place := ClosingStream(e.error)); }
    } else if s.place.Releasing? {
      assert Next(s, e) == s.(place := Ended(s.place.ending));
    }
  }

  lemma TimeStep(s: Run, e: Event)
    requires e.CallerAborts? || e.Reports? || e.TimerFires?
    ensures var n := Next(s, e); n.place == s.place && n.heartbeatStop == s.heartbeatStop && n.finishes == s.finishes
  {
  }

  /** Once doomed a run stays so, and it gets so exactly by learning of a loss or by being cancelled. */
  lemma DoomStep(s: Run, e: Event)
    requires Basics(s)
    ensures Doomed(s) || LearnsOfLoss(s, e) ==> Doomed(Next(s, e))
    ensures DoomedByLoss(Next(s, e)) ==> DoomedByLoss(s) || LearnsOfLoss(s, e)
  {
    if e.HeadSettles? { if s.chain != [] { HeadStep(s, e.refusal); } }
    else if e.StreamCloses? { ClosesStep(s, e.failure); }
    else if e.ChainDrains? { DrainsStep(s, e.summary); }
    else if e.AcquireSettles? { if s.place.Acquiring? { AcquireStep(s, e.lockError, e.siteError); } }
    else if e.FinishSettles? { if s.finishes != [] { FinishStep(s, e.refusal); } }
    else if e.CallerAborts? || e.Reports? || e.TimerFires? { TimeStep(s, e); }
    else if e.Yields? { YieldStep(s, e.chunk); }
    else if e.Returns? { ReturnStep(s, e.result); }
    else { EndStep(s, e); }
  }

  lemma {:induction false} DoomPlays(s: Run, events: seq<Event>)
    requires Inv(s)
    ensures Doomed(s) || Learns(s, events) ==> Doomed(Play(s, events))
    ensures DoomedByLoss(Play(s, events)) ==> DoomedByLoss(s) || Learns(s, events)
    decreases |events|
  {
    if events != [] {
      InvBasics(s);
      DoomStep(s, events[0]);
      NextKept(s, events[0]);
      DoomPlays(Next(s, events[0]), events[1..]);
    }
  }

  // ---- Whole runs ------------------------------------------------------------------------------------------------

  /**
   * A run that learns of the loss of its fence never makes a finish request. Of the runs that are over and were not
   * cancelled, exactly those made one that never learned of a loss.
   */
  lemma FinishUnlessLearned(aborted: bool, events: seq<Event>)
    ensures var r, learned := Play(Begin(aborted), events), Learns(Begin(aborted), events);
            && (learned ==> r.finishes == [])
            && (Over(r.place) && !WasCancelled(r) ==> (r.finishes == [] <==> learned))
  {
    BeginInv(aborted);
    PlayKept(Begin(aborted), events);
    DoomPlays(Begin(aborted), events);
  }

  lemma {:induction false} LearnsAppends(s: Run, first: seq<Event>, second: seq<Event>)
    ensures Learns(s, first + second) <==> Learns(s, first) || Learns(Play(s, first), second)
    decreases |first|
  {
    if first == [] {
      assert first + second == second;
    } else {
      assert (first + second)[1..] == first[1..] + second;
      LearnsAppends(Next(s, first[0]), first[1..], second);
    }
  }

  /** The refusal of this put does not reach the run: a report's, or a heartbeat's while another failure is drained. */
  predicate PassesBy(s: Run)
    requires s.chain != []
  {
    s.chain[0].ReportPut? || (s.chain[0].HeartbeatPut? && s.place.DrainingFailure?)
  }

  /**
   * Whenever a put is refused because the fence is lost, the run makes a finish request all the same if and only if that
   * refusal passes it by and it learns of no loss before or after; unless it was cancelled.
   */
  lemma FinishAfterRefusedPut(aborted: bool, before: seq<Event>, refusal: Option<ErrorCode>, after: seq<Event>)
    requires LosesFence(Play(Begin(aborted), before), HeadSettles(refusal))
    ensures var s := Play(Begin(aborted), before); var n := Next(s, HeadSettles(refusal)); var r := Play(n, after);
            && s.finishes == []
            && (s.chain[0].ChunkPut? ==> r.finishes == [])
            && (Over(r.place) && !WasCancelled(r) ==>
                  (r.finishes != [] <==> PassesBy(s) && !Learns(Begin(aborted), before) && !Learns(n, after)))
  {
    var e := HeadSettles(refusal);
    var s := Play(Begin(aborted), before);
    BeginInv(aborted);
    PlayKept(Begin(aborted), before);
    DoomPlays(Begin(aborted), before);
    Theorems.PlayAppends(Begin(aborted), before, [e] + after);
    LearnsAppends(Begin(aborted), before, [e] + after);
    assert ([e] + after)[1..] == after;
    FinishUnlessLearned(aborted, before + ([e] + after));
    DoomPlays(s, [e] + after);
  }

  // ---- Such runs -------------------------------------------------------------------------------------------------

  /** A report finds the fence lost, and the collector does not throw that on. */
  function ReportsInVain(): seq<Event> {
    [AcquireSettles(None, None), Reports, HeadSettles(Some(OperationFenceLost))]
  }

  lemma ReportsInVainDoes()
    ensures var s := Play(Begin(false), ReportsInVain());
            && s.place.Collecting? && s.chain == [] && s.finishes == [] && s.heartbeatStop.None?
            && !s.callerAborted && s.outcome.None?
    ensures LosesFence(Play(Begin(false), ReportsInVain()[..2]), ReportsInVain()[2])
  {
    var events := ReportsInVain();
    var s1 := Next(Begin(false), events[0]);
    var s2 := Next(s1, events[1]);
    assert s2.chain == [ReportPut];
    Theorems.PlayOne(s2, events[2]);
    Theorems.PlayOne(s1, events[1]);
    assert events[1..][1..] == [events[2]] && events[..2][1..] == [events[1]];
    assert Play(Begin(false), events) == Play(s1, events[1..]) == Play(s2, [events[2]]);
    assert Play(Begin(false), events[..2]) == Play(s1, [events[1]]);
  }

  /** It then returns: the run sends a good finish. */
  lemma GoodFinishAfterLostReport()
    ensures var rest := [Returns(Some(Succeeded)), ChainDrains(Rejected(CollectFailed))];
            Play(Begin(false), ReportsInVain() + rest).finishes == [GoodFinish(Succeeded, Awaited)]
  {
    var rest := [Returns(Some(Succeeded)), ChainDrains(Rejected(CollectFailed))];
    ReportsInVainDoes();
    Theorems.PlayAppends(Begin(false), ReportsInVain(), rest);
    var s := Play(Begin(false), ReportsInVain());
    var s1 := Next(s, rest[0]);
    assert s1.place.Draining? && s1.chain == [] && s1.finishes == [];
    Theorems.PlayOne(s1, rest[1]);
    assert rest[1..] == [rest[1]];
    assert Play(s, rest) == Play(s1, rest[1..]);
  }

  /** Or it fails for another reason: the run sends a failed one. */
  lemma FailedFinishAfterLostReport()
    ensures var rest := [Throws(CollectFailed), StreamCloses(None), ChainDrains(Rejected(CollectFailed))];
            Play(Begin(false), ReportsInVain() + rest).finishes == [FailedFinish(CollectFailed, Awaited)]
  {
    var rest := [Throws(CollectFailed), StreamCloses(None), ChainDrains(Rejected(CollectFailed))];
    ReportsInVainDoes();
    Theorems.PlayAppends(Begin(false), ReportsInVain(), rest);
    var s := Play(Begin(false), ReportsInVain());
    var s1 := Next(s, rest[0]);
    var s2 := Next(s1, rest[1]);
    assert s2.place == DrainingFailure(CollectFailed) && s2.chain == [] && s2.finishes == [];
    Theorems.PlayOne(s2, rest[2]);
    assert rest[1..][1..] == [rest[2]];
    assert Play(s, rest) == Play(s1, rest[1..]) == Play(s2, [rest[2]]);
  }
}
