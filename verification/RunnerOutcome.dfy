/** Where every event takes a run, what it writes, and what the finish requests of a whole run carry. */
module RunnerOutcome {
  import opened Common
  import opened Runner
  import opened RunnerInvariant
  import Fence = RunnerFence

  // ---- Errors ----------------------------------------------------------------------------------------------------

  /** A chunk that is not to be sent: of the reserved kind, or not empty and too large or one too many. */
  predicate Unfit(s: Run, c: Chunk) { c.kind.HeartbeatKind? || TooMuch(s, c) }

  predicate TooMuch(s: Run, c: Chunk) { c.payload > 0 && (c.bytes > 1024 * 1024 || |s.tally.acked| >= 1_000) }

  /** The error that this event throws while the stream is open, if it does. */
  function Thrown(s: Run, e: Event): Option<ErrorCode> {
    match e
    case Throws(error) => if s.place.Collecting? then Some(error) else None
    case Yields(c) =>
      if !s.place.Collecting? || s.localAborted || !Unfit(s, c) then None
      else Some(if c.kind.HeartbeatKind? then CollectFailed else ChunkTooLarge)
    case HeadSettles(refusal) => if s.chain != [] && s.chain[0].ChunkPut? then refusal else None
    case StreamCloses(failure) => if s.place.StoppingStream? then failure else None
    case _ => None
  }

  /** The error that this event brings to the run's `catch`, if it does. */
  function Caught(s: Run, e: Event): Option<ErrorCode> {
    match e
    case AcquireSettles(lockError, siteError) =>
      if !s.place.Acquiring? then None else if lockError.Some? then lockError else siteError
    case StreamCloses(_) => if s.place.ClosingStream? then Some(s.place.error) else None
    case ChainDrains(summary) =>
      if s.chain != [] || !s.place.Draining? then None
      else if s.heartbeatStop.Some? then s.heartbeatStop
      else if s.callerAborted || s.outcome.Some? || summary.Ok? then None
      else Some(summary.reason)
    case FinishSettles(refusal) => if s.place.Finishing? then refusal else None
    case _ => None
  }

  /** A lost fence or a cancellation ends the run at once; any other error is finished as a failure. */
  function Landing(s: Run, error: ErrorCode): Place {
    if s.heartbeatStop.Some? then Releasing(FenceLost)
    else if s.callerAborted then Releasing(Cancelled)
    else if Fence.Lost(error) then Releasing(FenceLost)
    else DrainingFailure(error)
  }

  lemma CatchLands(s: Run, error: ErrorCode)
    requires s.heartbeatStop.Some? ==> Fence.Lost(s.heartbeatStop.value)
    ensures Catch(s, error).place == Landing(s, error)
    ensures Catch(s, error).collectionDone && !Catch(s, error).timerArmed
  {
  }

  // ---- What an event writes --------------------------------------------------------------------------------------

  /** The put for a chunk: the next number of its kind, which an empty one does not take and which is then capped. */
  function PutOf(s: Run, c: Chunk): Put {
    var next := CountOf(s.tally.sent, c.kind) + 1;
    ChunkPut(c.kind, if c.payload > 0 then next else Min(next, 1_000), c.payload)
  }

  /** A chunk that is to be sent. */
  predicate Sends(s: Run, e: Event) { e.Yields? && s.place.Collecting? && !s.localAborted && !Unfit(s, e.chunk) }

  function Written(s: Run, e: Event): seq<Put> {
    if Sends(s, e) then [PutOf(s, e.chunk)]
    else if e.Reports? && !s.place.Acquiring? && !s.collectionDone && !s.localAborted then [ReportPut]
    else if e.TimerFires? && s.timerArmed then [HeartbeatPut]
    else []
  }

  function AfterHead(s: Run, e: Event): seq<Put> { if e.HeadSettles? && s.chain != [] then s.chain[1..] else s.chain }

  // ---- Where an event takes the run ------------------------------------------------------------------------------

  function PlaceAfter(s: Run, e: Event): Place {
    if Thrown(s, e).Some? then ClosingStream(Thrown(s, e).value)
    else if Caught(s, e).Some? then Landing(s, Caught(s, e).value)
    else if Sends(s, e) then Sending(PutOf(s, e.chunk))
    else Onward(s, e)
  }

  /** Where an event takes the run that throws nothing. */
  function Onward(s: Run, e: Event): Place {
    match s.place
    case Acquiring => if e.AcquireSettles? then Collecting else s.place
    case Collecting => if e.Yields? then StoppingStream else if e.Returns? then Draining else s.place
    case Sending(_) => if e.HeadSettles? && s.chain != [] && s.chain[0].ChunkPut? then Collecting else s.place
    case StoppingStream => if e.StreamCloses? then Draining else s.place
    case Draining =>
      if !e.ChainDrains? || s.chain != [] then s.place else if s.callerAborted then Releasing(Cancelled) else Finishing
    case Finishing => if e.FinishSettles? then Releasing(Finished) else s.place
    case DrainingFailure(error) => if e.ChainDrains? && s.chain == [] then FinishingFailure(error) else s.place
    case FinishingFailure(error) => if e.FinishSettles? then Releasing(Failed(error)) else s.place
    case Releasing(ending) => if e.ReleaseSettles? then Ended(ending) else s.place
    case _ => s.place
  }

  /** The result of the collector, as this event leaves it. */
  function OutcomeAfter(s: Run, e: Event): Option<Outcome> {
    if e.Returns? && s.place.Collecting? then e.result else s.outcome
  }

  predicate HeartbeatLoss(s: Run, e: Event) { Fence.LosesFence(s, e) && s.chain[0].HeartbeatPut? }

  /** Every write has settled, and nothing keeps the run from its good finish. */
  predicate FreeToFinish(s: Run, e: Event) {
    e.ChainDrains? && s.place.Draining? && s.chain == [] && s.heartbeatStop.None? && !s.callerAborted
  }

  /** The outcome of the good finish that is sent here, if one is: what was returned, or else the summary's. */
  function GoodSent(s: Run, e: Event, returned: Option<Outcome>): Option<Outcome> {
    if !FreeToFinish(s, e) then None
    else if returned.Some? then returned
    else if e.summary.Ok? then Some(e.summary.value)
    else None
  }

  function FinishesAfter(s: Run, e: Event): seq<Finish> {
    if GoodSent(s, e, s.outcome).Some? then s.finishes + [GoodFinish(GoodSent(s, e, s.outcome).value, Awaited)]
    else if e.ChainDrains? && s.place.DrainingFailure? && s.chain == []
    then s.finishes + [FailedFinish(s.place.error, Awaited)]
    else if e.FinishSettles? && (s.place.Finishing? || s.place.FinishingFailure?) && s.finishes != []
    then s.finishes[..|s.finishes| - 1]
         + [s.finishes[|s.finishes| - 1].(reply := if e.refusal.None? then Accepted else Refused)]
    else s.finishes
  }

  /** What every event does to where the run stands, what it has to write, and what it knows. */
  ghost predicate Does(s: Run, e: Event, n: Run) {
    && n.place == PlaceAfter(s, e)
    && n.chain == AfterHead(s, e) + Written(s, e)
    && n.outcome == OutcomeAfter(s, e)
    && n.callerAborted == (s.callerAborted || e.CallerAborts?)
    && n.heartbeatStop == (if HeartbeatLoss(s, e) then e.refusal else s.heartbeatStop)
    && n.finishes == FinishesAfter(s, e)
    && n.localAborted == (s.localAborted || e.CallerAborts? || HeartbeatLoss(s, e)
                         || (Over(n.place) && !Over(s.place)))
    && n.leased == (s.leased || (e.AcquireSettles? && s.place.Acquiring? && e.lockError.None?))
  }

  lemma CatchKeeps(s: Run, error: ErrorCode)
    ensures var n := Catch(s, error);
            && n.chain == s.chain && n.outcome == s.outcome && n.callerAborted == s.callerAborted
            && n.heartbeatStop == s.heartbeatStop && n.leased == s.leased && n.finishes == s.finishes
  {
  }

  lemma AcquireDoes(s: Run, e: Event)
    requires Inv(s) && e.AcquireSettles? && s.place.Acquiring?
    ensures Does(s, e, Next(s, e))
  {
    if e.lockError.Some? {
      CatchLands(s, e.lockError.value);
      CatchKeeps(s, e.lockError.value);
    } else if e.siteError.Some? {
      CatchLands(s.(leased := true), e.siteError.value);
      CatchKeeps(s.(leased := true), e.siteError.value);
    }
  }

  lemma YieldDoes(s: Run, e: Event)
    requires Inv(s) && e.Yields? && s.place.Collecting?
    ensures Does(s, e, Next(s, e))
  {
    var c := e.chunk;
    var t := Yielded(s.tally, c);
    assert t.chunks == |s.tally.acked| && LastSequence(t, c.kind) == CountOf(s.tally.sent, c.kind);
    if s.localAborted {
      assert OnYield(s, c) == s.(tally := t, place := StoppingStream);
    } else if c.kind.HeartbeatKind? {
      assert OnYield(s, c) == s.(tally := t, place := ClosingStream(CollectFailed));
    } else if TooMuch(s, c) {
      assert OnYield(s, c) == s.(tally := t, place := ClosingStream(ChunkTooLarge));
    } else {
      var p := PutFor(t, c);
      assert p == PutOf(s, c);
      assert OnYield(s, c) == Write(s, p).(tally := Sent(t, p), place := Sending(p));
    }
  }

  lemma ChunkHeadDoes(s: Run, e: Event)
    requires Inv(s) && e.HeadSettles? && s.chain != [] && s.chain[0].ChunkPut?
    ensures Does(s, e, Next(s, e))
  {
    HeadOf(s.place, s.chain);
    var s1 := s.(chain := s.chain[1..]);
    assert Next(s, e) == OnChunkSettled(s1, s.chain[0], e.refusal);
    if e.refusal.None? { ScheduleKeeps(s1); }
    assert Written(s, e) == [] && s1.chain + [] == s1.chain;
  }

  lemma HeartbeatHeadDoes(s: Run, e: Event)
    requires e.HeadSettles? && s.chain != [] && s.chain[0].HeartbeatPut?
    ensures Does(s, e, Next(s, e))
  {
    var s1 := s.(chain := s.chain[1..]);
    assert Next(s, e) == OnHeartbeatSettled(s1, e.refusal);
    assert Thrown(s, e).None? && Caught(s, e).None? && !Sends(s, e);
    assert Written(s, e) == [] && s1.chain + [] == s1.chain;
    if !HeartbeatLoss(s, e) { ScheduleKeeps(s1); }
  }

  lemma ReportHeadDoes(s: Run, e: Event)
    requires e.HeadSettles? && s.chain != [] && s.chain[0].ReportPut?
    ensures Does(s, e, Next(s, e))
  {
    var s1 := s.(chain := s.chain[1..]);
    ScheduleKeeps(s1);
    assert Next(s, e) == if e.refusal.None? then ScheduleHeartbeat(s1) else s1;
    assert Thrown(s, e).None? && Caught(s, e).None? && !Sends(s, e);
    assert Written(s, e) == [] && s1.chain + [] == s1.chain;
  }

  lemma SettledDoes(s: Run, e: Event)
    requires Inv(s) && e.HeadSettles? && s.chain != []
    ensures Does(s, e, Next(s, e))
  {
    match s.chain[0]
    case ChunkPut(_, _, _) => ChunkHeadDoes(s, e);
    case HeartbeatPut => HeartbeatHeadDoes(s, e);
    case ReportPut => ReportHeadDoes(s, e);
  }

  lemma ScheduleKeeps(s: Run)
    ensures ScheduleHeartbeat(s).(timerArmed := s.timerArmed) == s
  {
  }

  lemma ClosesDoes(s: Run, e: Event)
    requires Inv(s) && e.StreamCloses? && s.place.ClosingStream?
    ensures Does(s, e, Next(s, e))
  {
    CatchLands(s, s.place.error);
    CatchKeeps(s, s.place.error);
    assert Next(s, e) == Catch(s, s.place.error) && Written(s, e) == [];
  }

  lemma StopsDoes(s: Run, e: Event)
    requires e.StreamCloses? && !s.place.ClosingStream?
    ensures Does(s, e, Next(s, e))
  {
    assert Written(s, e) == [] && s.chain + [] == s.chain;
    if !s.place.StoppingStream? {
      assert Next(s, e) == s;
    } else if e.failure.None? {
      assert Next(s, e) == EndCollection(s).(place := Draining);
    } else {
      assert Next(s, e) == s.(place := ClosingStream(e.failure.value));
    }
  }

  lemma DrainsDoes(s: Run, e: Event)
    requires Inv(s) && e.ChainDrains? && s.chain == []
    ensures Does(s, e, Next(s, e))
  {
    if s.place.Draining? {
      if s.heartbeatStop.Some? {
        CatchLands(s, s.heartbeatStop.value);
        CatchKeeps(s, s.heartbeatStop.value);
      } else if !s.callerAborted {
        var s1 := if s.outcome.Some? then s else s.(summarized := Some((s.tally.chunks, s.tally.items)));
        if s.outcome.None? && e.summary.Rejected? {
          CatchLands(s1, e.summary.reason);
          CatchKeeps(s1, e.summary.reason);
        }
      }
    }
  }

  lemma FinishDoes(s: Run, e: Event)
    requires Inv(s) && e.FinishSettles? && (s.place.Finishing? || s.place.FinishingFailure?)
    ensures Does(s, e, Next(s, e))
  {
    var s1 := s.(finishes := Answered(s.finishes, e.refusal));
    if s.place.Finishing? && e.refusal.Some? {
      CatchLands(s1, e.refusal.value);
      CatchKeeps(s1, e.refusal.value);
    }
  }

  lemma EndsCollectionDoes(s: Run, e: Event)
    requires Inv(s) && s.place.Collecting? && (e.Returns? || e.Throws?)
    ensures Does(s, e, Next(s, e))
  {
    assert Written(s, e) == [] && s.chain + [] == s.chain;
    if e.Returns? { assert Next(s, e) == EndCollection(s).(outcome := e.result, place := Draining); }
  }

  lemma AbortDoes(s: Run)
    ensures Does(s, CallerAborts, Next(s, CallerAborts))
  {
    assert s.chain + [] == s.chain;
  }

  lemma ReleaseDoes(s: Run)
    ensures Does(s, ReleaseSettles, Next(s, ReleaseSettles))
  {
    assert s.chain + [] == s.chain && Written(s, ReleaseSettles) == [];
    if s.place.Releasing? {
      assert Next(s, ReleaseSettles) == s.(place := Ended(s.place.ending));
    } else {
      assert Next(s, ReleaseSettles) == s;
    }
  }

  lemma AddsDoes(s: Run, e: Event)
    requires e.Reports? || e.TimerFires?
    ensures Does(s, e, Next(s, e))
  {
    assert Thrown(s, e).None? && Caught(s, e).None? && !Sends(s, e);
    if Written(s, e) == [] { assert Next(s, e) == s && s.chain + [] == s.chain; }
  }

  /** An event that cannot happen where the run stands. */
  predicate Idle(s: Run, e: Event) {
    match e
    case AcquireSettles(_, _) => !s.place.Acquiring?
    case Yields(_) => !s.place.Collecting?
    case Returns(_) => !s.place.Collecting?
    case Throws(_) => !s.place.Collecting?
    case HeadSettles(_) => s.chain == []
    case ChainDrains(_) => s.chain != []
    case FinishSettles(_) => !s.place.Finishing? && !s.place.FinishingFailure?
    case _ => false
  }

  lemma IdleDoes(s: Run, e: Event)
    requires Idle(s, e)
    ensures Next(s, e) == s && Does(s, e, s)
  {
    assert Thrown(s, e).None? && Caught(s, e).None? && !Sends(s, e);
    assert s.chain + [] == s.chain;
  }

  /** Every event, wherever the run stands, does just this. */
  lemma NextDoes(s: Run, e: Event)
    requires Inv(s)
    ensures Does(s, e, Next(s, e))
  {
    if Idle(s, e) { IdleDoes(s, e); }
    else if e.AcquireSettles? { AcquireDoes(s, e); }
    else if e.Yields? { YieldDoes(s, e); }
    else if e.HeadSettles? { SettledDoes(s, e); }
    else if e.StreamCloses? { if s.place.ClosingStream? { ClosesDoes(s, e); } else { StopsDoes(s, e); } }
    else if e.ChainDrains? { DrainsDoes(s, e); }
    else if e.FinishSettles? { FinishDoes(s, e); }
    else if e.Returns? || e.Throws? { EndsCollectionDoes(s, e); }
    else if e.CallerAborts? { AbortDoes(s); }
    else if e.ReleaseSettles? { ReleaseDoes(s); }
    else { AddsDoes(s, e); }
  }

  // ---- The summary -----------------------------------------------------------------------------------------------

  /** Summarize is asked, for what was acknowledged, exactly when the run is free to finish and nothing was returned. */
  lemma SummaryIsAsked(s: Run, e: Event)
    requires Inv(s)
    ensures Next(s, e).summarized ==
            if FreeToFinish(s, e) && s.outcome.None? then Some((|s.tally.acked|, Items(s.tally.acked))) else s.summarized
  {
    if e.ChainDrains? {
      if s.chain == [] && s.place.Draining? { DrainAsks(s, e.summary); }
    } else if Idle(s, e) {
      IdleDoes(s, e);
    } else {
      OthersDoNotAsk(s, e);
    }
  }

  lemma CatchDoesNotAsk(s: Run, error: ErrorCode)
    ensures Catch(s, error).summarized == s.summarized
  {
  }

  lemma DrainAsks(s: Run, summary: Result<Outcome, ErrorCode>)
    requires Inv(s)
    ensures OnDrained(s, summary).summarized ==
            if s.heartbeatStop.None? && !s.callerAborted && s.outcome.None?
            then Some((|s.tally.acked|, Items(s.tally.acked))) else s.summarized
  {
    if s.heartbeatStop.Some? {
      CatchDoesNotAsk(s, s.heartbeatStop.value);
    } else if !s.callerAborted && s.outcome.None? && summary.Rejected? {
      CatchDoesNotAsk(s.(summarized := Some((s.tally.chunks, s.tally.items))), summary.reason);
    }
  }

  lemma OthersDoNotAsk(s: Run, e: Event)
    requires !e.ChainDrains? && !Idle(s, e)
    ensures Next(s, e).summarized == s.summarized
  {
    match e
    case AcquireSettles(lock, site) =>
      if lock.Some? { CatchDoesNotAsk(s, lock.value); }
      else if site.Some? { CatchDoesNotAsk(s.(leased := true), site.value); }
    case Yields(c) => YieldDoesNotAsk(s, c);
    case HeadSettles(refusal) => HeadDoesNotAsk(s, refusal);
    case StreamCloses(_) => if s.place.ClosingStream? { CatchDoesNotAsk(s, s.place.error); }
    case FinishSettles(refusal) =>
      if s.finishes != [] && !s.place.FinishingFailure? && refusal.Some? {
        CatchDoesNotAsk(s.(finishes := Answered(s.finishes, refusal)), refusal.value);
      }
    case _ =>
  }

  lemma YieldDoesNotAsk(s: Run, c: Chunk)
    ensures OnYield(s, c).summarized == s.summarized
  {
  }

  lemma HeadDoesNotAsk(s: Run, refusal: Option<ErrorCode>)
    requires s.chain != []
    ensures OnHeadSettled(s, refusal).summarized == s.summarized
  {
    var s1 := s.(chain := s.chain[1..]);
    match s.chain[0]
    case ChunkPut(_, _, _) => assert OnHeadSettled(s, refusal) == OnChunkSettled(s1, s.chain[0], refusal);
    case HeartbeatPut => assert OnHeadSettled(s, refusal) == OnHeartbeatSettled(s1, refusal);
    case ReportPut =>
  }

  // ---- What a good finish carries --------------------------------------------------------------------------------

  /** The result that the collector returned in these events, if it returned one. */
  function Returned(s: Run, events: seq<Event>, before: Option<Outcome>): Option<Outcome>
    decreases |events|
  {
    if events == [] then before
    else
      var e := events[0];
      Returned(Next(s, e), events[1..], if e.Returns? && s.place.Collecting? then e.result else before)
  }

  /** The outcome of the good finish that these events send: the collector's, or that of the drain that sends it. */
  function GoodOutcome(s: Run, events: seq<Event>, returned: Option<Outcome>): Option<Outcome>
    decreases |events|
  {
    if events == [] then None
    else
      var e := events[0];
      if GoodSent(s, e, returned).Some? then GoodSent(s, e, returned)
      else GoodOutcome(Next(s, e), events[1..], if e.Returns? && s.place.Collecting? then e.result else returned)
  }

  predicate HasGood(fs: seq<Finish>) { fs != [] && fs[0].GoodFinish? }

  /** A finish that was sent stays the first, with what it carries. */
  lemma {:induction false} FirstFinishStays(s: Run, events: seq<Event>)
    requires Inv(s) && s.finishes != []
    ensures var fs := Play(s, events).finishes;
            && fs != [] && fs[0].GoodFinish? == s.finishes[0].GoodFinish?
            && (fs[0].GoodFinish? ==> fs[0].outcome == s.finishes[0].outcome)
    decreases |events|
  {
    if events != [] {
      NextDoes(s, events[0]);
      NextKept(s, events[0]);
      FirstFinishStays(Next(s, events[0]), events[1..]);
    }
  }

  lemma {:induction false} NoGoodAfterFinish(s: Run, events: seq<Event>, returned: Option<Outcome>)
    requires Inv(s) && s.finishes != []
    ensures GoodOutcome(s, events, returned).None?
    decreases |events|
  {
    if events != [] {
      NextDoes(s, events[0]);
      NextKept(s, events[0]);
      NoGoodAfterFinish(Next(s, events[0]), events[1..], returned);
    }
  }

  lemma {:induction false} GoodOutcomeIs(s: Run, events: seq<Event>)
    requires Inv(s) && s.finishes == []
    ensures var fs, outcome := Play(s, events).finishes, GoodOutcome(s, events, s.outcome);
            && (HasGood(fs) <==> outcome.Some?)
            && (outcome.Some? ==> fs[0].outcome == outcome.value)
    decreases |events|
  {
    if events != [] {
      var n := Next(s, events[0]);
      NextDoes(s, events[0]);
      NextKept(s, events[0]);
      if n.finishes == [] {
        GoodOutcomeIs(n, events[1..]);
      } else {
        FirstFinishStays(n, events[1..]);
        NoGoodAfterFinish(n, events[1..], n.outcome);
      }
    }
  }

  lemma {:induction false} OutcomeIsSent(s: Run, events: seq<Event>, returned: Option<Outcome>) returns (k: nat)
    requires GoodOutcome(s, events, returned).Some?
    ensures k < |events|
    ensures var t := Play(s, events[..k]);
            && FreeToFinish(t, events[k])
            && GoodOutcome(s, events, returned) == GoodSent(t, events[k], Returned(s, events[..k], returned))
    decreases |events|
  {
    var e := events[0];
    if GoodSent(s, e, returned).Some? {
      k := 0;
    } else {
      var after := if e.Returns? && s.place.Collecting? then e.result else returned;
      var rest := OutcomeIsSent(Next(s, e), events[1..], after);
      k := rest + 1;
      assert events[..k][0] == e && events[..k][1..] == events[1..][..rest];
    }
  }

  /**
   * A run sends a good finish exactly if its writes settle while nothing keeps it from finishing and its outcome is known,
   * and the finish carries that outcome: what the collector returned, if it returned a result, and otherwise what
   * summarize gave for the drain that sent it.
   */
  lemma GoodFinishCarries(aborted: bool, events: seq<Event>) returns (k: nat)
    ensures var fs, outcome := Play(Begin(aborted), events).finishes, GoodOutcome(Begin(aborted), events, None);
            && (HasGood(fs) <==> outcome.Some?)
            && (HasGood(fs) ==>
                  && fs[0].outcome == outcome.value && k < |events|
                  && var t, returned := Play(Begin(aborted), events[..k]), Returned(Begin(aborted), events[..k], None);
                     && FreeToFinish(t, events[k])
                     && (returned.Some? ==> fs[0].outcome == returned.value)
                     && (returned.None? ==> events[k].summary == Ok(fs[0].outcome)))
  {
    k := 0;
    BeginInv(aborted);
    GoodOutcomeIs(Begin(aborted), events);
    if GoodOutcome(Begin(aborted), events, None).Some? { k := OutcomeIsSent(Begin(aborted), events, None); }
  }

  // ---- What a failed finish carries ------------------------------------------------------------------------------

  /** The error that this event brings in: of the lease, the collection, the summary or the good finish. */
  function Raised(s: Run, e: Event): Option<ErrorCode> {
    if Thrown(s, e).Some? then Thrown(s, e) else if e.StreamCloses? then None else Caught(s, e)
  }

  /** The last error that these events bring in. */
  function LastRaised(s: Run, events: seq<Event>, before: Option<ErrorCode>): Option<ErrorCode>
    decreases |events|
  {
    if events == [] then before
    else
      var e := events[0];
      LastRaised(Next(s, e), events[1..], if Raised(s, e).Some? then Raised(s, e) else before)
  }

  /** The error of a run that fails, wherever it stands. */
  function Failure(p: Place): Option<ErrorCode> {
    match p
    case ClosingStream(e) => Some(e)
    case DrainingFailure(e) => Some(e)
    case FinishingFailure(e) => Some(e)
    case Releasing(Failed(e)) => Some(e)
    case Ended(Failed(e)) => Some(e)
    case _ => None
  }

  lemma FailureStep(s: Run, e: Event)
    requires Inv(s)
    ensures var p, raised := Next(s, e).place, Raised(s, e);
            Failure(p).Some? ==> Failure(p) == if raised.Some? then raised else Failure(s.place)
  {
    NextDoes(s, e);
    if Thrown(s, e).Some? {
      assert PlaceAfter(s, e) == ClosingStream(Thrown(s, e).value);
    } else if Caught(s, e).Some? {
      assert PlaceAfter(s, e) == Landing(s, Caught(s, e).value);
    } else if Sends(s, e) {
    } else {
      OnwardFails(s, e);
    }
  }

  lemma OnwardFails(s: Run, e: Event)
    ensures Failure(Onward(s, e)).Some? ==> Failure(Onward(s, e)) == Failure(s.place)
  {
  }

  lemma {:induction false} FailureIsLastRaised(s: Run, events: seq<Event>, before: Option<ErrorCode>)
    requires Inv(s) && (Failure(s.place).Some? ==> Failure(s.place) == before)
    ensures var p := Play(s, events).place; Failure(p).Some? ==> Failure(p) == LastRaised(s, events, before)
    decreases |events|
  {
    if events != [] {
      var e := events[0];
      FailureStep(s, e);
      NextKept(s, e);
      FailureIsLastRaised(Next(s, e), events[1..], if Raised(s, e).Some? then Raised(s, e) else before);
    }
  }

  /** A failed finish, and a run that ended as failed, carries the last error that was brought into the run. */
  lemma FailedFinishCarries(aborted: bool, events: seq<Event>)
    ensures var r, raised := Play(Begin(aborted), events), LastRaised(Begin(aborted), events, None);
            && (forall f | f in r.finishes && f.FailedFinish? :: raised == Some(f.error))
            && (r.place.Ended? && r.place.ending.Failed? ==> raised == Some(r.place.ending.error))
  {
    BeginInv(aborted);
    PlayKept(Begin(aborted), events);
    FailureIsLastRaised(Begin(aborted), events, None);
    var r := Play(Begin(aborted), events);
    forall f | f in r.finishes && f.FailedFinish?
      ensures Failure(r.place) == Some(f.error)
    {
      OnlyLastFails(r.place, r.finishes, f);
    }
  }

  lemma OnlyLastFails(place: Place, fs: seq<Finish>, f: Finish)
    requires FinishesOk(place, fs) && f in fs && f.FailedFinish?
    ensures Failure(place) == Some(f.error)
  {
    var init := fs[..|fs| - 1];
    assert forall i | 0 <= i < |init| :: init[i] == fs[i];
  }

  // ---- The lease -------------------------------------------------------------------------------------------------

  /** These events bring the run its lease. */
  predicate Acquires(s: Run, events: seq<Event>)
    decreases |events|
  {
    events != [] &&
    ((events[0].AcquireSettles? && s.place.Acquiring? && events[0].lockError.None?)
     || Acquires(Next(s, events[0]), events[1..]))
  }

  lemma {:induction false} LeasedIff(s: Run, events: seq<Event>)
    requires Inv(s)
    ensures Play(s, events).leased <==> s.leased || Acquires(s, events)
    decreases |events|
  {
    if events != [] {
      NextDoes(s, events[0]);
      NextKept(s, events[0]);
      LeasedIff(Next(s, events[0]), events[1..]);
    }
  }

  /** A lease that was acquired is released once, when the run is over, however it came to that; and no other is. */
  lemma LeaseIsReleasedOnce(aborted: bool, events: seq<Event>)
    ensures var r := Play(Begin(aborted), events);
            r.releases == if Over(r.place) && Acquires(Begin(aborted), events) then 1 else 0
  {
    BeginInv(aborted);
    LeasedIff(Begin(aborted), events);
    PlayKept(Begin(aborted), events);
  }

  // ---- Cancellation ----------------------------------------------------------------------------------------------

  ghost predicate CancelOk(s: Run) {
    Over(s.place) ==>
      && (s.place.ending.Cancelled? ==> s.callerAborted)
      && (s.heartbeatStop.None? && s.abortedAtEnd == Some(true) ==> s.place.ending.Cancelled?)
  }

  /** When collection ends it is noted whether the caller has aborted. */
  ghost predicate MarksEnd(s: Run, n: Run) {
    n.abortedAtEnd == if s.collectionDone || !n.collectionDone then s.abortedAtEnd else Some(s.callerAborted)
  }

  lemma CatchMarks(s: Run, error: ErrorCode)
    requires s.abortedAtEnd.Some? <==> s.collectionDone
    ensures MarksEnd(s, Catch(s, error)) && Catch(s, error).collectionDone
  {
  }

  lemma QuietMarks(s: Run, e: Event)
    requires Inv(s) && (e.Yields? || e.HeadSettles?)
    ensures MarksEnd(s, Next(s, e))
  {
    if e.Yields? && s.place.Collecting? {
      YieldMarks(s, e.chunk);
    } else if e.HeadSettles? && s.chain != [] {
      var s1 := s.(chain := s.chain[1..]);
      match s.chain[0]
      case ChunkPut(_, _, _) => assert Next(s, e) == OnChunkSettled(s1, s.chain[0], e.refusal);
      case HeartbeatPut => assert Next(s, e) == OnHeartbeatSettled(s1, e.refusal);
      case ReportPut =>
    }
  }

  lemma YieldMarks(s: Run, c: Chunk)
    ensures OnYield(s, c).abortedAtEnd == s.abortedAtEnd && OnYield(s, c).collectionDone == s.collectionDone
  {
  }

  lemma AcquireMarks(s: Run, lock: Option<ErrorCode>, site: Option<ErrorCode>)
    requires s.abortedAtEnd.Some? <==> s.collectionDone
    ensures MarksEnd(s, OnAcquire(s, lock, site))
  {
    if lock.Some? { CatchMarks(s, lock.value); } else if site.Some? { CatchMarks(s.(leased := true), site.value); }
  }

  lemma NextMarks(s: Run, e: Event)
    requires Inv(s)
    ensures MarksEnd(s, Next(s, e))
  {
    match e
    case AcquireSettles(lock, site) => if s.place.Acquiring? { AcquireMarks(s, lock, site); }
    case Yields(_) => QuietMarks(s, e);
    case HeadSettles(_) => QuietMarks(s, e);
    case StreamCloses(_) => if s.place.ClosingStream? { CatchMarks(s, s.place.error); }
    case ChainDrains(summary) => DrainMarks(s, summary);
    case FinishSettles(refusal) =>
      if s.place.Finishing? && refusal.Some? {
        CatchMarks(s.(finishes := Answered(s.finishes, refusal)), refusal.value);
      }
    case _ =>
  }

  lemma DrainMarks(s: Run, summary: Result<Outcome, ErrorCode>)
    requires Inv(s)
    ensures MarksEnd(s, Next(s, ChainDrains(summary)))
  {
    if s.chain == [] && s.place.Draining? {
      if s.heartbeatStop.Some? { CatchMarks(s, s.heartbeatStop.value); }
      else if !s.callerAborted && s.outcome.None? && summary.Rejected? {
        CatchMarks(s.(summarized := Some((s.tally.chunks, s.tally.items))), summary.reason);
      }
    }
  }

  lemma CancelStep(s: Run, e: Event)
    requires Inv(s) && CancelOk(s)
    ensures CancelOk(Next(s, e))
  {
    var n := Next(s, e);
    NextDoes(s, e);
    NextMarks(s, e);
    if Over(s.place) {
      assert Over(n.place) && n.place.ending == s.place.ending;
    } else if Over(n.place) {
      EndingStep(s, e);
    }
  }

  lemma EndingStep(s: Run, e: Event)
    requires Inv(s) && !Over(s.place) && Over(PlaceAfter(s, e))
    ensures !e.HeadSettles?
    ensures PlaceAfter(s, e).ending.Cancelled? ==> s.callerAborted
    ensures s.heartbeatStop.None? && !PlaceAfter(s, e).ending.Cancelled? ==> !s.callerAborted || s.abortedAtEnd == Some(false)
  {
    if Caught(s, e).Some? {
      assert PlaceAfter(s, e) == Landing(s, Caught(s, e).value);
    } else {
      assert PlaceAfter(s, e) == Onward(s, e);
    }
  }

  lemma {:induction false} CancelPlays(s: Run, events: seq<Event>)
    requires Inv(s) && CancelOk(s)
    ensures CancelOk(Play(s, events))
    decreases |events|
  {
    if events != [] {
      CancelStep(s, events[0]);
      NextKept(s, events[0]);
      CancelPlays(Next(s, events[0]), events[1..]);
    }
  }

  /**
   * Only a caller's abort cancels a run; and it does cancel it if it came before the collection was over, unless a
   * heartbeat has lost the fence.
   */
  lemma AbortCancels(aborted: bool, events: seq<Event>)
    ensures CancelOk(Play(Begin(aborted), events))
  {
    BeginInv(aborted);
    CancelPlays(Begin(aborted), events);
  }

  // ---- Heartbeats ------------------------------------------------------------------------------------------------

  /** While it collects and has not been told to stop, a run has a heartbeat coming or on its way. */
  predicate Beats(s: Run) {
    !s.place.Acquiring? && !s.collectionDone && !s.localAborted ==> s.timerArmed || HeartbeatPut in s.chain
  }

  lemma TailBeats(chain: seq<Put>)
    requires chain != [] && HeartbeatPut in chain && chain[0] != HeartbeatPut
    ensures HeartbeatPut in chain[1..]
  {
  }

  lemma ScheduledBeats(s: Run)
    ensures Beats(ScheduleHeartbeat(s))
  {
  }

  lemma ChunkBeats(s: Run, p: Put, refusal: Option<ErrorCode>)
    requires Beats(s) && p.ChunkPut? && !s.place.Acquiring?
    ensures Beats(OnChunkSettled(s, p, refusal))
  {
    if refusal.Some? {
      assert OnChunkSettled(s, p, refusal) == s.(place := ClosingStream(refusal.value));
    }
  }

  lemma HeadBeats(s: Run, refusal: Option<ErrorCode>)
    requires Beats(s) && s.chain != [] && !s.place.Acquiring?
    ensures Beats(OnHeadSettled(s, refusal))
  {
    var s1 := s.(chain := s.chain[1..]);
    ScheduledBeats(s1);
    if s.chain[0].HeartbeatPut? {
      assert OnHeadSettled(s, refusal) == OnHeartbeatSettled(s1, refusal);
    } else {
      if HeartbeatPut in s.chain { TailBeats(s.chain); }
      assert Beats(s1);
      if s.chain[0].ChunkPut? { ChunkBeats(s1, s.chain[0], refusal); }
    }
  }

  lemma YieldBeats(s: Run, c: Chunk)
    requires Beats(s) && s.place.Collecting?
    ensures Beats(OnYield(s, c))
  {
  }

  lemma AcquireBeats(s: Run, lock: Option<ErrorCode>, site: Option<ErrorCode>)
    requires Beats(s) && s.place.Acquiring?
    ensures Beats(OnAcquire(s, lock, site))
  {
    if lock.Some? {
      assert Catch(s, lock.value).collectionDone;
    } else if site.Some? {
      assert Catch(s.(leased := true), site.value).collectionDone;
    } else {
      ScheduledBeats(s.(leased := true));
    }
  }

  /** What is written or noted besides a chunk. */
  lemma AsideBeats(s: Run, e: Event)
    requires Beats(s) && (e.CallerAborts? || e.Returns? || e.Throws? || e.Reports? || e.TimerFires? || e.ReleaseSettles?)
    ensures Beats(Next(s, e))
  {
    if e.Reports? && HeartbeatPut in s.chain { assert HeartbeatPut in s.chain + [ReportPut]; }
  }

  lemma BeatStep(s: Run, e: Event)
    requires Inv(s) && Beats(s)
    ensures Beats(Next(s, e))
  {
    match e
    case AcquireSettles(lock, site) => if s.place.Acquiring? { AcquireBeats(s, lock, site); }
    case Yields(c) => if s.place.Collecting? { YieldBeats(s, c); }
    case HeadSettles(refusal) => if s.chain != [] { HeadBeats(s, refusal); }
    case StreamCloses(_) => EndsBeats(s, e);
    case ChainDrains(_) => EndsBeats(s, e);
    case FinishSettles(_) => EndsBeats(s, e);
    case _ => AsideBeats(s, e);
  }

  /** What ends the collection, or comes after it. */
  lemma EndsBeats(s: Run, e: Event)
    requires Inv(s) && Beats(s) && (e.StreamCloses? || e.ChainDrains? || e.FinishSettles?)
    ensures Beats(Next(s, e))
  {
    NextKept(s, e);
    NextDoes(s, e);
    var n := Next(s, e);
    if !n.collectionDone {
      assert n.chain == s.chain;
    }
  }

  /** The lease of a run that is collecting is kept alive, whatever its writes answer short of a lost fence. */
  lemma {:induction false} LeaseIsKeptAlive(s: Run, events: seq<Event>)
    requires Inv(s) && Beats(s)
    ensures Beats(Play(s, events))
    decreases |events|
  {
    if events != [] {
      BeatStep(s, events[0]);
      NextKept(s, events[0]);
      LeaseIsKeptAlive(Next(s, events[0]), events[1..]);
    }
  }

  // ---- The heartbeat timer ---------------------------------------------------------------------------------------

  /** The write that settles sets the timer again: a chunk's or a report's that works, a heartbeat's that is not the last. */
  predicate Reschedules(s: Run, e: Event) {
    e.HeadSettles? && s.chain != [] && (if s.chain[0].HeartbeatPut? then !Fence.LostIn(e.refusal) else e.refusal.None?)
  }

  /** The timer is set when the lease is there and after each such write, unless the run is told to stop; it fires once. */
  function TimerAfter(s: Run, e: Event): bool {
    if e.TimerFires? then false
    else if Reschedules(s, e) || (e.AcquireSettles? && PlaceAfter(s, e).Collecting? && s.place.Acquiring?)
    then !s.collectionDone && !s.localAborted
    else s.timerArmed && !Done(PlaceAfter(s, e))
  }

  lemma TimerOfHead(s: Run, e: Event)
    requires e.HeadSettles? && s.chain != []
    ensures Next(s, e).timerArmed == if Reschedules(s, e) then !s.collectionDone && !s.localAborted else s.timerArmed
  {
    var s1 := s.(chain := s.chain[1..]);
    match s.chain[0]
    case ChunkPut(_, _, _) => assert Next(s, e) == OnChunkSettled(s1, s.chain[0], e.refusal);
    case HeartbeatPut => assert Next(s, e) == OnHeartbeatSettled(s1, e.refusal);
    case ReportPut =>
  }

  lemma TimerOfYield(s: Run, c: Chunk)
    ensures OnYield(s, c).timerArmed == s.timerArmed
  {
  }

  lemma TimerWhenDone(s: Run, e: Event)
    requires Inv(s) && Done(Next(s, e).place)
    ensures !Next(s, e).timerArmed
  {
    NextKept(s, e);
  }

  lemma TimerOfAcquire(s: Run, lock: Option<ErrorCode>, site: Option<ErrorCode>)
    requires lock.None? && site.None?
    ensures OnAcquire(s, lock, site).timerArmed == (!s.collectionDone && !s.localAborted)
  {
  }

  /** What ends the collection, or comes after it, and does neither where the run stands. */
  lemma TimerOfEnds(s: Run, e: Event)
    requires (e.StreamCloses? || e.ChainDrains? || e.FinishSettles?) && !Done(PlaceAfter(s, e))
    ensures Next(s, e).timerArmed == s.timerArmed
  {
    if e.StreamCloses? {
      if s.place.StoppingStream? && e.failure.Some? {
        assert Next(s, e) == s.(place := ClosingStream(e.failure.value));
      } else {
        assert Next(s, e) == s;
      }
    } else {
      assert Next(s, e) == s;
    }
  }

  lemma TimerOfRest(s: Run, e: Event)
    requires (e.CallerAborts? || e.Returns? || e.Throws? || e.Reports? || e.TimerFires? || e.ReleaseSettles?)
    requires !Done(PlaceAfter(s, e))
    ensures Next(s, e).timerArmed == (s.timerArmed && !e.TimerFires?)
  {
  }

  lemma TimerIs(s: Run, e: Event)
    requires Inv(s)
    ensures Next(s, e).timerArmed == TimerAfter(s, e)
  {
    NextPlace(s, e);
    if e.HeadSettles? && s.chain != [] {
      TimerOfHead(s, e);
      HeadKeepsDone(s, e);
    } else if Done(PlaceAfter(s, e)) {
      TimerWhenDone(s, e);
    } else if e.AcquireSettles? {
      if s.place.Acquiring? && e.lockError.None? && e.siteError.None? { TimerOfAcquire(s, e.lockError, e.siteError); }
    } else if e.Yields? {
      if s.place.Collecting? { TimerOfYield(s, e.chunk); }
    } else if e.StreamCloses? || e.ChainDrains? || e.FinishSettles? {
      TimerOfEnds(s, e);
    } else if !e.HeadSettles? {
      TimerOfRest(s, e);
    }
  }

  lemma NextPlace(s: Run, e: Event)
    requires Inv(s)
    ensures Next(s, e).place == PlaceAfter(s, e) && (Next(s, e).collectionDone <==> Done(PlaceAfter(s, e)))
  {
    NextDoes(s, e);
    NextKept(s, e);
  }

  /** A write that settles does not end the collection, and none sets the timer after it. */
  lemma HeadKeepsDone(s: Run, e: Event)
    requires Inv(s) && e.HeadSettles? && s.chain != []
    ensures Done(PlaceAfter(s, e)) ==> s.collectionDone && !s.timerArmed
  {
    HeadOf(s.place, s.chain);
  }
}
