/**
 * One run as the closures of `execute` carry it out: they share these variables and update them at every event. Each
 * step is proved to be the one `Runner.Next` takes, so what `Runner` proves of every run holds of this object.
 */
module RunnerExecution {
  import opened Common
  import opened Runner
  import opened RunnerInvariant

  class Execution {
    var place: Place
    var callerAborted: bool
    var localAborted: bool
    var heartbeatStop: Option<ErrorCode>
    var collectionDone: bool
    var heartbeatTimer: bool
    var writes: seq<Put>
    var sequences: map<ChunkKind, nat>
    var chunks: nat
    var items: nat
    var returned: Option<Outcome>
    var leased: bool
    var releases: nat
    var finishes: seq<Finish>
    ghost var yielded: seq<Chunk>
    ghost var sent: seq<Put>
    ghost var acked: seq<Put>
    ghost var summarized: Option<(nat, nat)>
    ghost var abortedAtEnd: Option<bool>
    ghost var lossWhileDraining: bool

    ghost function Counters(): Tally reads this { Tally(sequences, chunks, items, yielded, sent, acked) }

    ghost function View(): Run reads this {
      Run(place, callerAborted, localAborted, heartbeatStop, collectionDone, heartbeatTimer, writes, Counters(),
          returned, leased, releases, finishes, summarized, abortedAtEnd, lossWhileDraining)
    }

    constructor (aborted: bool)
      ensures View() == Begin(aborted)
    {
      place, callerAborted, localAborted, heartbeatStop := Acquiring, aborted, aborted, None;
      collectionDone, heartbeatTimer, writes := false, false, [];
      sequences, chunks, items, returned := map[], 0, 0, None;
      leased, releases, finishes := false, 0, [];
      yielded, sent, acked, summarized, abortedAtEnd, lossWhileDraining := [], [], [], None, None, false;
    }

    method StopHeartbeat()
      modifies this`heartbeatTimer
      ensures !heartbeatTimer
    {
      heartbeatTimer := false;
    }

    method ScheduleHeartbeat()
      modifies this`heartbeatTimer
      ensures View() == Runner.ScheduleHeartbeat(old(View()))
    {
      StopHeartbeat();
      if collectionDone || localAborted { return; }
      heartbeatTimer := true;
    }

    method Write(p: Put)
      modifies this`writes
      ensures View() == Runner.Write(old(View()), p)
    {
      writes := writes + [p];
    }

    /** `finally` up to the release of the lease. */
    method Finally(ending: Ending)
      modifies this`heartbeatTimer, this`localAborted, this`releases, this`place
      ensures View() == Runner.Finally(old(View()), ending)
    {
      StopHeartbeat();
      localAborted := true;
      releases := releases + (if leased then 1 else 0);
      place := Releasing(ending);
    }

    method EndCollection()
      modifies this`collectionDone, this`heartbeatTimer, this`abortedAtEnd
      ensures View() == Runner.EndCollection(old(View()))
    {
      collectionDone := true;
      StopHeartbeat();
      if abortedAtEnd.None? { abortedAtEnd := Some(callerAborted); }
    }

    /** `catch` up to its first await. */
    method Catch(caught: ErrorCode)
      modifies this
      ensures View() == Runner.Catch(old(View()), caught)
    {
      EndCollection();
      if heartbeatStop.None? && callerAborted {
        Finally(Cancelled);
        return;
      }
      var error := if heartbeatStop.Some? then heartbeatStop.value else caught;
      if StopFor(error).FenceIsLost? {
        Finally(FenceLost);
      } else {
        place := DrainingFailure(error);
      }
    }

    method Acquired(error: Option<ErrorCode>, siteError: Option<ErrorCode>)
      modifies this
      ensures View() == OnAcquire(old(View()), error, siteError)
    {
      if error.Some? {
        Catch(error.value);
        return;
      }
      leased := true;
      if siteError.Some? {
        Catch(siteError.value);
        return;
      }
      ScheduleHeartbeat();
      place := Collecting;
    }

    /** The body of the collection loop up to its write. */
    method ChunkYielded(chunk: Chunk)
      modifies this
      ensures View() == OnYield(old(View()), chunk)
    {
      if chunk.payload > 0 { yielded := yielded + [chunk]; }
      if localAborted {
        place := StoppingStream;
      } else if chunk.kind.HeartbeatKind? {
        place := ClosingStream(CollectFailed);
      } else if chunk.payload > 0 && !ChunkFits(chunk) {
        place := ClosingStream(ChunkTooLarge);
      } else {
        SendChunk(chunk);
      }
    }

    predicate ChunkFits(chunk: Chunk)
      reads this
    {
      chunk.bytes <= OPERATION_CHUNK_MAX_BYTES && chunks < OPERATION_CHUNKS_MAX
    }

    method SendChunk(chunk: Chunk)
      modifies this`sequences, this`sent, this`writes, this`place
      ensures var was, p := old(View()), PutFor(old(Counters()), chunk);
              View() == Runner.Write(was, p).(tally := Sent(was.tally, p), place := Sending(p))
    {
      var p := NumberChunk(chunk);
      Write(p);
      place := Sending(p);
    }

    method NumberChunk(chunk: Chunk) returns (p: Put)
      modifies this`sequences, this`sent
      ensures p == PutFor(old(Counters()), chunk) && Counters() == Sent(old(Counters()), p)
    {
      var empty := chunk.payload == 0;
      var next := (if chunk.kind in sequences then sequences[chunk.kind] else 0) + 1;
      var sequence := if empty then Min(next, OPERATION_CHUNKS_MAX) else next;
      p := ChunkPut(chunk.kind, sequence, chunk.payload);
      if !empty {
        sequences := sequences[chunk.kind := sequence];
        sent := sent + [p];
      }
    }

    /** The body of the collection loop after its write. */
    method ChunkSettled(p: Put, refusal: Option<ErrorCode>)
      requires p.ChunkPut?
      modifies this
      ensures View() == OnChunkSettled(old(View()), p, refusal)
    {
      if refusal.Some? {
        place := ClosingStream(refusal.value);
      } else {
        CountChunk(p);
        ScheduleHeartbeat();
        place := Collecting;
      }
    }

    method CountChunk(p: Put)
      requires p.ChunkPut?
      modifies this`chunks, this`items, this`acked
      ensures Counters() == Acknowledged(old(Counters()), p)
    {
      if p.payload > 0 {
        chunks := chunks + 1;
        items := items + p.payload;
        acked := acked + [p];
      }
    }

    method HeartbeatSettled(refusal: Option<ErrorCode>)
      modifies this
      ensures View() == OnHeartbeatSettled(old(View()), refusal)
    {
      if refusal.Some? && StopFor(refusal.value).FenceIsLost? {
        heartbeatStop := refusal;
        localAborted := true;
        lossWhileDraining := lossWhileDraining || place.DrainingFailure?;
      } else {
        ScheduleHeartbeat();
      }
    }

    method HeadSettled(refusal: Option<ErrorCode>)
      requires writes != []
      modifies this
      ensures View() == OnHeadSettled(old(View()), refusal)
    {
      var p := writes[0];
      writes := writes[1..];
      match p
      case ChunkPut(_, _, _) => ChunkSettled(p, refusal);
      case HeartbeatPut => HeartbeatSettled(refusal);
      case ReportPut => if refusal.None? { ScheduleHeartbeat(); }
    }

    /** After the last write of a collection that ended by itself. */
    method Drained(summary: Result<Outcome, ErrorCode>)
      modifies this
      ensures View() == OnDrained(old(View()), summary)
    {
      if heartbeatStop.Some? {
        Catch(heartbeatStop.value);
        return;
      }
      if callerAborted {
        Finally(Cancelled);
        return;
      }
      var outcome;
      if returned.Some? {
        outcome := returned.value;
      } else {
        summarized := Some((chunks, items));
        if summary.Rejected? {
          Catch(summary.reason);
          return;
        }
        outcome := summary.value;
      }
      finishes := finishes + [GoodFinish(outcome, Awaited)];
      place := Finishing;
    }

    method FinishSettled(refusal: Option<ErrorCode>)
      requires finishes != []
      modifies this
      ensures View() == OnFinishSettled(old(View()), refusal)
    {
      finishes := Answered(finishes, refusal);
      if place.FinishingFailure? {
        Finally(Failed(place.error));
      } else if refusal.None? {
        Finally(Finished);
      } else {
        Catch(refusal.value);
      }
    }

    /** One event, as far as it concerns the run where it stands. */
    method Handle(e: Event)
      modifies this
      ensures View() == Next(old(View()), e)
    {
      match e
      case AcquireSettles(error, siteError) => if place.Acquiring? { Acquired(error, siteError); }
      case Yields(chunk) => if place.Collecting? { ChunkYielded(chunk); }
      case HeadSettles(refusal) => if writes != [] { HeadSettled(refusal); }
      case StreamCloses(failure) => StreamClosed(failure);
      case ChainDrains(summary) => ChainDrained(summary);
      case FinishSettles(refusal) =>
        if (place.Finishing? || place.FinishingFailure?) && finishes != [] { FinishSettled(refusal); }
      case Reports => if !place.Acquiring? && !collectionDone && !localAborted { Write(ReportPut); }
      case TimerFires => TimerFired();
      case _ => HandleSimple(e);
    }

    method TimerFired()
      modifies this`heartbeatTimer, this`writes
      ensures View() == Next(old(View()), TimerFires)
    {
      if heartbeatTimer {
        heartbeatTimer := false;
        Write(HeartbeatPut);
      }
    }

    /** The events that only set variables. */
    method HandleSimple(e: Event)
      requires e.CallerAborts? || e.Returns? || e.Throws? || e.ReleaseSettles?
      modifies this
      ensures View() == Next(old(View()), e)
    {
      match e
      case CallerAborts => callerAborted, localAborted := true, true;
      case Returns(result) =>
        if place.Collecting? {
          EndCollection();
          returned, place := result, Draining;
        }
      case Throws(error) => if place.Collecting? { place := ClosingStream(error); }
      case ReleaseSettles => if place.Releasing? { place := Ended(place.ending); }
    }

    method StreamClosed(failure: Option<ErrorCode>)
      modifies this
      ensures View() == Next(old(View()), StreamCloses(failure))
    {
      if place.ClosingStream? {
        Catch(place.error);
      } else if place.StoppingStream? {
        if failure.Some? {
          place := ClosingStream(failure.value);
        } else {
          EndCollection();
          place := Draining;
        }
      }
    }

    method ChainDrained(summary: Result<Outcome, ErrorCode>)
      modifies this
      ensures View() == Next(old(View()), ChainDrains(summary))
    {
      if writes == [] && place.Draining? {
        Drained(summary);
      } else if writes == [] && place.DrainingFailure? {
        finishes := finishes + [FailedFinish(place.error, Awaited)];
        place := FinishingFailure(place.error);
      }
    }
  }

  /** A whole run. */
  method Execute(aborted: bool, events: seq<Event>) returns (run: Execution)
    ensures fresh(run) && run.View() == Play(Begin(aborted), events) && Inv(run.View())
  {
    run := new Execution(aborted);
    BeginInv(aborted);
    var i := 0;
    assert events[0..] == events;
    while i < |events|
      invariant 0 <= i <= |events| && fresh(run)
      invariant Play(run.View(), events[i..]) == Play(Begin(aborted), events) && Inv(run.View())
    {
      assert events[i..][0] == events[i] && events[i..][1..] == events[i + 1..];
      NextKept(run.View(), events[i]);
      run.Handle(events[i]);
      i := i + 1;
    }
  }
}
