/** What holds of a run wherever it stands, and that every event keeps it. */
module RunnerInvariant {
  import opened Common
  import opened Runner

  // ---- Invariant ----------------------------------------------------------------------------------------------

  function Items(puts: seq<Put>): nat {
    if puts == [] then 0
    else (if puts[|puts| - 1].ChunkPut? then puts[|puts| - 1].payload else 0) + Items(puts[..|puts| - 1])
  }

  function CountOf(puts: seq<Put>, kind: ChunkKind): nat {
    if puts == [] then 0
    else
      var last := puts[|puts| - 1];
      (if last.ChunkPut? && last.kind == kind then 1 else 0) + CountOf(puts[..|puts| - 1], kind)
  }

  /** Each put carries its chunk, and the number of its kind's puts so far. */
  ghost predicate Numbered(yielded: seq<Chunk>, sent: seq<Put>) {
    |sent| <= |yielded| &&
    forall i | 0 <= i < |sent| ::
      sent[i] == ChunkPut(yielded[i].kind, CountOf(sent[..i], yielded[i].kind) + 1, yielded[i].payload)
  }

  ghost predicate TallyOk(t: Tally) {
    && Numbered(t.yielded, t.sent)
    && (forall kind :: LastSequence(t, kind) == CountOf(t.sent, kind))
    && |t.sent| <= OPERATION_CHUNKS_MAX
    && |t.acked| == t.chunks <= |t.sent| && t.acked == t.sent[..t.chunks]
    && t.items == Items(t.acked)
  }

  /** Every yielded chunk was sent and acknowledged. */
  predicate AllAcked(t: Tally) { |t.yielded| == |t.sent| == t.chunks }

  predicate Over(p: Place) { p.Releasing? || p.Ended? }

  /** The chunk puts among some writes. */
  function Chunks(puts: seq<Put>): seq<Put> {
    if puts == [] then [] else (if puts[0].ChunkPut? then [puts[0]] else []) + Chunks(puts[1..])
  }

  lemma {:induction false} ChunksAppend(puts: seq<Put>, p: Put)
    ensures Chunks(puts + [p]) == Chunks(puts) + (if p.ChunkPut? then [p] else [])
  {
    var all := puts + [p];
    if puts == [] {
      assert all[0] == p && all[1..] == [];
    } else {
      assert all[0] == puts[0] && all[1..] == puts[1..] + [p];
      ChunksAppend(puts[1..], p);
      var first, last := if all[0].ChunkPut? then [all[0]] else [], if p.ChunkPut? then [p] else [];
      assert first + (Chunks(puts[1..]) + last) == (first + Chunks(puts[1..])) + last;
    }
  }

  /** Only a chunk being sent has its put on the chain, once. */
  ghost predicate ChainOk(place: Place, chain: seq<Put>) {
    && Chunks(chain) == (if place.Sending? then [place.put] else [])
    && (place.Sending? ==> place.put.ChunkPut?)
  }

  /** Up to the drain, either every yielded chunk was sent and acknowledged, or the run has been told to stop. */
  ghost predicate StreamOk(place: Place, t: Tally, stopped: bool) {
    match place
    case Acquiring => t.yielded == [] && AllAcked(t)
    case Collecting => AllAcked(t)
    case Sending(p) =>
      |t.yielded| == |t.sent| && p.ChunkPut? &&
      if p.payload > 0 then |t.sent| == t.chunks + 1 && p == t.sent[t.chunks] else |t.sent| == t.chunks
    case StoppingStream => stopped
    case Draining => stopped || AllAcked(t)
    case Finishing => AllAcked(t)
    case _ => true
  }

  predicate Stopped(s: Run) { s.callerAborted || s.heartbeatStop.Some? }

  predicate Done(p: Place) { p.Draining? || p.Finishing? || p.DrainingFailure? || p.FinishingFailure? || Over(p) }

  ghost predicate FlagsOk(s: Run) {
    && (s.callerAborted ==> s.localAborted)
    && (s.localAborted ==> Stopped(s) || Over(s.place))
    && (s.heartbeatStop.Some? ==> StopFor(s.heartbeatStop.value).FenceIsLost?)
    && (s.collectionDone <==> Done(s.place))
    && (s.timerArmed ==> !s.collectionDone && !s.place.Acquiring?)
    && (s.place.Acquiring? ==> s.chain == [])
  }

  /** Whether the caller had aborted when collection ended. */
  ghost predicate EndOk(s: Run) {
    && (s.abortedAtEnd.Some? <==> s.collectionDone)
    && (s.abortedAtEnd.Some? && s.abortedAtEnd.value ==> s.callerAborted)
    && (s.place.DrainingFailure? || s.place.FinishingFailure? || s.place.Finishing? ==>
          s.abortedAtEnd.Some? && !s.abortedAtEnd.value)
    && (s.finishes != [] ==> s.abortedAtEnd.Some? && !s.abortedAtEnd.value)
    && (s.summarized.Some? ==> s.collectionDone && s.summarized.value == (s.tally.chunks, s.tally.items))
  }

  /** The lease is released when the run is over, and only if there is one. */
  ghost predicate LeaseOk(s: Run) { s.releases == (if Over(s.place) && s.leased then 1 else 0) }

  /** A failure that is not a lost fence is being finished, unless the loss came in during its drain. */
  ghost predicate LossOk(s: Run) {
    && (s.place.DrainingFailure? || s.place.FinishingFailure? ==>
          !StopFor(s.place.error).FenceIsLost? && (s.heartbeatStop.Some? ==> s.lossWhileDraining))
    && (s.lossWhileDraining ==> s.heartbeatStop.Some? && (s.place.DrainingFailure? || s.place.FinishingFailure?
                                                          || Over(s.place)))
    && (s.finishes != [] && s.heartbeatStop.Some? ==> s.lossWhileDraining && s.finishes[|s.finishes| - 1].FailedFinish?)
    && (s.lossWhileDraining && Over(s.place) ==> s.finishes != [])
  }

  /** Nothing was sent, or a good finish that the server refused. */
  predicate NoFinishHolds(fs: seq<Finish>) { fs == [] || (|fs| == 1 && fs[0].GoodFinish? && fs[0].reply == Refused) }

  /** As before, and then the failed finish. */
  predicate FailedLast(fs: seq<Finish>, e: ErrorCode) {
    fs != [] && NoFinishHolds(fs[..|fs| - 1]) && fs[|fs| - 1].FailedFinish? && fs[|fs| - 1].error == e
  }

  predicate GoodOnly(fs: seq<Finish>, reply: Reply) { |fs| == 1 && fs[0].GoodFinish? && fs[0].reply == reply }

  predicate EndingFits(ending: Ending, fs: seq<Finish>) {
    match ending
    case Finished => GoodOnly(fs, Accepted)
    case Failed(e) => FailedLast(fs, e)
    case FenceLost => NoFinishHolds(fs)
    case Cancelled => NoFinishHolds(fs)
  }

  /** Which finish requests the run can have sent by now. */
  predicate FinishesOk(place: Place, fs: seq<Finish>) {
    match place
    case Finishing => GoodOnly(fs, Awaited)
    case DrainingFailure(_) => NoFinishHolds(fs)
    case FinishingFailure(e) => FailedLast(fs, e)
    case Releasing(ending) => EndingFits(ending, fs)
    case Ended(ending) => EndingFits(ending, fs)
    case _ => fs == []
  }

  /** Once a finish was sent nothing is written any more, and a good one had everything acknowledged. */
  ghost predicate SilentOk(s: Run) {
    && (s.finishes != [] ==> s.chain == [] && s.collectionDone)
    && (s.place.FinishingFailure? ==> s.chain == [])
    && (s.finishes != [] && s.finishes[0].GoodFinish? ==> AllAcked(s.tally))
  }

  ghost predicate Inv(s: Run) {
    && TallyOk(s.tally) && ChainOk(s.place, s.chain) && StreamOk(s.place, s.tally, Stopped(s)) && FlagsOk(s)
    && EndOk(s) && LeaseOk(s) && LossOk(s) && FinishesOk(s.place, s.finishes) && SilentOk(s)
  }

  // ---- Every event keeps the invariant ------------------------------------------------------------------------

  lemma CountAppends(puts: seq<Put>, p: Put, kind: ChunkKind)
    ensures CountOf(puts + [p], kind) == CountOf(puts, kind) + (if p.ChunkPut? && p.kind == kind then 1 else 0)
    ensures p.ChunkPut? ==> Items(puts + [p]) == Items(puts) + p.payload
  {
  }

  /** A chunk that is sent gets the next number of its kind. */
  lemma SentTally(t: Tally, c: Chunk)
    requires TallyOk(t) && AllAcked(t) && t.chunks < OPERATION_CHUNKS_MAX && c.payload > 0
    ensures TallyOk(Sent(Yielded(t, c), PutFor(Yielded(t, c), c)))
  {
    var p := PutFor(Yielded(t, c), c);
    var t' := Sent(Yielded(t, c), p);
    assert t'.sent == t.sent + [p] && t'.yielded == t.yielded + [c];
    forall kind
      ensures LastSequence(t', kind) == CountOf(t'.sent, kind)
    {
      CountAppends(t.sent, p, kind);
      assert LastSequence(t, kind) == CountOf(t.sent, kind);
    }
    forall i | 0 <= i < |t'.sent|
      ensures t'.sent[i] == ChunkPut(t'.yielded[i].kind, CountOf(t'.sent[..i], t'.yielded[i].kind) + 1,
                                     t'.yielded[i].payload)
    {
      assert t'.sent[..i] == t.sent[..i];
      if i == |t.sent| { assert t.sent[..i] == t.sent; }
    }
    assert t'.sent[..t.chunks] == t.sent[..t.chunks];
  }

  lemma YieldedTally(t: Tally, c: Chunk)
    requires TallyOk(t)
    ensures TallyOk(Yielded(t, c))
  {
  }

  lemma AcknowledgedTally(t: Tally, p: Put)
    requires TallyOk(t) && p.ChunkPut? && (p.payload > 0 ==> |t.sent| == t.chunks + 1 && p == t.sent[t.chunks])
    ensures TallyOk(Acknowledged(t, p))
  {
  }

  /** A run that stops collecting, or whose good finish was refused: what `Catch` needs to find. */
  ghost predicate Failing(s: Run) {
    && TallyOk(s.tally) && Chunks(s.chain) == [] && s.releases == 0 && !s.lossWhileDraining
    && (s.callerAborted ==> s.localAborted)
    && (s.localAborted ==> Stopped(s))
    && (s.heartbeatStop.Some? ==> StopFor(s.heartbeatStop.value).FenceIsLost?)
    && (s.abortedAtEnd.Some? && s.abortedAtEnd.value ==> s.callerAborted)
    && (s.summarized.Some? ==> s.summarized.value == (s.tally.chunks, s.tally.items))
    && NoFinishHolds(s.finishes)
    && (s.finishes != [] ==>
          s.abortedAtEnd == Some(false) && s.chain == [] && s.heartbeatStop.None? && AllAcked(s.tally))
  }

  lemma FinallyKept(s: Run, ending: Ending)
    requires Failing(s) && s.collectionDone && s.abortedAtEnd.Some?
    requires ending.FenceLost? || ending.Cancelled?
    ensures Inv(Finally(s, ending))
  {
  }

  lemma CatchKept(s: Run, e: ErrorCode)
    requires Failing(s)
    ensures Inv(Catch(s, e))
  {
    var s1 := EndCollection(s);
    if s1.heartbeatStop.None? && s1.callerAborted {
      FinallyKept(s1, Cancelled);
    } else {
      var error := if s1.heartbeatStop.Some? then s1.heartbeatStop.value else e;
      if StopFor(error).FenceIsLost? { FinallyKept(s1, FenceLost); } else {
        assert Catch(s, e) == s1.(place := DrainingFailure(error));
      }
    }
  }

  lemma AcquireKept(s: Run, error: Option<ErrorCode>, siteError: Option<ErrorCode>)
    requires Inv(s) && s.place.Acquiring?
    ensures Inv(OnAcquire(s, error, siteError))
  {
    if error.Some? { CatchKept(s, error.value); }
    else if siteError.Some? { CatchKept(s.(leased := true), siteError.value); }
    else {}
  }

  /** The branch of `OnYield` that sends the chunk. */
  lemma SendKept(s: Run, c: Chunk)
    requires Inv(s) && s.place.Collecting? && (c.payload > 0 ==> s.tally.chunks < OPERATION_CHUNKS_MAX)
    ensures var t, p := Yielded(s.tally, c), PutFor(Yielded(s.tally, c), c);
            Inv(Write(s, p).(tally := Sent(t, p), place := Sending(p)))
  {
    var t, p := Yielded(s.tally, c), PutFor(Yielded(s.tally, c), c);
    ChunksAppend(s.chain, p);
    if c.payload > 0 {
      SentTally(s.tally, c);
      assert StreamOk(Sending(p), Sent(t, p), Stopped(s));
    }
  }

  lemma StoppedYieldKept(s: Run, c: Chunk)
    requires Inv(s) && s.place.Collecting? && s.localAborted
    ensures Inv(s.(tally := Yielded(s.tally, c), place := StoppingStream))
  {
    YieldedTally(s.tally, c);
  }

  lemma RefusedYieldKept(s: Run, c: Chunk, error: ErrorCode)
    requires Inv(s) && s.place.Collecting?
    ensures Inv(s.(tally := Yielded(s.tally, c), place := ClosingStream(error)))
  {
    YieldedTally(s.tally, c);
  }

  lemma YieldKept(s: Run, c: Chunk)
    requires Inv(s) && s.place.Collecting?
    ensures Inv(OnYield(s, c))
  {
    var t := Yielded(s.tally, c);
    if s.localAborted {
      StoppedYieldKept(s, c);
    } else if c.kind.HeartbeatKind? {
      RefusedYieldKept(s, c, CollectFailed);
    } else if c.payload > 0 && (c.bytes > OPERATION_CHUNK_MAX_BYTES || t.chunks >= OPERATION_CHUNKS_MAX) {
      RefusedYieldKept(s, c, ChunkTooLarge);
    } else {
      SendKept(s, c);
    }
  }

  lemma EndCollectionKept(s: Run, result: Option<Outcome>)
    requires Inv(s) && (s.place.Collecting? || s.place.StoppingStream?)
    ensures Inv(EndCollection(s).(outcome := result, place := Draining))
  {
  }

  /** The write in flight is no chunk exactly when no chunk is being sent. */
  lemma HeadOf(place: Place, chain: seq<Put>)
    requires ChainOk(place, chain) && chain != []
    ensures chain[0].ChunkPut? ==> place.Sending? && place.put == chain[0] && Chunks(chain[1..]) == []
    ensures !chain[0].ChunkPut? ==> Chunks(chain[1..]) == Chunks(chain)
  {
  }

  lemma ChunkSettledKept(s: Run, refusal: Option<ErrorCode>)
    requires Inv(s) && s.chain != [] && s.chain[0].ChunkPut?
    ensures Inv(OnChunkSettled(s.(chain := s.chain[1..]), s.chain[0], refusal))
  {
    HeadOf(s.place, s.chain);
    if refusal.None? { AcknowledgedTally(s.tally, s.chain[0]); }
  }

  lemma LossKept(s: Run, error: ErrorCode)
    requires Inv(s) && s.finishes == [] && !s.place.Acquiring? && StopFor(error).FenceIsLost?
    ensures Inv(s.(heartbeatStop := Some(error), localAborted := true,
                   lossWhileDraining := s.lossWhileDraining || s.place.DrainingFailure?))
  {
  }

  lemma HeartbeatSettledKept(s: Run, refusal: Option<ErrorCode>)
    requires Inv(s) && s.chain != [] && !s.chain[0].ChunkPut?
    ensures Inv(OnHeartbeatSettled(s.(chain := s.chain[1..]), refusal))
  {
    ReportSettledKept(s, refusal);
    if refusal.Some? && StopFor(refusal.value).FenceIsLost? {
      LossKept(s.(chain := s.chain[1..]), refusal.value);
    }
  }

  lemma ReportSettledKept(s: Run, refusal: Option<ErrorCode>)
    requires Inv(s) && s.chain != [] && !s.chain[0].ChunkPut?
    ensures Inv(s.(chain := s.chain[1..])) && Inv(ScheduleHeartbeat(s.(chain := s.chain[1..])))
  {
    HeadOf(s.place, s.chain);
  }

  lemma DrainedKept(s: Run, summary: Result<Outcome, ErrorCode>)
    requires Inv(s) && s.place.Draining? && s.chain == []
    ensures Inv(OnDrained(s, summary))
  {
    if s.heartbeatStop.Some? {
      CatchKept(s, s.heartbeatStop.value);
    } else if s.callerAborted {
      FinallyKept(s, Cancelled);
    } else {
      var s1 := if s.outcome.Some? then s else s.(summarized := Some((s.tally.chunks, s.tally.items)));
      if s.outcome.None? && summary.Rejected? { CatchKept(s1, summary.reason); }
    }
  }

  lemma FinishSettledKept(s: Run, refusal: Option<ErrorCode>)
    requires Inv(s) && (s.place.Finishing? || s.place.FinishingFailure?)
    ensures s.finishes != [] && Inv(OnFinishSettled(s, refusal))
  {
    var fs := Answered(s.finishes, refusal);
    var s1 := s.(finishes := fs);
    assert fs[..|fs| - 1] == s.finishes[..|fs| - 1];
    if s.place.FinishingFailure? {
    } else if refusal.None? {
    } else { CatchKept(s1, refusal.value); }
  }

  lemma FailureDrainedKept(s: Run)
    requires Inv(s) && s.place.DrainingFailure? && s.chain == []
    ensures Inv(s.(place := FinishingFailure(s.place.error),
                   finishes := s.finishes + [FailedFinish(s.place.error, Awaited)]))
  {
  }

  lemma WriteKept(s: Run, p: Put)
    requires Inv(s) && !s.collectionDone && !s.place.Acquiring? && !p.ChunkPut?
    ensures Inv(Write(s, p)) && Inv(Write(s.(timerArmed := false), p))
  {
    ChunksAppend(s.chain, p);
  }

  lemma AbortKept(s: Run)
    requires Inv(s)
    ensures Inv(s.(callerAborted := true, localAborted := true))
  {
  }

  lemma {:induction false} HeadKept(s: Run, refusal: Option<ErrorCode>)
    requires Inv(s) && s.chain != []
    ensures Inv(OnHeadSettled(s, refusal))
  {
    match s.chain[0]
    case ChunkPut(_, _, _) => ChunkSettledKept(s, refusal);
    case HeartbeatPut => HeartbeatSettledKept(s, refusal);
    case ReportPut => ReportSettledKept(s, refusal);
  }

  lemma ClosesKept(s: Run, failure: Option<ErrorCode>)
    requires Inv(s)
    ensures Inv(Next(s, StreamCloses(failure)))
  {
    if s.place.ClosingStream? { CatchKept(s, s.place.error); }
    else if s.place.StoppingStream? && failure.None? { EndCollectionKept(s, s.outcome); }
  }

  lemma DrainsKept(s: Run, summary: Result<Outcome, ErrorCode>)
    requires Inv(s)
    ensures Inv(Next(s, ChainDrains(summary)))
  {
    if s.chain == [] && s.place.Draining? { DrainedKept(s, summary); }
    else if s.chain == [] && s.place.DrainingFailure? { FailureDrainedKept(s); }
  }

  lemma NextKept(s: Run, e: Event)
    requires Inv(s)
    ensures Inv(Next(s, e))
  {
    match e
    case CallerAborts => AbortKept(s);
    case AcquireSettles(error, siteError) => if s.place.Acquiring? { AcquireKept(s, error, siteError); }
    case Yields(c) => if s.place.Collecting? { YieldKept(s, c); }
    case Returns(result) => if s.place.Collecting? { EndCollectionKept(s, result); }
    case Throws(error) => 
    case Reports => if !(s.place.Acquiring? || s.collectionDone || s.localAborted) { WriteKept(s, ReportPut); }
    case TimerFires => if s.timerArmed { WriteKept(s, HeartbeatPut); }
    case HeadSettles(refusal) => if s.chain != [] { HeadKept(s, refusal); }
    case StreamCloses(failure) => ClosesKept(s, failure);
    case ChainDrains(summary) => DrainsKept(s, summary);
    case FinishSettles(refusal) =>
      if s.place.Finishing? || s.place.FinishingFailure? { FinishSettledKept(s, refusal); }
    case ReleaseSettles =>
  }

  lemma {:induction false} PlayKept(s: Run, events: seq<Event>)
    requires Inv(s)
    ensures Inv(Play(s, events))
    decreases |events|
  {
    if events != [] {
      NextKept(s, events[0]);
      PlayKept(Next(s, events[0]), events[1..]);
    }
  }

  lemma BeginInv(aborted: bool)
    ensures Inv(Begin(aborted))
  {
  }
}
