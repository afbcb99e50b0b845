/** What every run does, whatever events come in and in whatever order. */
module RunnerTheorems {
  import opened Common
  import opened Runner
  import opened RunnerInvariant

  /**
   * The finish protocol. A good finish is sent at most once, first, and only when every chunk the collector yielded was
   * acknowledged; a failed one at most once, and after a good one only when that was refused. Nothing is sent when the
   * caller had aborted as collection ended, and nothing is written after a finish.
   */
  lemma FinishProtocol(aborted: bool, events: seq<Event>)
    ensures var r := Play(Begin(aborted), events); var fs := r.finishes;
            && |fs| <= 2
            && (forall i | 0 <= i < |fs| && fs[i].GoodFinish? :: i == 0 && AllAcked(r.tally))
            && (|fs| == 2 ==> fs[0].GoodFinish? && fs[0].reply == Refused && fs[1].FailedFinish?)
            && (fs != [] ==> r.chain == [] && r.abortedAtEnd == Some(false))
  {
    BeginInv(aborted);
    PlayKept(Begin(aborted), events);
    var r := Play(Begin(aborted), events);
    if |r.finishes| == 2 { assert r.finishes[..1][0] == r.finishes[0]; }
  }

  /** How a run that is over ended says which finish requests it made, and its lease was released once. */
  lemma EndingTellsFinishes(aborted: bool, events: seq<Event>)
    ensures var r := Play(Begin(aborted), events);
            match r.place
            case Ended(Finished) => exists o :: r.finishes == [GoodFinish(o, Accepted)]
            case Ended(Failed(e)) => FailedLast(r.finishes, e)
            case Ended(_) => NoFinishHolds(r.finishes)
            case _ => true
    ensures var r := Play(Begin(aborted), events);
            r.releases == (if Over(r.place) && r.leased then 1 else 0)
  {
    BeginInv(aborted);
    PlayKept(Begin(aborted), events);
    var r := Play(Begin(aborted), events);
    if r.place.Ended? && r.place.ending.Finished? {
      assert r.finishes == [GoodFinish(r.finishes[0].outcome, Accepted)];
    }
  }

  /** A heartbeat's fence loss comes in while a run that failed for another reason waits for its writes. */
  predicate LossDuringDrain(s: Run, e: Event) {
    && s.place.DrainingFailure? && e.HeadSettles? && s.chain != [] && s.chain[0].HeartbeatPut?
    && e.refusal.Some? && StopFor(e.refusal.value).FenceIsLost?
  }

  predicate LosesWhileDraining(s: Run, events: seq<Event>)
    decreases |events|
  {
    events != [] && (LossDuringDrain(s, events[0]) || LosesWhileDraining(Next(s, events[0]), events[1..]))
  }

  lemma LossRecorded(s: Run, e: Event)
    ensures Next(s, e).lossWhileDraining <==> s.lossWhileDraining || LossDuringDrain(s, e)
  {
    match e
    case HeadSettles(refusal) => if s.chain != [] { HeadRecordsLoss(s, refusal); }
    case AcquireSettles(error, siteError) => AcquireRecordsNoLoss(s, error, siteError);
    case Yields(c) => YieldRecordsNoLoss(s, c);
    case StreamCloses(failure) => if s.place.ClosingStream? { CatchRecordsNoLoss(s, s.place.error); }
    case ChainDrains(summary) => DrainRecordsNoLoss(s, summary);
    case FinishSettles(refusal) =>
      if (s.place.Finishing? || s.place.FinishingFailure?) && s.finishes != [] { FinishRecordsNoLoss(s, refusal); }
    case _ =>
  }

  lemma CatchRecordsNoLoss(s: Run, e: ErrorCode)
    ensures Catch(s, e).lossWhileDraining == s.lossWhileDraining
  {
  }

  lemma AcquireRecordsNoLoss(s: Run, error: Option<ErrorCode>, siteError: Option<ErrorCode>)
    ensures OnAcquire(s, error, siteError).lossWhileDraining == s.lossWhileDraining
  {
    if error.Some? { CatchRecordsNoLoss(s, error.value); }
    else if siteError.Some? { CatchRecordsNoLoss(s.(leased := true), siteError.value); }
  }

  lemma FinishRecordsNoLoss(s: Run, refusal: Option<ErrorCode>)
    requires s.finishes != []
    ensures OnFinishSettled(s, refusal).lossWhileDraining == s.lossWhileDraining
  {
    if !s.place.FinishingFailure? && refusal.Some? {
      CatchRecordsNoLoss(s.(finishes := Answered(s.finishes, refusal)), refusal.value);
    }
  }

  lemma HeadRecordsLoss(s: Run, refusal: Option<ErrorCode>)
    requires s.chain != []
    ensures OnHeadSettled(s, refusal).lossWhileDraining
            <==> s.lossWhileDraining || LossDuringDrain(s, HeadSettles(refusal))
  {
    var s1 := s.(chain := s.chain[1..]);
    match s.chain[0]
    case ChunkPut(_, _, _) =>
      assert OnChunkSettled(s1, s.chain[0], refusal).lossWhileDraining == s.lossWhileDraining;
    case HeartbeatPut =>
      assert OnHeadSettled(s, refusal) == OnHeartbeatSettled(s1, refusal);
    case ReportPut =>
  }

  lemma YieldRecordsNoLoss(s: Run, c: Chunk)
    ensures OnYield(s, c).lossWhileDraining == s.lossWhileDraining
  {
  }

  lemma DrainRecordsNoLoss(s: Run, summary: Result<Outcome, ErrorCode>)
    ensures OnDrained(s, summary).lossWhileDraining == s.lossWhileDraining
  {
    if s.heartbeatStop.Some? { CatchRecordsNoLoss(s, s.heartbeatStop.value); }
    else if s.callerAborted {}
    else if s.outcome.None? && summary.Rejected? {
      CatchRecordsNoLoss(s.(summarized := Some((s.tally.chunks, s.tally.items))), summary.reason);
    }
  }

  lemma {:induction false} LossesRecorded(s: Run, events: seq<Event>)
    ensures Play(s, events).lossWhileDraining <==> s.lossWhileDraining || LosesWhileDraining(s, events)
    decreases |events|
  {
    if events != [] {
      LossRecorded(s, events[0]);
      LossesRecorded(Next(s, events[0]), events[1..]);
    }
  }

  /**
   * A heartbeat that loses the fence does not always keep the run from finishing. Of the runs that are over and whose
   * heartbeat lost the fence, those and only those that lost it during the drain of another failure made a finish
   * request, and it was the failed one.
   */
  lemma FinishAfterLoss(aborted: bool, events: seq<Event>)
    ensures var r := Play(Begin(aborted), events);
            r.heartbeatStop.Some? && Over(r.place) ==>
              && (r.finishes != [] <==> LosesWhileDraining(Begin(aborted), events))
              && (r.finishes != [] ==> r.place.ending.Failed? && FailedLast(r.finishes, r.place.ending.error))
  {
    BeginInv(aborted);
    PlayKept(Begin(aborted), events);
    LossesRecorded(Begin(aborted), events);
  }

  /** Such a run: the collector throws while a heartbeat is on its way, and that heartbeat finds the fence lost. */
  lemma FinishAfterLossHappens() returns (events: seq<Event>)
    ensures var r := Play(Begin(false), events);
            r.heartbeatStop.Some? && r.finishes == [FailedFinish(CollectFailed, Accepted)] && Over(r.place)
  {
    var opening := [AcquireSettles(None, None), TimerFires, Throws(CollectFailed), StreamCloses(None)];
    var draining := ThrowsWithHeartbeat();
    var closing := LosesThenFinishes(draining);
    PlayAppends(Begin(false), opening, closing);
    events := opening + closing;
  }

  lemma LosesThenFinishes(s: Run) returns (events: seq<Event>)
    requires s.place == DrainingFailure(CollectFailed) && s.chain == [HeartbeatPut] && s.finishes == []
    ensures var r := Play(s, events);
            r.heartbeatStop.Some? && r.finishes == [FailedFinish(CollectFailed, Accepted)] && Over(r.place)
  {
    events := [HeadSettles(Some(OperationFenceLost)), ChainDrains(Rejected(CollectFailed)), FinishSettles(None)];
    var s1 := Next(s, events[0]);
    assert s1.place == s.place && s1.chain == [] && s1.heartbeatStop.Some? && s1.finishes == [];
    var s2 := Next(s1, events[1]);
    assert s2.heartbeatStop.Some?;
    assert s2.finishes == [FailedFinish(CollectFailed, Awaited)] && s2.place == FinishingFailure(CollectFailed);
    assert events[1..][1..] == [events[2]];
    PlayOne(s2, events[2]);
    assert Play(s, events) == Play(s1, events[1..]) == Play(s2, [events[2]]);
  }

  lemma ThrowsWithHeartbeat() returns (s: Run)
    ensures s == Play(Begin(false), [AcquireSettles(None, None), TimerFires, Throws(CollectFailed), StreamCloses(None)])
    ensures s.place == DrainingFailure(CollectFailed) && s.chain == [HeartbeatPut] && s.finishes == []
  {
    var events := [AcquireSettles(None, None), TimerFires, Throws(CollectFailed), StreamCloses(None)];
    var s1 := Next(Begin(false), events[0]);
    var s2 := Next(s1, events[1]);
    assert s2.chain == [HeartbeatPut];
    var s3 := Next(s2, events[2]);
    s := Next(s3, events[3]);
    PlayOne(s3, events[3]);
    assert events[1..][1..] == events[2..] && events[2..][1..] == [events[3]];
    assert Play(Begin(false), events) == Play(s1, events[1..]) == Play(s2, events[2..]) == Play(s3, [events[3]]);
  }

  lemma PlayOne(s: Run, e: Event)
    ensures Play(s, [e]) == Next(s, e)
  {
  }

  lemma {:induction false} PlayAppends(s: Run, a: seq<Event>, b: seq<Event>)
    ensures Play(s, a + b) == Play(Play(s, a), b)
    decreases |a|
  {
    if a == [] {
      assert a + b == b;
    } else {
      assert (a + b)[1..] == a[1..] + b;
      PlayAppends(Next(s, a[0]), a[1..], b);
    }
  }

  /**
   * Numbering and counting. The non-empty chunks are sent in the order the collector yielded them, each with the number
   * of its kind's chunks so far; there are never more than the limit; the acknowledged ones are the sent ones up to the
   * last; and what summarize gets is their count and total length.
   */
  lemma ChunksAreNumbered(aborted: bool, events: seq<Event>)
    ensures var r := Play(Begin(aborted), events);
            && Numbered(r.tally.yielded, r.tally.sent) && |r.tally.sent| <= OPERATION_CHUNKS_MAX
            && r.tally.acked <= r.tally.sent
            && (r.summarized.Some? ==> r.summarized.value == (|r.tally.acked|, Items(r.tally.acked)))
  {
    BeginInv(aborted);
    PlayKept(Begin(aborted), events);
  }

  /** So a kind's numbers are 1 to k in order: neighbours have neighbouring numbers. */
  lemma NumbersAreConsecutive(yielded: seq<Chunk>, sent: seq<Put>, i: nat, j: nat)
    requires Numbered(yielded, sent) && i < j < |sent| && sent[i].kind == sent[j].kind
    requires forall m | i < m < j :: sent[m].kind != sent[i].kind
    ensures sent[j].sequence == sent[i].sequence + 1
  {
    var kind := sent[i].kind;
    CountSkips(sent, kind, i + 1, j);
    assert sent[..i + 1][..i] == sent[..i];
  }

  /** The first of a kind has number 1. */
  lemma FirstNumberIsOne(yielded: seq<Chunk>, sent: seq<Put>, i: nat)
    requires Numbered(yielded, sent) && i < |sent|
    requires forall m | 0 <= m < i :: sent[m].kind != sent[i].kind
    ensures sent[i].sequence == 1
  {
    CountSkips(sent, sent[i].kind, 0, i);
  }

  lemma {:induction false} CountSkips(sent: seq<Put>, kind: ChunkKind, from: nat, to: nat)
    requires from <= to <= |sent|
    requires forall m | from <= m < to :: sent[m].ChunkPut? && sent[m].kind != kind
    ensures CountOf(sent[..to], kind) == CountOf(sent[..from], kind)
  {
    if from < to {
      CountSkips(sent, kind, from, to - 1);
      assert sent[..to][..to - 1] == sent[..to - 1];
    }
  }
}
