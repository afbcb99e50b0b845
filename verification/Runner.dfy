/**
 * One run of a browser operation: lease, collected chunks with heartbeats on one write chain, then finish.
 *
 * The run waits at every await, and meanwhile the caller may abort, the heartbeat timer may fire, the collector may
 * report progress, and writes settle one by one. `Run` is everything the run's closures share; `Next` is what happens
 * at one event. Events that cannot happen where the run stands change nothing.
 */
module Runner {
  import opened Common

  const OPERATION_CHUNK_MAX_BYTES: int := 1024 * 1024
  const OPERATION_CHUNKS_MAX: int := 1_000

  datatype ErrorCode =
    | OperationInProgress | OperationFenceLost | OperationNotFound
    | CollectFailed | ChunkTooLarge | Other(code: string)

  datatype Stop = AlreadyRunning | FenceIsLost | ReportFailed

  /** The rule from a server's refusal to what the runtime does. */
  function StopFor(e: ErrorCode): Stop {
    match e
    case OperationInProgress => AlreadyRunning
    case OperationFenceLost => FenceIsLost
    case OperationNotFound => FenceIsLost
    case _ => ReportFailed
  }

  /** `heartbeat` is reserved for the runner's own writes. */
  datatype ChunkKind = HeartbeatKind | Kind(name: string)

  /** A chunk with the length of its payload and of the payload's JSON text. */
  datatype Chunk = Chunk(kind: ChunkKind, payload: nat, bytes: nat)

  /** A fenced write. A chunk with an empty payload only extends the lease. */
  datatype Put = ChunkPut(kind: ChunkKind, sequence: nat, payload: nat) | HeartbeatPut | ReportPut

  datatype Outcome = Succeeded | Reconciling

  datatype Reply = Awaited | Accepted | Refused

  /** The finish requests sent: with a result, or with the run's error. */
  datatype Finish = GoodFinish(outcome: Outcome, reply: Reply) | FailedFinish(error: ErrorCode, reply: Reply)

  datatype Ending = Finished | FenceLost | Cancelled | Failed(error: ErrorCode)

  /** What the run is awaiting. */
  datatype Place =
    | Acquiring
    | Collecting
    | Sending(put: Put)
    | StoppingStream
    | ClosingStream(error: ErrorCode)
    | Draining
    | Finishing
    | DrainingFailure(error: ErrorCode)
    | FinishingFailure(error: ErrorCode)
    | Releasing(ending: Ending)
    | Ended(ending: Ending)

  /**
   * The counters of the collection loop, and for the record the non-empty chunks the collector yielded, the puts made
   * for them and the puts acknowledged.
   */
  datatype Tally = Tally(
    sequences: map<ChunkKind, nat>,
    chunks: nat,
    items: nat,
    yielded: seq<Chunk>,
    sent: seq<Put>,
    acked: seq<Put>)

  /**
   * `chain` are the fenced writes not yet settled, the first of them in flight. The last three fields are a record of
   * the run: what summarize was given, whether the caller had aborted when collection ended, and whether a heartbeat
   * lost the fence while a failed run was draining its writes.
   */
  datatype Run = Run(
    place: Place,
    callerAborted: bool,
    localAborted: bool,
    heartbeatStop: Option<ErrorCode>,
    collectionDone: bool,
    timerArmed: bool,
    chain: seq<Put>,
    tally: Tally,
    outcome: Option<Outcome>,
    leased: bool,
    releases: nat,
    finishes: seq<Finish>,
    summarized: Option<(nat, nat)>,
    abortedAtEnd: Option<bool>,
    lossWhileDraining: bool)

  datatype Event =
    | CallerAborts
    | AcquireSettles(lockError: Option<ErrorCode>, siteError: Option<ErrorCode>)
    | Yields(chunk: Chunk)
    | Returns(result: Option<Outcome>)
    | Throws(error: ErrorCode)
    | Reports
    | TimerFires
    | HeadSettles(refusal: Option<ErrorCode>)
    | StreamCloses(failure: Option<ErrorCode>)
    | ChainDrains(summary: Result<Outcome, ErrorCode>)
    | FinishSettles(refusal: Option<ErrorCode>)
    | ReleaseSettles

  function Begin(aborted: bool): Run {
    Run(Acquiring, aborted, aborted, None, false, false, [], Tally(map[], 0, 0, [], [], []), None, false, 0, [],
        None, None, false)
  }

  // ---- What the closures do -----------------------------------------------------------------------------------

  function ScheduleHeartbeat(s: Run): Run { s.(timerArmed := !s.collectionDone && !s.localAborted) }

  function Write(s: Run, p: Put): Run { s.(chain := s.chain + [p]) }

  /** Collection is over, by whatever way: no heartbeat is scheduled from here on. */
  function EndCollection(s: Run): Run {
    s.(collectionDone := true, timerArmed := false,
       abortedAtEnd := if s.abortedAtEnd.None? then Some(s.callerAborted) else s.abortedAtEnd)
  }

  /** The `finally` block. */
  function Finally(s: Run, ending: Ending): Run {
    s.(place := Releasing(ending), timerArmed := false, localAborted := true,
       releases := s.releases + (if s.leased then 1 else 0))
  }

  /** The `catch` block up to its first await. */
  function Catch(s: Run, e: ErrorCode): Run {
    var s1 := EndCollection(s);
    if s1.heartbeatStop.None? && s1.callerAborted then Finally(s1, Cancelled)
    else
      var error := if s1.heartbeatStop.Some? then s1.heartbeatStop.value else e;
      if StopFor(error).FenceIsLost? then Finally(s1, FenceLost) else s1.(place := DrainingFailure(error))
  }

  function LastSequence(t: Tally, kind: ChunkKind): nat { if kind in t.sequences then t.sequences[kind] else 0 }

  function OnAcquire(s: Run, error: Option<ErrorCode>, siteError: Option<ErrorCode>): Run {
    if error.Some? then Catch(s, error.value)
    else
      var s1 := s.(leased := true);
      if siteError.Some? then Catch(s1, siteError.value) else ScheduleHeartbeat(s1).(place := Collecting)
  }

  /** The collector yielded a chunk; an empty one is not counted. */
  function Yielded(t: Tally, c: Chunk): Tally { if c.payload > 0 then t.(yielded := t.yielded + [c]) else t }

  /** The put for a chunk. An empty one uses the next number without taking it. */
  function PutFor(t: Tally, c: Chunk): Put {
    var next := LastSequence(t, c.kind) + 1;
    ChunkPut(c.kind, if c.payload == 0 then Min(next, OPERATION_CHUNKS_MAX) else next, c.payload)
  }

  function Sent(t: Tally, p: Put): Tally
    requires p.ChunkPut?
  {
    if p.payload == 0 then t else t.(sequences := t.sequences[p.kind := p.sequence], sent := t.sent + [p])
  }

  function Acknowledged(t: Tally, p: Put): Tally
    requires p.ChunkPut?
  {
    if p.payload == 0 then t
    else t.(chunks := t.chunks + 1, items := t.items + p.payload, acked := t.acked + [p])
  }

  function OnYield(s: Run, c: Chunk): Run {
    var t := Yielded(s.tally, c);
    if s.localAborted then s.(tally := t, place := StoppingStream)
    else if c.kind.HeartbeatKind? then s.(tally := t, place := ClosingStream(CollectFailed))
    else if c.payload > 0 && (c.bytes > OPERATION_CHUNK_MAX_BYTES || t.chunks >= OPERATION_CHUNKS_MAX)
    then s.(tally := t, place := ClosingStream(ChunkTooLarge))
    else
      var p := PutFor(t, c);
      Write(s, p).(tally := Sent(t, p), place := Sending(p))
  }

  /** The collection loop after its write settled. */
  function OnChunkSettled(s: Run, p: Put, refusal: Option<ErrorCode>): Run
    requires p.ChunkPut?
  {
    if refusal.Some? then s.(place := ClosingStream(refusal.value))
    else ScheduleHeartbeat(s).(tally := Acknowledged(s.tally, p), place := Collecting)
  }

  function OnHeartbeatSettled(s: Run, refusal: Option<ErrorCode>): Run {
    if refusal.Some? && StopFor(refusal.value).FenceIsLost? then
      s.(heartbeatStop := refusal, localAborted := true,
         lossWhileDraining := s.lossWhileDraining || s.place.DrainingFailure?)
    else ScheduleHeartbeat(s)
  }

  function OnHeadSettled(s: Run, refusal: Option<ErrorCode>): Run
    requires s.chain != []
  {
    var p, s1 := s.chain[0], s.(chain := s.chain[1..]);
    match p
    case ChunkPut(_, _, _) => OnChunkSettled(s1, p, refusal)
    case HeartbeatPut => OnHeartbeatSettled(s1, refusal)
    case ReportPut => if refusal.None? then ScheduleHeartbeat(s1) else s1
  }

  /** After the last write: `summary` is the finish value, or what summarize threw. */
  function OnDrained(s: Run, summary: Result<Outcome, ErrorCode>): Run {
    if s.heartbeatStop.Some? then Catch(s, s.heartbeatStop.value)
    else if s.callerAborted then Finally(s, Cancelled)
    else
      var s1 := if s.outcome.Some? then s else s.(summarized := Some((s.tally.chunks, s.tally.items)));
      if s.outcome.None? && summary.Rejected? then Catch(s1, summary.reason)
      else
        var outcome := if s.outcome.Some? then s.outcome.value else summary.value;
        s1.(place := Finishing, finishes := s.finishes + [GoodFinish(outcome, Awaited)])
  }

  function Answered(finishes: seq<Finish>, refusal: Option<ErrorCode>): seq<Finish>
    requires finishes != []
  {
    var last := |finishes| - 1;
    finishes[last := finishes[last].(reply := if refusal.None? then Accepted else Refused)]
  }

  function OnFinishSettled(s: Run, refusal: Option<ErrorCode>): Run
    requires s.finishes != []
  {
    var s1 := s.(finishes := Answered(s.finishes, refusal));
    if s.place.FinishingFailure? then Finally(s1, Failed(s.place.error))
    else if refusal.None? then Finally(s1, Finished)
    else Catch(s1, refusal.value)
  }

  function Next(s: Run, e: Event): Run {
    match e
    case CallerAborts => s.(callerAborted := true, localAborted := true)
    case AcquireSettles(error, siteError) => if s.place.Acquiring? then OnAcquire(s, error, siteError) else s
    case Yields(c) => if s.place.Collecting? then OnYield(s, c) else s
    case Returns(result) =>
      if s.place.Collecting? then EndCollection(s).(outcome := result, place := Draining) else s
    case Throws(error) => if s.place.Collecting? then s.(place := ClosingStream(error)) else s
    case Reports =>
      if s.place.Acquiring? || s.collectionDone || s.localAborted then s else Write(s, ReportPut)
    case TimerFires => if s.timerArmed then Write(s.(timerArmed := false), HeartbeatPut) else s
    case HeadSettles(refusal) => if s.chain != [] then OnHeadSettled(s, refusal) else s
    case StreamCloses(failure) =>
      if s.place.ClosingStream? then Catch(s, s.place.error)
      else if s.place.StoppingStream? then
        if failure.Some? then s.(place := ClosingStream(failure.value)) else EndCollection(s).(place := Draining)
      else s
    case ChainDrains(summary) =>
      if s.chain != [] then s
      else if s.place.Draining? then OnDrained(s, summary)
      else if s.place.DrainingFailure? then
        s.(place := FinishingFailure(s.place.error), finishes := s.finishes + [FailedFinish(s.place.error, Awaited)])
      else s
    case FinishSettles(refusal) =>
      if (s.place.Finishing? || s.place.FinishingFailure?) && s.finishes != [] then OnFinishSettled(s, refusal) else s
    case ReleaseSettles => if s.place.Releasing? then s.(place := Ended(s.place.ending)) else s
  }

  function Play(s: Run, events: seq<Event>): Run
    decreases |events|
  {
    if events == [] then s else Play(Next(s, events[0]), events[1..])
  }
}
