/** Collections live no longer than the web app's tabs: the last tab gone cancels every session, a few at a time. */
module AppLifetime {
  import opened Common
  import opened CollectionStore
  import opened Coalescing

  // ---- Batches ---------------------------------------------------------------------------------------------------

  /** The log of the runs of a batch: each is started, and settles with an outcome. */
  datatype Entry<+R> = Started(index: nat) | Settled(index: nat, outcome: R)

  function Starts<R>(log: seq<Entry<R>>): seq<nat> {
    if log == [] then []
    else Starts(log[..|log| - 1]) + (if log[|log| - 1].Started? then [log[|log| - 1].index] else [])
  }

  function Settles<R>(log: seq<Entry<R>>): seq<nat> {
    if log == [] then []
    else Settles(log[..|log| - 1]) + (if log[|log| - 1].Settled? then [log[|log| - 1].index] else [])
  }

  function InFlight<R>(log: seq<Entry<R>>): int { |Starts(log)| - |Settles(log)| }

  function UpTo(n: nat): seq<nat> { if n == 0 then [] else UpTo(n - 1) + [n - 1] }

  lemma {:induction false} UpToIs(n: nat)
    ensures |UpTo(n)| == n && forall i | 0 <= i < n :: UpTo(n)[i] == i
  {
    if n > 0 { UpToIs(n - 1); }
  }

  ghost predicate IsOrder(order: seq<nat>, n: nat) {
    |order| == n && (forall i | i in order :: i < n) && forall i, j | 0 <= i < j < n :: order[i] != order[j]
  }

  function Elements(order: seq<nat>): set<nat> { set i | i in order }

  lemma {:induction false} DistinctCount(order: seq<nat>)
    requires forall i, j | 0 <= i < j < |order| :: order[i] != order[j]
    ensures |Elements(order)| == |order|
  {
    if order != [] {
      var init, last := order[..|order| - 1], order[|order| - 1];
      DistinctCount(init);
      assert order == init + [last];
      assert Elements(order) == Elements(init) + {last};
      assert last !in init;
    }
  }

  lemma {:induction false} BelowCount(s: set<nat>, n: nat)
    requires forall i | i in s :: i < n
    ensures |s| <= n && (|s| == n ==> forall i: nat | i < n :: i in s)
  {
    if n > 0 {
      BelowCount(s - {n - 1}, n - 1);
      if n - 1 in s { assert s == s - {n - 1} + {n - 1}; } else { assert s - {n - 1} == s; }
      forall i: nat | |s| == n && i < n ensures i in s {
        if i < n - 1 { assert i in s - {n - 1}; }
      }
    } else {
      assert s == {};
    }
  }

  /** An order names every place. */
  lemma OrderCovers(order: seq<nat>, n: nat)
    requires IsOrder(order, n)
    ensures forall i: nat | i < n :: i in order
  {
    DistinctCount(order);
    BelowCount(Elements(order), n);
    forall i: nat | i < n ensures i in order {
      assert i in Elements(order);
    }
  }

  /** At no point of the log are more than `limit` runs between their start and their end. */
  ghost predicate Bounded<R>(log: seq<Entry<R>>, limit: int) {
    forall k | 0 <= k <= |log| :: 0 <= InFlight(log[..k]) <= limit
  }

  lemma LogAppends<R>(log: seq<Entry<R>>, e: Entry<R>, limit: int)
    requires Bounded(log, limit)
    requires e.Started? ==> InFlight(log) < limit
    requires e.Settled? ==> InFlight(log) > 0
    ensures Bounded(log + [e], limit)
    ensures Starts(log + [e]) == Starts(log) + (if e.Started? then [e.index] else [])
    ensures Settles(log + [e]) == Settles(log) + (if e.Settled? then [e.index] else [])
  {
    var next := log + [e];
    assert next[..|log|] == log;
    assert log[..|log|] == log && next[..|next|] == next;
    forall k | 0 <= k <= |next| ensures 0 <= InFlight(next[..k]) <= limit {
      if k <= |log| { assert next[..k] == log[..k]; }
    }
  }

  /**
   * Runs every item of a list in batches, the runs of a batch at once and settling in any order, one batch after the
   * other. `outcomes` is how each run settles, and `pick` in which order the runs of a batch do. Every item is started
   * once, in order and with its own index, and settles once; at each place of the result stands what that item's run
   * settled with; and never are more than `limit` runs in flight.
   */
  method InBatches<R>(items: nat, limit: nat, outcomes: seq<R>, pick: (nat, nat) -> seq<nat>)
    returns (results: seq<R>, log: seq<Entry<R>>)
    requires limit > 0 && |outcomes| == items
    requires forall start, size :: IsOrder(pick(start, size), size)
    ensures |results| == items && forall i | 0 <= i < items :: Settled(i, results[i]) in log
    ensures forall e | e in log && e.Settled? :: e.index < items && e.outcome == outcomes[e.index]
    ensures Starts(log) == UpTo(items) && IsOrder(Settles(log), items)
    ensures Bounded(log, limit)
  {
    results, log := [], [];
    var start := 0;
    while start < items
      invariant start <= items && |results| == start
      invariant forall i | 0 <= i < start :: Settled(i, results[i]) in log
      invariant forall e | e in log && e.Settled? :: e.index < start && e.outcome == outcomes[e.index]
      invariant Starts(log) == UpTo(start) && IsOrder(Settles(log), start) && Bounded(log, limit)
      decreases items - start
    {
      var size := Min(limit, items - start);
      log := StartBatch(log, start, size, limit);
      var batch: seq<R>;
      log, batch := SettleBatch(log, start, pick(start, size), outcomes, limit);
      results := results + batch;
      start := start + size;
    }
  }

  method StartBatch<R>(before: seq<Entry<R>>, start: nat, size: nat, limit: nat) returns (log: seq<Entry<R>>)
    requires Starts(before) == UpTo(start) && |Settles(before)| == start && Bounded(before, limit) && size <= limit
    ensures Starts(log) == UpTo(start + size) && Settles(log) == Settles(before) && Bounded(log, limit)
    ensures forall e :: e in before ==> e in log
    ensures forall e | e in log && e.Settled? :: e in before
  {
    log := before;
    for offset := 0 to size
      invariant Starts(log) == UpTo(start + offset) && Settles(log) == Settles(before) && Bounded(log, limit)
      invariant forall e :: e in before ==> e in log
      invariant forall e | e in log && e.Settled? :: e in before
    {
      UpToIs(start + offset);
      LogAppends(log, Started(start + offset), limit);
      log := log + [Started(start + offset)];
    }
  }

  /** The runs of a batch settle in this order, each at its own place. */
  method SettleBatch<R>(before: seq<Entry<R>>, start: nat, order: seq<nat>, outcomes: seq<R>, limit: nat)
    returns (log: seq<Entry<R>>, batch: seq<R>)
    requires Starts(before) == UpTo(start + |order|) && IsOrder(Settles(before), start) && Bounded(before, limit)
    requires IsOrder(order, |order|) && start + |order| <= |outcomes|
    ensures Starts(log) == Starts(before) && IsOrder(Settles(log), start + |order|) && Bounded(log, limit)
    ensures |batch| == |order| && forall i | 0 <= i < |batch| :: Settled(start + i, batch[i]) in log
    ensures forall e :: e in before ==> e in log
    ensures forall e | e in log && e.Settled? ::
              e in before || (start <= e.index < start + |order| && e.outcome == outcomes[e.index])
  {
    log := before;
    var places := seq(|order|, i requires 0 <= i < |order| => None);
    for k := 0 to |order|
      invariant Starts(log) == Starts(before) && Bounded(log, limit) && |places| == |order|
      invariant Settles(log) == Settles(before) + seq(k, i requires 0 <= i < k => start + order[i])
      invariant forall i | 0 <= i < k :: order[i] < |places| && places[order[i]].Some?
      invariant forall i | 0 <= i < |places| && places[i].Some? :: Settled(start + i, places[i].value) in log
      invariant forall e :: e in before ==> e in log
      invariant forall e | e in log && e.Settled? ::
                  e in before || (start <= e.index < start + |order| && e.outcome == outcomes[e.index])
    {
      UpToIs(start + |order|);
      assert order[k] in order;
      var e := Settled(start + order[k], outcomes[start + order[k]]);
      LogAppends(log, e, limit);
      log := log + [e];
      places := places[order[k] := Some(e.outcome)];
    }
    ExtendOrder(Settles(before), start, order);
    OrderCovers(order, |order|);
    forall i | 0 <= i < |places| ensures places[i].Some? {
      assert i in order;
    }
    batch := seq(|places|, i requires 0 <= i < |places| && places[i].Some? => places[i].value);
  }

  lemma ExtendOrder(done: seq<nat>, start: nat, order: seq<nat>)
    requires IsOrder(done, start) && IsOrder(order, |order|)
    ensures IsOrder(done + seq(|order|, i requires 0 <= i < |order| => start + order[i]), start + |order|)
  {
    var shifted := seq(|order|, i requires 0 <= i < |order| => start + order[i]);
    var all := done + shifted;
    forall i | 0 <= i < |all| ensures all[i] < start + |order| && (i >= start ==> all[i] >= start) {
      if i < start { assert all[i] in done; } else { assert order[i - start] in order; }
    }
    forall i, j | 0 <= i < j < |all| ensures all[i] != all[j] {
      if i < start { assert all[i] == done[i] && done[i] in done; }
    }
  }

  // ---- Cancelling sessions ---------------------------------------------------------------------------------------

  const CANCEL_CONCURRENCY: nat := 4

  /** How the fence of a session goes, what it answers, and how its owner's cancellation goes. */
  datatype Attempt = Attempt(id: AttemptId, environment: Environment, fence: Result<bool, nat>, owner: Result<bool, nat>)

  /** A fence that found the record gone. Its owner is not asked again. */
  predicate Stale(t: Attempt) { t.fence == Ok(false) }

  /** The session is fenced, and its owner has let go of it. */
  predicate LetGo(t: Attempt) { t.fence.Ok? && (t.fence.value ==> t.owner.Ok?) }

  function Of(targets: seq<Attempt>, environment: Environment): seq<Attempt> {
    if targets == [] then []
    else
      var last := targets[|targets| - 1];
      Of(targets[..|targets| - 1], environment) + (if last.environment == environment then [last] else [])
  }

  predicate AllLetGo(targets: seq<Attempt>, environment: Environment) {
    forall t | t in Of(targets, environment) :: LetGo(t)
  }

  /**
   * How far the cancellation of a session is: 0 before its run starts, 1 while its fence is under way, 2 while its owner
   * is asked, 3 when it has settled. The runs of a batch are independent, so any that is under way can go on next.
   */
  type Phases = seq<nat>

  predicate UnderWay(phases: Phases, i: nat) { i < |phases| && (phases[i] == 1 || phases[i] == 2) }

  predicate Busy(phases: Phases) { exists i | 0 <= i < |phases| :: UnderWay(phases, i) }

  type Schedule = Phases -> nat

  ghost predicate Proper(next: Schedule) { forall phases: Phases | Busy(phases) :: UnderWay(phases, next(phases)) }

  /** What becomes of a session's run next. An owner is asked as soon as its own fence is answered, if it is at all. */
  function After(t: Attempt, phase: nat): nat {
    if phase == 0 then 1 else if phase == 1 && !Stale(t) then 2 else 3
  }

  ghost predicate Moves(mine: seq<Attempt>, p: Phases, q: Phases, i: nat) {
    i < |mine| == |p| && p[i] < 3 && q == p[i := After(mine[i], p[i])]
  }

  ghost predicate OneMoves(mine: seq<Attempt>, p: Phases, q: Phases) { exists i :: Moves(mine, p, q, i) }

  /** At most four runs, next to each other, are under way; those before have settled and those after have not begun. */
  ghost predicate WindowAt(p: Phases, start: nat) {
    (forall i | 0 <= i < |p| && i < start :: p[i] == 3) &&
    (forall i | 0 <= i < |p| && start + CANCEL_CONCURRENCY <= i :: p[i] == 0)
  }

  ghost predicate Windowed(p: Phases) { exists start: nat :: WindowAt(p, start) }

  /** A course of cancellations to `now`, from where no run has begun: one run makes one move at a time. */
  ghost predicate IsCourse(mine: seq<Attempt>, course: seq<Phases>, now: Phases)
    decreases |course|
  {
    && course != [] && course[|course| - 1] == now && |now| == |mine| && Windowed(now)
    && if |course| == 1 then forall i | 0 <= i < |now| :: now[i] == 0
       else IsCourse(mine, course[..|course| - 1], course[|course| - 2])
            && OneMoves(mine, course[|course| - 2], now)
  }

  lemma CourseGoesOn(mine: seq<Attempt>, course: seq<Phases>, now: Phases, next: Phases, i: nat, start: nat)
    requires IsCourse(mine, course, now) && Moves(mine, now, next, i) && WindowAt(next, start)
    ensures IsCourse(mine, course + [next], next)
  {
    var longer := course + [next];
    assert longer[..|longer| - 1] == course && longer[|longer| - 2] == now;
    assert OneMoves(mine, now, next);
  }

  /** The runs that are under way. */
  function Current(phases: Phases): set<nat> { set i | 0 <= i < |phases| && UnderWay(phases, i) }

  /** At every point of a course at most four cancellations are under way. */
  lemma {:induction false} AtMostFour(mine: seq<Attempt>, course: seq<Phases>, now: Phases, j: nat)
    requires IsCourse(mine, course, now) && j < |course|
    ensures |Current(course[j])| <= 4
    decreases |course|
  {
    if j < |course| - 1 {
      AtMostFour(mine, course[..|course| - 1], course[|course| - 2], j);
    } else {
      var start: nat :| WindowAt(now, start);
      WindowCount(Current(now), start, CANCEL_CONCURRENCY);
    }
  }

  lemma {:induction false} WindowCount(s: set<int>, start: nat, n: nat)
    requires forall i | i in s :: start <= i < start + n
    ensures |s| <= n
  {
    if n > 0 {
      var last := start + n - 1;
      WindowCount(s - {last}, start, n - 1);
      assert s <= s - {last} + {last};
      if last in s { assert s == s - {last} + {last}; } else { assert s - {last} == s; }
    } else {
      forall i ensures i !in s {}
    }
  }

  function Remaining(phases: Phases): nat {
    if phases == [] then 0
    else Remaining(phases[..|phases| - 1]) + (if phases[|phases| - 1] < 3 then 3 - phases[|phases| - 1] else 0)
  }

  lemma {:induction false} LessRemains(phases: Phases, i: nat, phase: nat)
    requires i < |phases| && phases[i] < phase <= 3
    ensures Remaining(phases[i := phase]) < Remaining(phases)
  {
    var n := |phases| - 1;
    if i == n {
      assert phases[i := phase][..n] == phases[..n];
    } else {
      assert phases[i := phase][..n] == phases[..n][i := phase];
      LessRemains(phases[..n], i, phase);
    }
  }

  /** Run `i` waits for its owner on this flight. */
  predicate Waits(mine: seq<Attempt>, phases: Phases, flights: seq<nat>, i: nat, a: AttemptId, flight: nat) {
    i < |mine| == |phases| == |flights| && phases[i] == 2 && mine[i].id == a && flights[i] == flight
  }

  /** The routes under way are those of before, and those that runs wait for; and each asked owner is its session's. */
  ghost predicate RoutesOk(
    routes: Flights<AttemptId>, was: map<AttemptId, nat>, mine: seq<Attempt>, phases: Phases, flights: seq<nat>)
    reads routes
  {
    && routes.Valid() && |mine| == |phases| == |flights|
    && (forall a | a in routes.current ::
          (a in was && was[a] == routes.current[a]) ||
          exists i :: Waits(mine, phases, flights, i, a, routes.current[a]))
    && (forall i | 0 <= i < |mine| && phases[i] >= 2 && !Stale(mine[i]) ::
          flights[i] < |routes.begun| && routes.begun[flights[i]] == mine[i].id)
    && (forall a | a in was && (forall t | t in mine :: t.id != a) :: a in routes.current && routes.current[a] == was[a])
  }

  /** The fence of run `i` is answered and its owner asked, by a cancellation that may be under way already. */
  method AskOwner(
    routes: Flights<AttemptId>, ghost was: map<AttemptId, nat>, mine: seq<Attempt>, phases: Phases, flights: seq<nat>,
    i: nat)
    returns (flights': seq<nat>)
    requires RoutesOk(routes, was, mine, phases, flights) && i < |mine| && phases[i] == 1 && !Stale(mine[i])
    modifies routes
    ensures RoutesOk(routes, was, mine, phases[i := 2], flights')
  {
    var flight := routes.Join(mine[i].id);
    flights' := flights[i := flight];
    ghost var phases' := phases[i := 2];
    assert mine[i] in mine;
    forall a | a in routes.current
      ensures (a in was && was[a] == routes.current[a]) ||
              exists k :: Waits(mine, phases', flights', k, a, routes.current[a])
    {
      if a == mine[i].id { assert Waits(mine, phases', flights', i, a, routes.current[a]); }
      else if !(a in was && was[a] == routes.current[a]) {
        var k :| Waits(mine, phases, flights, k, a, routes.current[a]);
        assert Waits(mine, phases', flights', k, a, routes.current[a]);
      }
    }
  }

  /** Run `i` settles; if it waited for its owner, that cancellation has landed. */
  method SettleRun(
    routes: Flights<AttemptId>, ghost was: map<AttemptId, nat>, mine: seq<Attempt>, phases: Phases, flights: seq<nat>,
    i: nat)
    requires RoutesOk(routes, was, mine, phases, flights) && i < |mine|
    requires phases[i] == 2 || (phases[i] == 1 && Stale(mine[i]))
    requires forall k | 0 <= k < |mine| && phases[k] == 2 :: !Stale(mine[k])
    modifies routes
    ensures RoutesOk(routes, was, mine, phases[i := 3], flights)
  {
    var id := mine[i].id;
    assert mine[i] in mine;
    ghost var before := routes.current;
    if phases[i] == 2 && id in routes.current && routes.current[id] == flights[i] { routes.Land(flights[i]); }
    ghost var phases' := phases[i := 3];
    forall a | a in routes.current
      ensures (a in was && was[a] == routes.current[a]) ||
              exists k :: Waits(mine, phases', flights, k, a, routes.current[a])
    {
      if !(a in was && was[a] == routes.current[a]) {
        var k :| Waits(mine, phases, flights, k, a, before[a]);
        assert Waits(mine, phases', flights, k, a, routes.current[a]);
      }
    }
  }

  /** One move of a run that is under way. */
  method GoOn(
    routes: Flights<AttemptId>, ghost was: map<AttemptId, nat>, mine: seq<Attempt>, phases: Phases, flights: seq<nat>,
    i: nat)
    returns (phases': Phases, flights': seq<nat>)
    requires RoutesOk(routes, was, mine, phases, flights) && i < |mine| && UnderWay(phases, i)
    requires forall k | 0 <= k < |mine| && phases[k] == 2 :: !Stale(mine[k])
    modifies routes
    ensures RoutesOk(routes, was, mine, phases', flights') && Moves(mine, phases, phases', i)
  {
    flights' := flights;
    if phases[i] == 1 && mine[i].fence != Ok(false) {
      flights' := AskOwner(routes, was, mine, phases, flights, i);
      phases' := phases[i := 2];
    } else {
      SettleRun(routes, was, mine, phases, flights, i);
      phases' := phases[i := 3];
    }
  }

  /** Where a batch stands: its first run is `start`, and those up to `begun` have begun. */
  ghost predicate BatchAt(mine: seq<Attempt>, phases: Phases, start: nat, begun: nat) {
    && start <= begun <= |mine| == |phases| && begun <= start + CANCEL_CONCURRENCY
    && (forall i | 0 <= i < |mine| :: if i < start then phases[i] == 3 else if i < begun then 1 <= phases[i] <= 3 else phases[i] == 0)
    && (forall i | 0 <= i < |mine| && phases[i] == 2 :: !Stale(mine[i]))
  }

  /** A run that begins asks nobody yet. */
  lemma RoutesSame(
    routes: Flights<AttemptId>, was: map<AttemptId, nat>, mine: seq<Attempt>, phases: Phases, phases': Phases,
    flights: seq<nat>, i: nat)
    requires RoutesOk(routes, was, mine, phases, flights) && i < |mine| && phases[i] == 0 && phases' == phases[i := 1]
    ensures RoutesOk(routes, was, mine, phases', flights)
  {
    forall a | a in routes.current && !(a in was && was[a] == routes.current[a])
      ensures exists k :: Waits(mine, phases', flights, k, a, routes.current[a])
    {
      var k :| Waits(mine, phases, flights, k, a, routes.current[a]);
      assert Waits(mine, phases', flights, k, a, routes.current[a]);
    }
  }

  /** Where the cancellations stand in the middle of a batch. */
  ghost predicate Standing(
    routes: Flights<AttemptId>, was: map<AttemptId, nat>, mine: seq<Attempt>, phases: Phases, flights: seq<nat>,
    course: seq<Phases>, start: nat, begun: nat)
    reads routes
  {
    BatchAt(mine, phases, start, begun) && RoutesOk(routes, was, mine, phases, flights) && IsCourse(mine, course, phases)
  }

  lemma Begins(
    routes: Flights<AttemptId>, was: map<AttemptId, nat>, mine: seq<Attempt>, phases: Phases, flights: seq<nat>,
    course: seq<Phases>, start: nat, begun: nat)
    requires Standing(routes, was, mine, phases, flights, course, start, begun)
    requires begun < |mine| && begun < start + CANCEL_CONCURRENCY
    ensures var phases' := phases[begun := 1];
            Standing(routes, was, mine, phases', flights, course + [phases'], start, begun + 1)
  {
    var phases' := phases[begun := 1];
    RoutesSame(routes, was, mine, phases, phases', flights, begun);
    CourseGoesOn(mine, course, phases, phases', begun, start);
  }

  lemma GoesOn(mine: seq<Attempt>, phases: Phases, course: seq<Phases>, start: nat, begun: nat, i: nat, phases': Phases)
    requires BatchAt(mine, phases, start, begun) && IsCourse(mine, course, phases) && UnderWay(phases, i)
    requires Moves(mine, phases, phases', i)
    ensures BatchAt(mine, phases', start, begun) && IsCourse(mine, course + [phases'], phases')
  {
    CourseGoesOn(mine, course, phases, phases', i, start);
  }

  /** Every session whose run has settled was let go of. */
  ghost predicate SettledWell(mine: seq<Attempt>, phases: Phases)
    requires |mine| == |phases|
  {
    forall i | 0 <= i < |mine| && phases[i] == 3 :: LetGo(mine[i])
  }

  lemma OneMoreSettled(mine: seq<Attempt>, phases: Phases, phases': Phases, i: nat)
    requires Moves(mine, phases, phases', i)
    ensures SettledWell(mine, phases') <==> SettledWell(mine, phases) && (phases'[i] == 3 ==> LetGo(mine[i]))
  {
    if SettledWell(mine, phases') {
      forall k | 0 <= k < |mine| && phases[k] == 3 ensures LetGo(mine[k]) { assert phases'[k] == 3; }
    }
  }

  /** Runs the cancellations to their ends, four at a time. */
  method CancelAll(mine: seq<Attempt>, routes: Flights<AttemptId>, next: Schedule)
    returns (settled: bool, course: seq<Phases>, phases: Phases, flights: seq<nat>)
    requires routes.Valid() && Proper(next)
    modifies routes
    ensures IsCourse(mine, course, phases) && (forall i | 0 <= i < |mine| :: phases[i] == 3)
    ensures settled <==> forall i | 0 <= i < |mine| :: LetGo(mine[i])
    ensures RoutesOk(routes, old(routes.current), mine, phases, flights)
  {
    ghost var was := routes.current;
    phases := seq(|mine|, _ => 0);
    flights := seq(|mine|, _ => 0);
    settled, course := true, [phases];
    var start, begun := 0, 0;
    assert WindowAt(phases, 0);
    while start < |mine|
      invariant Standing(routes, was, mine, phases, flights, course, start, begun)
      invariant settled <==> SettledWell(mine, phases)
      decreases Remaining(phases), |mine| - start
    {
      if begun < |mine| && begun < start + CANCEL_CONCURRENCY {
        Begins(routes, was, mine, phases, flights, course, start, begun);
        LessRemains(phases, begun, 1);
        OneMoreSettled(mine, phases, phases[begun := 1], begun);
        phases := phases[begun := 1];
        course := course + [phases];
        begun := begun + 1;
      } else if Busy(phases) {
        var i := next(phases);
        LessRemains(phases, i, After(mine[i], phases[i]));
        ghost var before := phases;
        phases, flights := GoOn(routes, was, mine, phases, flights, i);
        GoesOn(mine, before, course, start, begun, i, phases);
        course := course + [phases];
        OneMoreSettled(mine, before, phases, i);
        if phases[i] == 3 && !LetGo(mine[i]) { settled := false; }
      } else {
        forall i | start <= i < begun ensures phases[i] == 3 { assert !UnderWay(phases, i); }
        start := begun;
      }
    }
  }

  /**
   * Fences every session of the environment in batches of four, and asks the owner of each whose record was still there,
   * or whose fence failed, as soon as that is known, joining a cancellation of that attempt that is under way already.
   * The runs of a batch go on in any order. The whole has settled exactly when every fence went well and so did every
   * owner that was asked; no cancellation that it began or joined is then under way.
   */
  method CancelSessions(
    environment: Environment, targets: seq<Attempt>, routes: Flights<AttemptId>, next: Schedule)
    returns (settled: bool, course: seq<Phases>, phases: Phases, flights: seq<nat>)
    requires routes.Valid() && Proper(next)
    modifies routes
    ensures var mine := Of(targets, environment);
            && IsCourse(mine, course, phases) && (forall i | 0 <= i < |mine| :: phases[i] == 3)
            && |flights| == |mine| && (forall i | 0 <= i < |mine| && !Stale(mine[i]) ::
                                         flights[i] < |routes.begun| && routes.begun[flights[i]] == mine[i].id)
            && (forall a | a in old(routes.current) && (forall t | t in mine :: t.id != a) :: a in routes.current)
    ensures settled <==> AllLetGo(targets, environment)
    ensures routes.Valid()
    ensures forall a | a in routes.current :: a in old(routes.current) && routes.current[a] == old(routes.current[a])
  {
    var mine := Of(targets, environment);
    settled, course, phases, flights := CancelAll(mine, routes, next);
    forall t | t in mine ensures settled ==> LetGo(t) {
      var i :| 0 <= i < |mine| && mine[i] == t;
    }
    forall a | a in routes.current ensures a in old(routes.current) && routes.current[a] == old(routes.current[a]) {
      if k :| Waits(mine, phases, flights, k, a, routes.current[a]) { assert false; }
    }
  }

  lemma OfOne(t: Attempt)
    ensures Of([t], t.environment) == [t]
  {
    assert [t][..0] == [];
    assert Of([t], t.environment) == Of([], t.environment) + [t];
  }
}
