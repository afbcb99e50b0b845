/**
 * The admission check of a collection that is about to run, and what becomes of the session it refuses. Fences are
 * stored by transactions that can fail; a cleanup of the environment may be under way meanwhile, and owners that are
 * asked fence a session once more before they let go of it.
 */
module AppAdmission {
  import opened Common
  import opened CollectionStore
  import opened Coalescing
  import opened AppLifetime
  import opened AppStartup
  import Protocol = CollectionProtocol
  import Theorems = CollectionTheorems
  import SessionStorage

  /** One fence of a session, whoever asks for it: whether its transaction can read and write, and when. */
  datatype Try = Try(attempt: AttemptId, fault: Protocol.Fault, clock: Clock)

  /**
   * What the check, a cleanup and the owners they ask do to the store: fences, the transactions that follow a stored
   * fence, and the end of a fenced record that its owner has let go of.
   */
  datatype Act =
    | Fence(try: Try)
    | ClearManaged(attempt: AttemptId, tab: TabId, clock: Clock)
    | DropPending(attempt: AttemptId, closed: set<TabId>, clock: Clock)
    | Forget(attempt: AttemptId, clock: Clock)

  function AttemptOf(act: Act): AttemptId { if act.Fence? then act.try.attempt else act.attempt }

  function ClockOf(act: Act): Clock { if act.Fence? then act.try.clock else act.clock }

  function AfterTry(sessions: Sessions, t: Try, environment: Environment): Sessions {
    match t.fault
    case ReadFails => sessions
    case WriteFails => Prune(sessions, t.clock.readAt)
    case NoFault => Written(FenceBody(Prune(sessions, t.clock.readAt), t.attempt, environment, t.clock.stampAt), t.clock)
  }

  predicate FencedIn(sessions: Sessions, a: AttemptId) { a in sessions && IsFenced(sessions[a]) }

  function AfterAct(sessions: Sessions, act: Act, environment: Environment): Sessions {
    match act
    case Fence(t) => AfterTry(sessions, t, environment)
    case ClearManaged(a, tab, clock) =>
      Written(ClearManagedBody(Prune(sessions, clock.readAt), a, tab, clock.stampAt), clock)
    case DropPending(a, closed, clock) =>
      Written(DropListedBody(Prune(sessions, clock.readAt), a, environment, closed, clock.stampAt), clock)
    case Forget(a, clock) =>
      if FencedIn(sessions, a) then Written(RemoveBody(Prune(sessions, clock.readAt), a), clock) else sessions
  }

  function AfterActs(sessions: Sessions, acts: seq<Act>, environment: Environment): Sessions {
    if acts == [] then sessions
    else AfterAct(AfterActs(sessions, acts[..|acts| - 1], environment), acts[|acts| - 1], environment)
  }

  lemma {:induction false} ActsAppend(sessions: Sessions, first: seq<Act>, second: seq<Act>, environment: Environment)
    ensures AfterActs(sessions, first + second, environment)
            == AfterActs(AfterActs(sessions, first, environment), second, environment)
  {
    if second == [] {
      assert first + second == first;
    } else {
      assert (first + second)[..|first + second| - 1] == first + second[..|second| - 1];
      ActsAppend(sessions, first, second[..|second| - 1], environment);
    }
  }

  /** The record is recent enough for every prune of the transactions. */
  predicate Fresh(s: Session, clock: Clock) {
    s.updatedAt >= clock.readAt - RETENTION_MS && s.updatedAt >= clock.writeAt - RETENTION_MS
  }

  ghost predicate FreshFor(s: Session, acts: seq<Act>) { forall act | act in acts :: Fresh(s, ClockOf(act)) }

  /** No record of the attempt is left that could go on: it is fenced, or it is gone. */
  predicate Stopped(sessions: Sessions, a: AttemptId) { a in sessions ==> IsFenced(sessions[a]) }

  /** The act stores a fence of this attempt, if the record is there. */
  predicate Stops(act: Act, a: AttemptId) { act.Fence? && act.try.attempt == a && act.try.fault.NoFault? }

  /** The act cannot change the record of this attempt as long as it is not fenced. */
  predicate Leaves(act: Act, a: AttemptId) {
    AttemptOf(act) != a || act.Forget? || (act.Fence? && !act.try.fault.NoFault?)
  }

  /** A record that is still there is of its environment, and no older than it was. */
  ghost predicate LivesOn(first: Session, sessions: Sessions, a: AttemptId, environment: Environment) {
    a in sessions ==> sessions[a].environment == Some(environment) && sessions[a].updatedAt >= first.updatedAt
  }

  lemma FenceDoes(sessions: Sessions, t: Try, environment: Environment, b: AttemptId)
    requires b in sessions && Fresh(sessions[b], t.clock) && sessions[b].environment == Some(environment)
    ensures var after := AfterTry(sessions, t, environment);
            && b in after && LivesOn(sessions[b], after, b, environment)
            && (IsFenced(after[b]) <==> IsFenced(sessions[b]) || Stops(Fence(t), b))
            && (Leaves(Fence(t), b) ==> after[b] == sessions[b])
  {
  }

  lemma ClosingDoes(sessions: Sessions, act: Act, environment: Environment, b: AttemptId)
    requires b in sessions && Fresh(sessions[b], ClockOf(act)) && sessions[b].environment == Some(environment)
    requires act.ClearManaged? || act.DropPending?
    ensures var after := AfterAct(sessions, act, environment);
            && b in after && LivesOn(sessions[b], after, b, environment)
            && (IsFenced(after[b]) <==> IsFenced(sessions[b]))
            && (act.attempt != b ==> after[b] == sessions[b])
            && (act.attempt == b && act.ClearManaged? ==>
                  && after[b].pending == sessions[b].pending
                  && after[b].managedTab
                     == if sessions[b].managedTab == Some(act.tab) then None else sessions[b].managedTab)
            && (act.attempt == b && act.DropPending? ==>
                  && after[b].pending == sessions[b].pending - act.closed
                  && after[b].managedTab == sessions[b].managedTab)
  {
  }

  lemma ForgetDoes(sessions: Sessions, act: Act, environment: Environment, b: AttemptId)
    requires b in sessions && Fresh(sessions[b], ClockOf(act)) && sessions[b].environment == Some(environment) && act.Forget?
    ensures var after := AfterAct(sessions, act, environment);
            && (b in after ==> after[b] == sessions[b])
            && (b !in after ==> IsFenced(sessions[b]))
  {
  }

  /** A record that is gone stays so: none of the acts makes one. */
  lemma GoneStays(sessions: Sessions, act: Act, environment: Environment, b: AttemptId)
    requires b !in sessions
    ensures b !in AfterAct(sessions, act, environment)
  {
  }

  /**
   * After any acts, an attempt whose record was there is stopped exactly if it was fenced before, or one of the fences
   * was its own and could be stored.
   */
  lemma {:induction false} StoppedIff(sessions: Sessions, acts: seq<Act>, environment: Environment, a: AttemptId)
    requires a in sessions && FreshFor(sessions[a], acts) && sessions[a].environment == Some(environment)
    ensures var after := AfterActs(sessions, acts, environment);
            && LivesOn(sessions[a], after, a, environment)
            && (Stopped(after, a) <==> IsFenced(sessions[a]) || exists act | act in acts :: Stops(act, a))
            && (!IsFenced(sessions[a]) && (forall act | act in acts :: Leaves(act, a)) ==>
                  a in after && after[a] == sessions[a])
  {
    if acts != [] {
      var init, last := acts[..|acts| - 1], acts[|acts| - 1];
      assert acts == init + [last];
      StoppedIff(sessions, init, environment, a);
      var before := AfterActs(sessions, init, environment);
      assert last in acts && Fresh(sessions[a], ClockOf(last));
      if a !in before { GoneStays(before, last, environment, a); }
      else if last.Fence? { FenceDoes(before, last.try, environment, a); }
      else if last.Forget? { ForgetDoes(before, last, environment, a); }
      else { ClosingDoes(before, last, environment, a); }
    }
  }

  /** A cleanup whose list was taken before the session existed passes it by. */
  lemma CleanupMisses(sessions: Sessions, acts: seq<Act>, environment: Environment, a: AttemptId)
    requires a in sessions && FreshFor(sessions[a], acts) && sessions[a].environment == Some(environment)
    requires !IsFenced(sessions[a]) && forall act | act in acts :: AttemptOf(act) != a
    ensures a in AfterActs(sessions, acts, environment)
    ensures AfterActs(sessions, acts, environment)[a] == sessions[a]
  {
    StoppedIff(sessions, acts, environment, a);
  }

  /** The fence of an owner that is asked, if it makes one. */
  function OwnerFence(owner: Option<Try>): seq<Act> { if owner.Some? then [Fence(owner.value)] else [] }

  /**
   * A refused admission fences its session by itself, and the owner it then asks may fence it once more, while a cleanup,
   * and the owners that asks, may have done any of their acts before, between and after. The session ends stopped, fenced
   * or gone, exactly if its own fence can be stored, or that of its owner, or that of a cleanup which has the session, or
   * it was fenced all along.
   */
  lemma AdmissionFences(
    sessions: Sessions, done: seq<Act>, direct: Try, between: seq<Act>, owner: Option<Try>, rest: seq<Act>,
    environment: Environment, a: AttemptId)
    requires a in sessions && sessions[a].environment == Some(environment)
    requires direct.attempt == a && (owner.Some? ==> owner.value.attempt == a)
    requires FreshFor(sessions[a], done + [Fence(direct)] + between + OwnerFence(owner) + rest)
    ensures var after := AfterActs(sessions, done + [Fence(direct)] + between + OwnerFence(owner) + rest, environment);
            Stopped(after, a) <==>
              || IsFenced(sessions[a]) || direct.fault.NoFault? || (owner.Some? && owner.value.fault.NoFault?)
              || exists act | act in done + between + rest :: Stops(act, a)
  {
    var acts := done + [Fence(direct)] + between + OwnerFence(owner) + rest;
    StoppedIff(sessions, acts, environment, a);
    assert Fence(direct) in acts && forall act | act in OwnerFence(owner) :: act in acts;
    if owner.Some? { assert Fence(owner.value) in OwnerFence(owner); }
    forall act ensures act in acts <==> act == Fence(direct) || act in OwnerFence(owner) || act in done + between + rest {}
  }

  /**
   * A refused session whose fence cannot be stored, whose owner makes none or fails as well, and which the cleanup does
   * not have, stays as it was: it is active, and its producer can start it again.
   */
  lemma RefusedYetUnfenced(
    sessions: Sessions, done: seq<Act>, direct: Try, between: seq<Act>, owner: Option<Try>, rest: seq<Act>,
    environment: Environment, a: AttemptId, now: int)
    requires a in sessions && sessions[a].environment == Some(environment) && !IsFenced(sessions[a])
    requires direct.attempt == a && !direct.fault.NoFault?
    requires owner.Some? ==> owner.value.attempt == a && !owner.value.fault.NoFault?
    requires FreshFor(sessions[a], done + [Fence(direct)] + between + OwnerFence(owner) + rest)
    requires forall act | act in done + between + rest :: AttemptOf(act) != a
    ensures var s := AfterActs(sessions, done + [Fence(direct)] + between + OwnerFence(owner) + rest, environment);
            var producer := sessions[a].producer;
            && a in s && s[a] == sessions[a] && IsActive(s, a, environment, producer)
            && (producer != "" ==> StartBody(s, StartInput(Some(a), producer, Known(environment)), now).reply.Ok?)
  {
    var acts := done + [Fence(direct)] + between + OwnerFence(owner) + rest;
    forall act | act in acts ensures Leaves(act, a) {
      if act != Fence(direct) && act !in OwnerFence(owner) { assert act in done + between + rest; }
    }
    StoppedIff(sessions, acts, environment, a);
  }

  // ---- The check ---------------------------------------------------------------------------------------------------

  datatype Admission = Admitted | CollectionCancelled | EnvironmentUnknown

  /**
   * How the session's own fence comes out: rejected if it could not be stored, nothing if the record was gone, and
   * otherwise as the closes after it went.
   */
  function FenceResult(t: Try, reply: FenceReply, closes: bool): Result<bool, nat> {
    if !t.fault.NoFault? then Rejected(0)
    else if reply.NothingFenced? then Ok(false)
    else if closes then Ok(true)
    else Rejected(1)
  }

  /** The fence finds a record of this environment and can be stored. */
  predicate FindsRecord(sessions: Sessions, t: Try, environment: Environment) {
    var read := Prune(sessions, t.clock.readAt);
    t.fault.NoFault? && t.attempt in read && read[t.attempt].environment == Some(environment)
  }

  /** The fence of one session, whether or not its transaction works. */
  method RequestFence(storage: SessionStorage.Storage, t: Try, environment: Environment, closes: bool)
    returns (fence: Result<bool, nat>)
    modifies storage`sessions
    ensures storage.sessions == AfterTry(old(storage.sessions), t, environment)
    ensures fence == Ok(false) <==> t.fault.NoFault? && !FindsRecord(old(storage.sessions), t, environment)
    ensures fence == Ok(true) <==> closes && FindsRecord(old(storage.sessions), t, environment)
  {
    match t.fault
    case ReadFails => return Rejected(0);
    case WriteFails =>
      var _ := storage.ReadSessions(t.clock);
      return Rejected(0);
    case NoFault =>
      var reply := storage.Fence(t.attempt, environment, t.clock);
      fence := FenceResult(t, reply, closes);
  }

  method PerformActs(storage: SessionStorage.Storage, acts: seq<Act>, environment: Environment)
    modifies storage`sessions
    ensures storage.sessions == AfterActs(old(storage.sessions), acts, environment)
  {
    for i := 0 to |acts|
      invariant storage.sessions == AfterActs(old(storage.sessions), acts[..i], environment)
    {
      assert acts[..i + 1][..i] == acts[..i];
      PerformAct(storage, acts[i], environment);
    }
    assert acts[..|acts|] == acts;
  }

  method PerformAct(storage: SessionStorage.Storage, act: Act, environment: Environment)
    modifies storage`sessions
    ensures storage.sessions == AfterAct(old(storage.sessions), act, environment)
  {
    match act
    case Fence(t) => var _ := RequestFence(storage, t, environment, true);
    case ClearManaged(a, tab, clock) => storage.ClearManagedTab(a, tab, clock);
    case DropPending(a, closed, clock) => storage.DropListed(a, environment, closed, clock);
    case Forget(a, clock) =>
      if a in storage.sessions && IsFenced(storage.sessions[a]) { var _ := storage.Remove(a, clock); }
  }

  /**
   * What the check meets: the presence of the app, how the transactions of the session's own fence go, the closes after
   * a stored one, and what the owner does and answers if it is asked.
   */
  datatype Course = Course(presence: Presence, direct: Try, closing: seq<Act>, closes: bool, owner: seq<Act>,
                           answer: Result<bool, nat>)

  /** The owner of the session is asked unless its record was gone. */
  predicate OwnerAsked(sessions: Sessions, c: Course, environment: Environment) {
    !c.direct.fault.NoFault? || FindsRecord(sessions, c.direct, environment)
  }

  /** The acts of the check itself, in order. */
  function ActsOf(sessions: Sessions, c: Course, environment: Environment): seq<Act> {
    [Fence(c.direct)] + (if FindsRecord(sessions, c.direct, environment) then c.closing else [])
    + (if OwnerAsked(sessions, c, environment) then c.owner else [])
  }

  /**
   * What a refusing check does to the store: it fences, closes if that found the record, and has the owner do its part,
   * even if the fence could not be stored. Only a fence that goes well and finds no record of this environment, recent
   * enough to be kept, leaves it at that.
   */
  lemma CheckDoes(sessions: Sessions, c: Course, environment: Environment)
    ensures var t := c.direct;
            var found := t.attempt in sessions && sessions[t.attempt].updatedAt >= t.clock.readAt - RETENTION_MS &&
                         sessions[t.attempt].environment == Some(environment);
            && (FindsRecord(sessions, t, environment) <==> t.fault.NoFault? && found)
            && (OwnerAsked(sessions, c, environment) <==> t.fault.NoFault? ==> found)
            && ActsOf(sessions, c, environment)
               == if !t.fault.NoFault? then [Fence(t)] + c.owner
                  else if found then [Fence(t)] + c.closing + c.owner
                  else [Fence(t)]
  {
    assert [Fence(c.direct)] + [] == [Fence(c.direct)];
  }

  /**
   * The admission check. An environment that is not one of those there are is refused at once. A presence that is not
   * known, or an app that is open, admits the session and touches nothing. Otherwise the session's own fence is tried
   * first and its tabs closed if it is stored, the environment's cleanup is started or joined, the session's owner is
   * asked and does what it does, unless the record was gone, and the call throws, however fence and owner came out.
   */
  method EnsureSessionCanRun(
    storage: SessionStorage.Storage, cleanups: Flights<Environment>, routes: Flights<AttemptId>,
    environments: set<Environment>, started: Option<Environment>, c: Course, next: Schedule)
    returns (admission: Admission, asked: bool)
    requires cleanups.Valid() && routes.Valid() && Proper(next)
    modifies storage`sessions, cleanups, routes
    ensures cleanups.Valid() && routes.Valid()
    ensures admission ==
              if started.None? || started.value !in environments then EnvironmentUnknown
              else if c.presence.known && !c.presence.hasApp then CollectionCancelled
              else Admitted
    ensures !admission.CollectionCancelled? ==>
              && !asked && storage.sessions == old(storage.sessions)
              && cleanups.current == old(cleanups.current) && routes.current == old(routes.current)
    ensures admission.CollectionCancelled? ==>
              && (asked <==> OwnerAsked(old(storage.sessions), c, started.value))
              && storage.sessions
                 == AfterActs(old(storage.sessions), ActsOf(old(storage.sessions), c, started.value), started.value)
              && started.value in cleanups.current
              && (started.value in old(cleanups.current) ==> cleanups.current == old(cleanups.current))
              && (asked ==> exists f :: 0 <= f < |routes.begun| && routes.begun[f] == c.direct.attempt)
  {
    asked := false;
    if started.None? || started.value !in environments { return EnvironmentUnknown, false; }
    if !c.presence.known || c.presence.hasApp { return Admitted, false; }
    var environment := started.value;
    ghost var before := storage.sessions;
    var fence := RequestFence(storage, c.direct, environment, c.closes);
    assert AfterActs(before, [Fence(c.direct)], environment) == storage.sessions by { OneAct(before, c.direct, environment); }
    var closing := if fence == Ok(false) || !c.direct.fault.NoFault? then [] else c.closing;
    PerformActs(storage, closing, environment);
    ActsAppend(before, [Fence(c.direct)], closing, environment);
    var _ := cleanups.Join(environment);
    asked := fence != Ok(false);
    var owner := if asked then c.owner else [];
    PerformActs(storage, owner, environment);
    ActsAppend(before, [Fence(c.direct)] + closing, owner, environment);
    var one := Attempt(c.direct.attempt, environment, fence, c.answer);
    OfOne(one);
    var settled, course, phases, flights := CancelSessions(environment, [one], routes, next);
    admission := CollectionCancelled;
  }

  lemma OneAct(sessions: Sessions, t: Try, environment: Environment)
    ensures AfterActs(sessions, [Fence(t)], environment) == AfterTry(sessions, t, environment)
  {
    assert [Fence(t)][..0] == [];
    assert AfterActs(sessions, [Fence(t)][..0], environment) == sessions;
  }

  /**
   * A refused admission whose fence was stored is final: through every interleaving of collection calls that follows,
   * for as long as its record is stored, the session starts no run, owns no tab and is not active.
   */
  lemma RefusedAdmissionIsFinal(w: Protocol.World, events: seq<Protocol.Event>, t: Try, environment: Environment)
    requires t.attempt in w.sessions && Fresh(w.sessions[t.attempt], t.clock) && t.fault.NoFault?
    requires w.sessions[t.attempt].environment == Some(environment)
    requires Theorems.StaysStored(w.(sessions := AfterTry(w.sessions, t, environment)), events, t.attempt)
    ensures var a, s := t.attempt, Protocol.Run(w.(sessions := AfterTry(w.sessions, t, environment)), events).sessions;
            && a in s && IsFenced(s[a])
            && (forall input: StartInput, now | input.attempt == Some(a) :: StartBody(s, input, now).reply.Rejected?)
            && (forall e, producer :: !IsActive(s, a, e, producer))
            && (forall e, producer, tab :: !OwnsTab(s, a, e, producer, tab))
  {
    FenceDoes(w.sessions, t, environment, t.attempt);
    Theorems.FenceIsPermanent(w.(sessions := AfterTry(w.sessions, t, environment)), events, t.attempt);
  }
}
