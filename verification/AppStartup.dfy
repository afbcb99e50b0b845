/** Startup of the background worker: what was stopped is settled first, and only then are collections resumed. */
module AppStartup {
  import opened Common
  import opened CollectionStore
  import opened Coalescing
  import opened AppLifetime

  datatype Presence = Presence(known: bool, hasApp: bool)

  /**
   * What startup finds of one environment: its presence, whether the owner is connected, the sessions stored for it with
   * how their cancellation goes, whether the list of them can be read, the stop requests of the first read, those the
   * retry reads and how many it finds left after it, and how many the last read finds. None is a read that failed.
   */
  datatype Site = Site(environment: Environment, presence: Presence, connected: bool, stored: seq<Attempt>,
                       listReads: bool, requests: seq<AttemptId>, retryRequests: Option<seq<AttemptId>>,
                       afterRetry: Option<nat>, remaining: Option<nat>)

  /** The sessions as the list gives them: a list that cannot be read is taken for an empty one. */
  function Listed(s: Site): seq<Attempt> { if s.listReads then s.stored else [] }

  /** `remainingCancellationRequests`: a read that fails counts as more than none. */
  predicate NoneRemain(read: Option<nat>) { read == Some(0) }

  /** The listed sessions whose stop was requested. */
  function Requested(listed: seq<Attempt>, requests: seq<AttemptId>): seq<Attempt> {
    if listed == [] then []
    else
      var last := listed[|listed| - 1];
      Requested(listed[..|listed| - 1], requests) + (if last.id in requests then [last] else [])
  }

  /** The retry found no requests, or cancelled every requested session on the list and then found none left. */
  predicate RetrySettled(s: Site) {
    s.retryRequests.Some? &&
    (s.retryRequests.value == [] ||
     (AllLetGo(Requested(Listed(s), s.retryRequests.value), s.environment) && NoneRemain(s.afterRetry)))
  }

  method RetryPendingCancellations(s: Site, routes: Flights<AttemptId>, next: Schedule) returns (settled: bool)
    requires routes.Valid() && Proper(next)
    modifies routes
    ensures routes.Valid() && (settled <==> RetrySettled(s))
  {
    if s.retryRequests.None? { return false; }
    if |s.retryRequests.value| == 0 { return true; }
    var course, phases, flights;
    settled, course, phases, flights := CancelSessions(s.environment, Requested(Listed(s), s.retryRequests.value), routes, next);
    if settled && !NoneRemain(s.afterRetry) { settled := false; }
  }

  predicate KnownOpen(s: Site) { s.presence.known && s.presence.hasApp }

  predicate KnownClosed(s: Site) { s.presence.known && !s.presence.hasApp }

  /** What startup counts as settled. */
  predicate SiteSettled(s: Site, requestsRead: bool) {
    if KnownClosed(s) then AllLetGo(Listed(s), s.environment)
    else
      && requestsRead && NoneRemain(s.remaining)
      && (if s.connected then RetrySettled(s) else Requested(Listed(s), s.requests) == [])
  }

  /** One turn of startup's first loop. */
  method SettleSite(s: Site, requestsRead: bool, routes: Flights<AttemptId>, next: Schedule) returns (settled: bool)
    requires routes.Valid() && Proper(next)
    modifies routes
    ensures routes.Valid() && (settled <==> SiteSettled(s, requestsRead))
  {
    settled := false;
    if s.presence.known && !s.presence.hasApp {
      var course, phases, flights;
      settled, course, phases, flights := CancelSessions(s.environment, Listed(s), routes, next);
    } else if requestsRead {
      if s.connected {
        settled := RetryPendingCancellations(s, routes, next);
      } else {
        settled := |Requested(Listed(s), s.requests)| == 0;
      }
      if settled && !NoneRemain(s.remaining) { settled := false; }
    }
  }

  /**
   * A closed environment counts as settled exactly if every stored session was let go of, or the list of them could not be
   * read; then none was cancelled. An open one never does while a request may be left.
   */
  lemma ClosedSettledIff(s: Site, requestsRead: bool)
    ensures KnownClosed(s) ==>
              (SiteSettled(s, requestsRead) <==>
                 s.listReads ==> forall t | t in s.stored && t.environment == s.environment :: Ended(t))
    ensures KnownClosed(s) && !s.listReads ==> Of(Listed(s), s.environment) == []
    ensures KnownOpen(s) && SiteSettled(s, requestsRead) ==> requestsRead && NoneRemain(s.remaining)
  {
    assert Of([], s.environment) == [];
    forall t ensures Ended(t) <==> LetGo(t) { EndedIff(t); }
    forall t ensures t in Of(Listed(s), s.environment) <==> t in Listed(s) && t.environment == s.environment {
      OfIs(Listed(s), s.environment, t);
    }
    if KnownClosed(s) && SiteSettled(s, requestsRead) && s.listReads {
      forall t | t in s.stored && t.environment == s.environment ensures Ended(t) {
        assert t in Of(Listed(s), s.environment);
      }
    }
  }

  lemma {:induction false} RequestedIs(listed: seq<Attempt>, requests: seq<AttemptId>, t: Attempt)
    ensures t in Requested(listed, requests) <==> t in listed && t.id in requests
  {
    if listed != [] {
      RequestedIs(listed[..|listed| - 1], requests, t);
      assert listed == listed[..|listed| - 1] + [listed[|listed| - 1]];
    }
  }

  lemma {:induction false} OfIs(targets: seq<Attempt>, environment: Environment, t: Attempt)
    ensures t in Of(targets, environment) <==> t in targets && t.environment == environment
  {
    if targets != [] {
      OfIs(targets[..|targets| - 1], environment, t);
      assert targets == targets[..|targets| - 1] + [targets[|targets| - 1]];
    }
  }

  /** Its fence was answered, and so was its owner unless the record was gone. */
  predicate Ended(t: Attempt) { t.fence == Ok(false) || (t.fence == Ok(true) && t.owner.Ok?) }

  lemma EndedIff(t: Attempt)
    ensures Ended(t) <==> LetGo(t)
  {
    match t.fence
    case Ok(found) => assert t.fence == Ok(found);
    case Rejected(_) =>
  }

  /** Every stored session of the environment that this asks for has ended; a list that cannot be read names none. */
  ghost predicate EndedAmong(s: Site, requests: seq<AttemptId>) {
    s.listReads ==> forall t | t in s.stored && t.id in requests && t.environment == s.environment :: Ended(t)
  }

  lemma AllLetGoIff(s: Site, requests: seq<AttemptId>)
    ensures AllLetGo(Requested(Listed(s), requests), s.environment) <==> EndedAmong(s, requests)
  {
    var asked := Requested(Listed(s), requests);
    forall t ensures Ended(t) <==> LetGo(t) { EndedIff(t); }
    forall t ensures t in Of(asked, s.environment) <==> t in Listed(s) && t.id in requests && t.environment == s.environment {
      OfIs(asked, s.environment, t);
      RequestedIs(Listed(s), requests, t);
    }
    if EndedAmong(s, requests) {
      forall t | t in Of(asked, s.environment) ensures LetGo(t) {
        assert t in s.stored;
      }
    }
    if AllLetGo(asked, s.environment) && s.listReads {
      forall t | t in s.stored && t.id in requests && t.environment == s.environment ensures Ended(t) {
        assert t in Listed(s) && t in Of(asked, s.environment);
      }
    }
  }

  /**
   * A retry has settled exactly if the requests could be read and there were none, or every requested session has ended
   * and none is left to ask for. An environment that is not known to be closed has settled exactly if all reads of the
   * requests work, the last finds none, and the retry has settled; without its owner, if no listed session is asked for.
   */
  lemma OpenSettledIff(s: Site, requestsRead: bool)
    ensures RetrySettled(s) <==>
              s.retryRequests.Some? &&
              (|s.retryRequests.value| == 0 || (EndedAmong(s, s.retryRequests.value) && s.afterRetry == Some(0)))
    ensures !(s.presence.known && !s.presence.hasApp) ==>
              (SiteSettled(s, requestsRead) <==>
                 && requestsRead && s.remaining == Some(0)
                 && (s.connected ==> RetrySettled(s))
                 && (!s.connected && s.listReads ==> forall t | t in s.stored :: t.id !in s.requests))
    ensures MayRecover(s, requestsRead) <==>
              SiteSettled(s, requestsRead) && s.presence.known && s.presence.hasApp && s.connected
  {
    if s.retryRequests.Some? { AllLetGoIff(s, s.retryRequests.value); }
    forall t ensures t in Requested(Listed(s), s.requests) <==> t in Listed(s) && t.id in s.requests {
      RequestedIs(Listed(s), s.requests, t);
    }
    if Requested(Listed(s), s.requests) != [] {
      var t := Requested(Listed(s), s.requests)[0];
      assert t in Requested(Listed(s), s.requests);
    }
  }

  /** Such an environment: no app, one session that nobody lets go of, and a list that cannot be read. */
  lemma SettledWithASessionLeft(t: Attempt, requestsRead: bool)
    requires !LetGo(t)
    ensures var s := Site(t.environment, Presence(true, false), true, [t], false, [], Some([]), None, None);
            KnownClosed(s) && SiteSettled(s, requestsRead) && !AllLetGo(s.stored, s.environment)
  {
    var s := Site(t.environment, Presence(true, false), true, [t], false, [], Some([]), None, None);
    ClosedSettledIff(s, requestsRead);
    OfOne(t);
    assert t in Of([t], t.environment);
  }

  // ---- The whole startup -----------------------------------------------------------------------------------------

  /** What startup does, in order: it settles environments, and then has collections recovered in some. */
  datatype Action = Settle(site: nat, settled: bool) | Recover(site: nat)

  /** Collections may be resumed: the app is open, the owner connected, and every stop has settled. */
  predicate MayRecover(s: Site, requestsRead: bool) {
    requestsRead && KnownOpen(s) && s.connected && RetrySettled(s) && NoneRemain(s.remaining)
  }

  function Recoveries(sites: seq<Site>, requestsRead: bool): seq<Action> {
    if sites == [] then []
    else
      var last := |sites| - 1;
      Recoveries(sites[..last], requestsRead) + (if MayRecover(sites[last], requestsRead) then [Recover(last)] else [])
  }

  /** Each environment that may recover is recovered once, in order, and no other. */
  lemma {:induction false} RecoveriesAre(sites: seq<Site>, requestsRead: bool)
    ensures var r := Recoveries(sites, requestsRead);
            && (forall k | 0 <= k < |r| :: r[k].Recover? && r[k].site < |sites|)
            && (forall i: nat :: Recover(i) in r <==> i < |sites| && MayRecover(sites[i], requestsRead))
            && (forall k, l | 0 <= k < l < |r| :: r[k].site < r[l].site)
  {
    if sites != [] { RecoveriesAre(sites[..|sites| - 1], requestsRead); }
  }

  /**
   * Startup settles every environment, once and in order, and only then resumes collections: exactly once, in order, in
   * those whose app is known to be open, whose owner is connected, whose stopped collections have settled, and whose
   * last read of the cancellation requests found none; and nowhere if the first read of the requests failed.
   */
  method ReconcileStartup(sites: seq<Site>, requestsRead: bool, routes: Flights<AttemptId>, next: Schedule)
    returns (log: seq<Action>)
    requires routes.Valid() && Proper(next)
    modifies routes
    ensures routes.Valid() && |log| >= |sites|
    ensures forall i | 0 <= i < |sites| :: log[i] == Settle(i, SiteSettled(sites[i], requestsRead))
    ensures log[|sites|..] == Recoveries(sites, requestsRead)
  {
    var settled := [];
    log := [];
    for i := 0 to |sites|
      invariant routes.Valid() && |settled| == |log| == i
      invariant forall k | 0 <= k < i :: log[k] == Settle(k, settled[k])
      invariant forall k | 0 <= k < i :: settled[k] == SiteSettled(sites[k], requestsRead)
    {
      var one := SettleSite(sites[i], requestsRead, routes, next);
      settled := settled + [one];
      log := log + [Settle(i, one)];
    }
    ghost var first := log;
    if !requestsRead {
      NoRecoveries(sites);
      return;
    }
    for i := 0 to |sites|
      invariant log == first + Recoveries(sites[..i], requestsRead)
    {
      var s := sites[i];
      assert sites[..i + 1][..i] == sites[..i];
      if !s.presence.known || !s.presence.hasApp || !settled[i] || !s.connected { continue; }
      log := log + [Recover(i)];
    }
    assert sites[..|sites|] == sites;
  }

  lemma {:induction false} NoRecoveries(sites: seq<Site>)
    ensures Recoveries(sites, false) == []
  {
    if sites != [] { NoRecoveries(sites[..|sites| - 1]); }
  }
}
