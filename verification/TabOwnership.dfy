/**
 * Who owns a browser tab: runs that open a fresh tab for a site, read in it, and close it or leave it for the operator.
 *
 * Runs of one site come one at a time; runs of different sites interleave at every await. The operator opens, uses and
 * closes tabs at any time. Tab ids are not used again.
 */
module TabOwnership {
  import opened Common

  type TabId = nat
  type Site = nat

  /** `owned` says whether this runtime opened the tab, or an earlier run of it did. */
  datatype Page = Page(tab: TabId, owned: bool)

  /** What a run is awaiting. */
  datatype Phase =
    | Finding
    | Checking(tab: TabId)
    | Opening
    | Reading(page: Page)
    | Closing(tab: TabId)
    | Keeping(tab: TabId)

  /**
   * `kept` is the tab left for the operator per site, `runTabs` the tabs that collection is using. The rest is a record:
   * the tabs this runtime opened, those it asked Chrome to remove, those it saw in use and gave up to the operator for
   * good, those of which Chrome refused the removal, those it looked for in vain, to keep or to use again, and those that
   * a restart of its service worker made it forget.
   */
  datatype World = World(
    open: set<TabId>, kept: map<Site, TabId>, runTabs: set<TabId>, runs: map<Site, Phase>,
    made: set<TabId>, removed: set<TabId>, givenUp: set<TabId>, refused: set<TabId>, unseen: set<TabId>,
    forgotten: set<TabId>)

  datatype Event =
    | OperatorOpens(tab: TabId)
    | OperatorCloses(tab: TabId)
    | Begins(site: Site, reuse: bool)
    | Found(site: Site, reused: Option<TabId>)
    | FindFails(site: Site)
    | Checked(site: Site, seen: bool, ours: bool)
    | Opened(site: Site, created: Option<TabId>)
    | Navigates(site: Site)
    | Focuses(site: Site)
    | Ends(site: Site, keepOpen: bool)
    | Removed(site: Site, gone: bool)
    | Looked(site: Site, seen: bool, priorOurs: bool, gone: bool)
    | WorkerRestarts

  const Start: World := World({}, map[], {}, map[], {}, {}, {}, {}, {}, {})

  function At(w: World, site: Site, p: Phase): World { w.(runs := w.runs[site := p]) }

  function Over(w: World, site: Site): World { w.(runs := w.runs - {site}) }

  /** `reclaimKept` up to its first await: the entry is taken out before it is checked. */
  function Reclaim(w: World, site: Site): World {
    if site in w.kept then At(w.(kept := w.kept - {site}), site, Checking(w.kept[site])) else At(w, site, Opening)
  }

  /** `stillOurs`: a tab that is not found is no longer ours, even if only the look at it failed. */
  function OnChecked(w: World, site: Site, tab: TabId, seen: bool, ours: bool): World {
    if !seen || tab !in w.open then At(w.(unseen := w.unseen + {tab}), site, Opening)
    else if ours then At(w.(runTabs := w.runTabs + {tab}), site, Reading(Page(tab, true)))
    else At(w.(givenUp := w.givenUp + {tab}), site, Opening)
  }

  function OnOpened(w: World, site: Site, created: Option<TabId>): World {
    if created.None? then Over(w, site)
    else
      var tab := created.value;
      At(w.(open := w.open + {tab}, made := w.made + {tab}, runTabs := w.runTabs + {tab}), site,
         Reading(Page(tab, true)))
  }

  /** The `finally`: a page that is not ours is neither closed nor kept. */
  function OnEnds(w: World, site: Site, page: Page, keepOpen: bool): World {
    if !page.owned then Over(w, site)
    else
      At(w.(runTabs := w.runTabs - {page.tab}), site, if keepOpen then Keeping(page.tab) else Closing(page.tab))
  }

  /** A removal that Chrome refuses is swallowed: the run is over all the same. */
  function OnRemoved(w: World, site: Site, tab: TabId, gone: bool): World {
    Over(w.(open := if gone then w.open - {tab} else w.open, removed := w.removed + {tab},
            refused := if gone then w.refused else w.refused + {tab}), site)
  }

  /**
   * `keep` after its awaits: the tab is recorded if it was found, and forgotten if not, even if only the look at it
   * failed. An earlier one of the site is closed if it is still ours; with one run of a site at a time there is none.
   */
  function OnLooked(w: World, site: Site, tab: TabId, seen: bool, priorOurs: bool, gone: bool): World {
    var w1 := if seen && tab in w.open then w.(kept := w.kept[site := tab])
              else w.(kept := w.kept - {site}, unseen := w.unseen + {tab});
    if site !in w.kept || w.kept[site] == tab then Over(w1, site)
    else if priorOurs then OnRemoved(w1, site, w.kept[site], gone)
    else Over(w1.(givenUp := w1.givenUp + {w.kept[site]}), site)
  }

  /** The tab a run answers for. */
  function Held(p: Phase): Option<TabId> {
    match p
    case Checking(tab) => Some(tab)
    case Reading(page) => if page.owned then Some(page.tab) else None
    case Closing(tab) => Some(tab)
    case Keeping(tab) => Some(tab)
    case _ => None
  }

  /** The opened tabs that a run answers for or that are kept. */
  function InHand(w: World): set<TabId> {
    set x | x in w.made &&
            ((exists s | s in w.runs :: Held(w.runs[s]) == Some(x)) || (exists s | s in w.kept :: w.kept[s] == x))
  }

  /** A restart of the service worker: runs, run tabs and kept tabs were in its memory only. */
  function OnRestart(w: World): World {
    w.(kept := map[], runTabs := {}, runs := map[], forgotten := w.forgotten + InHand(w))
  }

  function Next(w: World, e: Event): World {
    match e
    case OperatorOpens(tab) => w.(open := w.open + {tab})
    case OperatorCloses(tab) => w.(open := w.open - {tab})
    case Begins(site, reuse) =>
      if site in w.runs then w else if reuse then At(w, site, Finding) else Reclaim(w, site)
    case Found(site, reused) =>
      if site !in w.runs || !w.runs[site].Finding? then w
      else if reused.Some? then At(w, site, Reading(Page(reused.value, false))) else Reclaim(w, site)
    case FindFails(site) => if site in w.runs && w.runs[site].Finding? then Over(w, site) else w
    case Checked(site, seen, ours) =>
      if site in w.runs && w.runs[site].Checking? then OnChecked(w, site, w.runs[site].tab, seen, ours) else w
    case Opened(site, created) => if site in w.runs && w.runs[site].Opening? then OnOpened(w, site, created) else w
    case Navigates(site) =>
      if site in w.runs && w.runs[site].Reading? && w.runs[site].page.owned
      then w.(runTabs := w.runTabs + {w.runs[site].page.tab}) else w
    case Focuses(site) =>
      if site in w.runs && w.runs[site].Reading? then w.(runTabs := w.runTabs - {w.runs[site].page.tab}) else w
    case Ends(site, keepOpen) =>
      if site in w.runs && w.runs[site].Reading? then OnEnds(w, site, w.runs[site].page, keepOpen) else w
    case Removed(site, gone) =>
      if site in w.runs && w.runs[site].Closing? then OnRemoved(w, site, w.runs[site].tab, gone) else w
    case Looked(site, seen, priorOurs, gone) =>
      if site in w.runs && w.runs[site].Keeping? then OnLooked(w, site, w.runs[site].tab, seen, priorOurs, gone) else w
    case WorkerRestarts => OnRestart(w)
  }

  /** Tab ids are new when a tab is made, whoever makes it. */
  predicate EventOk(w: World, e: Event) {
    match e
    case OperatorOpens(tab) => tab !in w.made
    case Opened(_, created) => created.Some? ==> created.value !in w.made && created.value !in w.open
    case _ => true
  }

  function Play(w: World, events: seq<Event>): World
    decreases |events|
  {
    if events == [] then w else Play(Next(w, events[0]), events[1..])
  }

  ghost predicate EventsOk(w: World, events: seq<Event>)
    decreases |events|
  {
    events == [] || (EventOk(w, events[0]) && EventsOk(Next(w, events[0]), events[1..]))
  }

  // ---- Invariant -------------------------------------------------------------------------------------------------

  predicate HeldBy(w: World, site: Site, tab: TabId) { site in w.runs && Held(w.runs[site]) == Some(tab) }

  predicate KeptFor(w: World, site: Site, tab: TabId) { site in w.kept && w.kept[site] == tab }

  /** Tabs nobody answers for: a call to Chrome failed and was swallowed, or the worker restarted. */
  function Lost(w: World): set<TabId> { w.refused + w.unseen + w.forgotten }

  predicate LetGo(w: World, x: TabId) { x in w.givenUp || x in Lost(w) }

  /** A tab that is held or kept was opened here and not let go, and is held or kept for one site only, once. */
  ghost predicate OneOwner(w: World) {
    && (forall s, x | HeldBy(w, s, x) || KeptFor(w, s, x) :: x in w.made && !LetGo(w, x))
    && (forall s, t, x | HeldBy(w, s, x) && HeldBy(w, t, x) :: s == t)
    && (forall s, t, x | KeptFor(w, s, x) && KeptFor(w, t, x) :: s == t)
    && (forall s, t, x | HeldBy(w, s, x) :: !KeptFor(w, t, x))
  }

  /** The site of a run that answers for a tab has no kept tab besides. */
  ghost predicate OneTab(w: World) {
    forall s | s in w.runs && (Held(w.runs[s]).Some? || w.runs[s].Opening?) :: s !in w.kept
  }

  ghost predicate Owned(w: World, x: TabId) { exists s :: HeldBy(w, s, x) || KeptFor(w, s, x) }

  ghost predicate ReadBy(w: World, x: TabId) { exists s :: HeldBy(w, s, x) && w.runs[s].Reading? }

  /** Every opened tab is closed, let go in one way, or still answered for; and run tabs are being read in. */
  ghost predicate Accounted(w: World) {
    && (forall x | x in w.made :: x !in w.open || LetGo(w, x) || Owned(w, x))
    && (forall x | x in w.runTabs :: ReadBy(w, x))
    && (forall x | x in w.removed || LetGo(w, x) :: x in w.made)
    && w.givenUp !! Lost(w) && w.refused <= w.removed
  }

  ghost predicate Inv(w: World) { OneOwner(w) && OneTab(w) && Accounted(w) }

  // ---- Every event keeps it --------------------------------------------------------------------------------------

  predicate OwnedBy(w: World, site: Site, x: TabId) { HeldBy(w, site, x) || KeptFor(w, site, x) }

  /** A step of one site's run touches only what that site answers for, and a tab that is new. */
  ghost predicate OnlyAt(w: World, n: World, site: Site) {
    && (forall s | s != site :: (s in n.runs <==> s in w.runs) && (s in w.runs ==> n.runs[s] == w.runs[s]))
    && (forall s | s != site :: (s in n.kept <==> s in w.kept) && (s in w.kept ==> n.kept[s] == w.kept[s]))
    && w.made <= n.made && (forall x | x in n.made && x !in w.made :: HeldBy(n, site, x))
    && (forall x | LetGo(w, x) :: LetGo(n, x) && (x in n.givenUp <==> x in w.givenUp) && (x in Lost(n) <==> x in Lost(w)))
    && (forall x | LetGo(n, x) && !LetGo(w, x) :: OwnedBy(w, site, x) && !OwnedBy(n, site, x))
    && (forall x | x in n.open && x !in w.open :: x in n.made && x !in w.made)
    && w.removed <= n.removed && (forall x | x in n.removed && x !in w.removed :: OwnedBy(w, site, x))
    && n.refused <= n.removed
  }

  /** What the site answers for now it did before or is new, once; and what it did before is still accounted for. */
  ghost predicate SiteOk(w: World, n: World, site: Site) {
    && (forall x | OwnedBy(n, site, x) :: x in n.made && !LetGo(n, x) && (OwnedBy(w, site, x) || x !in w.made))
    && (forall x | HeldBy(n, site, x) :: !KeptFor(n, site, x))
    && (forall x | OwnedBy(w, site, x) :: OwnedBy(n, site, x) || x !in n.open || LetGo(n, x))
    && (forall x | OwnedBy(w, site, x) :: !(x in n.givenUp && x in Lost(n)))
    && (forall x | x in n.runTabs ::
          (HeldBy(n, site, x) && n.runs[site].Reading?) || (x in w.runTabs && !HeldBy(w, site, x)))
  }

  lemma OwnerKept(w: World, n: World, site: Site)
    requires OneOwner(w) && OnlyAt(w, n, site) && SiteOk(w, n, site)
    ensures OneOwner(n)
  {
    forall s, x | s != site ensures HeldBy(n, s, x) == HeldBy(w, s, x) && KeptFor(n, s, x) == KeptFor(w, s, x) {}
    forall s, x | OwnedBy(n, s, x) ensures x in n.made && !LetGo(n, x) {
      if s != site { assert OwnedBy(w, s, x); OwnersAgree(w, s, site, x); }
    }
    forall s, t, x | OwnedBy(n, s, x) && OwnedBy(n, t, x) ensures s == t {
      if s != t {
        if s == site { assert OwnedBy(w, t, x); OwnersAgree(w, t, s, x); }
        else if t == site { assert OwnedBy(w, s, x); OwnersAgree(w, s, t, x); }
        else { OwnersAgree(w, s, t, x); }
      }
    }
    forall s, x | HeldBy(n, s, x) ensures !KeptFor(n, s, x) {}
  }

  lemma OwnersAgree(w: World, s: Site, t: Site, x: TabId)
    requires OneOwner(w) && OwnedBy(w, s, x)
    ensures x in w.made && !LetGo(w, x) && (OwnedBy(w, t, x) ==> s == t)
  {
  }

  lemma AccountedKept(w: World, n: World, site: Site)
    requires OneOwner(w) && Accounted(w) && OnlyAt(w, n, site) && SiteOk(w, n, site)
    ensures Accounted(n)
  {
    forall x | x in n.made && x in n.open && !LetGo(n, x) ensures Owned(n, x) {
      if x in w.made {
        assert Owned(w, x);
        var s :| HeldBy(w, s, x) || KeptFor(w, s, x);
        if s == site { assert OwnedBy(w, site, x); }
        assert HeldBy(n, s, x) || KeptFor(n, s, x);
      } else {
        assert HeldBy(n, site, x);
      }
    }
    forall x | x in n.runTabs ensures ReadBy(n, x) {
      if HeldBy(n, site, x) && n.runs[site].Reading? {
      } else {
        var s :| HeldBy(w, s, x) && w.runs[s].Reading?;
        assert HeldBy(n, s, x);
      }
    }
    forall x | x in n.removed ensures x in n.made {
      if x !in w.removed { OwnersAgree(w, site, site, x); }
    }
    forall x | LetGo(n, x) ensures x in n.made && !(x in n.givenUp && x in Lost(n)) {
      if !LetGo(w, x) { OwnersAgree(w, site, site, x); }
    }
  }

  lemma SiteKept(w: World, n: World, site: Site)
    requires Inv(w) && OnlyAt(w, n, site) && SiteOk(w, n, site) && OneTab(n)
    ensures Inv(n)
  {
    OwnerKept(w, n, site);
    AccountedKept(w, n, site);
  }

  lemma ReclaimKept(w: World, site: Site)
    requires Inv(w) && (site in w.runs ==> w.runs[site].Finding?)
    ensures Inv(Reclaim(w, site))
  {
    var n := Reclaim(w, site);
    assert OnlyAt(w, n, site);
    forall x | x in n.runTabs ensures x in w.runTabs && !HeldBy(w, site, x) {}
    forall x | OwnedBy(n, site, x) ensures OwnedBy(w, site, x) { OwnersAgree(w, site, site, x); }
    SiteKept(w, n, site);
  }

  lemma CheckedKept(w: World, site: Site, seen: bool, ours: bool)
    requires Inv(w) && site in w.runs && w.runs[site].Checking?
    ensures Inv(OnChecked(w, site, w.runs[site].tab, seen, ours))
  {
    var tab := w.runs[site].tab;
    var n := OnChecked(w, site, tab, seen, ours);
    assert HeldBy(w, site, tab);
    forall x | x in w.runTabs ensures x != tab {
      var s :| HeldBy(w, s, x) && w.runs[s].Reading?;
    }
    SiteKept(w, n, site);
  }

  lemma OpenedKept(w: World, site: Site, created: Option<TabId>)
    requires Inv(w) && EventOk(w, Opened(site, created)) && site in w.runs && w.runs[site].Opening?
    ensures Inv(OnOpened(w, site, created))
  {
    var n := OnOpened(w, site, created);
    forall x | OwnedBy(w, site, x) ensures x in w.made && !LetGo(w, x) { OwnersAgree(w, site, site, x); }
    if created.Some? {
      assert HeldBy(n, site, created.value);
    }
    SiteKept(w, n, site);
  }

  lemma EndsKept(w: World, site: Site, keepOpen: bool)
    requires Inv(w) && site in w.runs && w.runs[site].Reading?
    ensures Inv(OnEnds(w, site, w.runs[site].page, keepOpen))
  {
    var page := w.runs[site].page;
    var n := OnEnds(w, site, page, keepOpen);
    forall x | OwnedBy(w, site, x) ensures x in w.made && !LetGo(w, x) { OwnersAgree(w, site, site, x); }
    if page.owned {
      assert HeldBy(w, site, page.tab) && HeldBy(n, site, page.tab);
      forall x | x in n.runTabs ensures !HeldBy(w, site, x) {}
    }
    SiteKept(w, n, site);
  }

  lemma RemovedKept(w: World, site: Site, gone: bool)
    requires Inv(w) && site in w.runs && w.runs[site].Closing?
    ensures Inv(OnRemoved(w, site, w.runs[site].tab, gone))
  {
    var tab := w.runs[site].tab;
    var n := OnRemoved(w, site, tab, gone);
    assert HeldBy(w, site, tab);
    forall x | x in w.runTabs ensures !HeldBy(w, site, x) {
      var s :| HeldBy(w, s, x) && w.runs[s].Reading?;
    }
    SiteKept(w, n, site);
  }

  lemma LookedKept(w: World, site: Site, seen: bool, priorOurs: bool, gone: bool)
    requires Inv(w) && site in w.runs && w.runs[site].Keeping?
    ensures Inv(OnLooked(w, site, w.runs[site].tab, seen, priorOurs, gone)) && site !in w.kept
  {
    var tab := w.runs[site].tab;
    var n := OnLooked(w, site, tab, seen, priorOurs, gone);
    assert HeldBy(w, site, tab);
    assert Held(w.runs[site]).Some?;
    forall x | x in w.runTabs ensures !HeldBy(w, site, x) {
      var s :| HeldBy(w, s, x) && w.runs[s].Reading?;
    }
    SiteKept(w, n, site);
  }

  lemma OperatorKept(w: World, open: set<TabId>)
    requires Inv(w) && forall x | x in open && x !in w.open :: x !in w.made
    ensures Inv(w.(open := open))
  {
    var n := w.(open := open);
    forall s, x ensures HeldBy(n, s, x) == HeldBy(w, s, x) && KeptFor(n, s, x) == KeptFor(w, s, x) {}
    forall x | x in n.runTabs ensures ReadBy(n, x) {
      var s :| HeldBy(w, s, x) && w.runs[s].Reading?;
      assert HeldBy(n, s, x);
    }
    forall x | x in n.made && x in n.open && !LetGo(n, x) ensures Owned(n, x) {
      var s :| HeldBy(w, s, x) || KeptFor(w, s, x);
      assert HeldBy(n, s, x) || KeptFor(n, s, x);
    }
  }

  /** Reading in a page, a run marks its tab as a run tab again or hands it to the operator for a while. */
  lemma MarksKept(w: World, site: Site, runTabs: set<TabId>)
    requires Inv(w) && site in w.runs && w.runs[site].Reading?
    requires runTabs <= w.runTabs + (if w.runs[site].page.owned then {w.runs[site].page.tab} else {})
    ensures Inv(w.(runTabs := runTabs))
  {
    var n := w.(runTabs := runTabs);
    forall s, x ensures HeldBy(n, s, x) == HeldBy(w, s, x) && KeptFor(n, s, x) == KeptFor(w, s, x) {}
    forall x | x in n.runTabs ensures ReadBy(n, x) {
      if x in w.runTabs {
        var s :| HeldBy(w, s, x) && w.runs[s].Reading?;
        assert HeldBy(n, s, x);
      } else {
        assert HeldBy(n, site, x);
      }
    }
    forall x | x in n.made && x in n.open && !LetGo(n, x) ensures Owned(n, x) {
      var s :| HeldBy(w, s, x) || KeptFor(w, s, x);
      assert HeldBy(n, s, x) || KeptFor(n, s, x);
    }
  }

  /** A run that waits for nothing it answers for. */
  lemma WaitsKept(w: World, site: Site, p: Phase)
    requires Inv(w) && Held(p).None? && !p.Opening? && (site in w.runs ==> Held(w.runs[site]).None?)
    ensures Inv(At(w, site, p))
  {
    forall x | OwnedBy(w, site, x) ensures x in w.made && !LetGo(w, x) { OwnersAgree(w, site, site, x); }
    var n := At(w, site, p);
    forall x | OwnedBy(n, site, x) ensures OwnedBy(w, site, x) {}
    SiteKept(w, n, site);
  }

  lemma FailsKept(w: World, site: Site)
    requires Inv(w) && site in w.runs && w.runs[site].Finding?
    ensures Inv(Over(w, site))
  {
    var n := Over(w, site);
    forall x | OwnedBy(n, site, x) ensures OwnedBy(w, site, x) && x in w.made && !LetGo(w, x) {
      OwnersAgree(w, site, site, x);
    }
    SiteKept(w, n, site);
  }

  lemma RestartKept(w: World)
    requires Inv(w)
    ensures Inv(OnRestart(w))
  {
    var n := OnRestart(w);
    forall x | x in w.made && Owned(w, x) ensures x in InHand(w) && !LetGo(w, x) {
      var s :| HeldBy(w, s, x) || KeptFor(w, s, x);
    }
    forall x | x in InHand(w) ensures !LetGo(w, x) {
      if s :| s in w.runs && Held(w.runs[s]) == Some(x) { assert HeldBy(w, s, x); }
      else { var s :| s in w.kept && w.kept[s] == x; assert KeptFor(w, s, x); }
    }
    forall x | x in n.made && x in n.open ensures LetGo(n, x) {
      assert LetGo(w, x) || Owned(w, x);
    }
  }

  lemma NextKept(w: World, e: Event)
    requires Inv(w) && EventOk(w, e)
    ensures Inv(Next(w, e))
  {
    match e
    case OperatorOpens(tab) => OperatorKept(w, w.open + {tab});
    case OperatorCloses(tab) => OperatorKept(w, w.open - {tab});
    case Begins(site, reuse) =>
      if site !in w.runs { if reuse { WaitsKept(w, site, Finding); } else { ReclaimKept(w, site); } }
    case Found(site, reused) =>
      if site in w.runs && w.runs[site].Finding? {
        if reused.Some? { WaitsKept(w, site, Reading(Page(reused.value, false))); } else { ReclaimKept(w, site); }
      }
    case FindFails(site) => if site in w.runs && w.runs[site].Finding? { FailsKept(w, site); }
    case Checked(site, seen, ours) => if site in w.runs && w.runs[site].Checking? { CheckedKept(w, site, seen, ours); }
    case Opened(site, created) => if site in w.runs && w.runs[site].Opening? { OpenedKept(w, site, created); }
    case Navigates(site) =>
      if site in w.runs && w.runs[site].Reading? && w.runs[site].page.owned {
        MarksKept(w, site, w.runTabs + {w.runs[site].page.tab});
      }
    case Focuses(site) =>
      if site in w.runs && w.runs[site].Reading? { MarksKept(w, site, w.runTabs - {w.runs[site].page.tab}); }
    case Ends(site, keepOpen) => if site in w.runs && w.runs[site].Reading? { EndsKept(w, site, keepOpen); }
    case Removed(site, gone) => if site in w.runs && w.runs[site].Closing? { RemovedKept(w, site, gone); }
    case Looked(site, seen, priorOurs, gone) =>
      if site in w.runs && w.runs[site].Keeping? { LookedKept(w, site, seen, priorOurs, gone); }
    case WorkerRestarts => RestartKept(w);
  }

  lemma {:induction false} PlayKept(w: World, events: seq<Event>)
    requires Inv(w) && EventsOk(w, events)
    ensures Inv(Play(w, events))
    decreases |events|
  {
    if events != [] {
      NextKept(w, events[0]);
      PlayKept(Next(w, events[0]), events[1..]);
    }
  }

  // ---- What every sequence of runs keeps -------------------------------------------------------------------------

  lemma StartInv()
    ensures Inv(Start)
  {
  }

  /**
   * Only tabs this runtime opened are ever removed by it or kept for a site, however runs, failures and the operator
   * interleave: a tab it only reused is neither. And once no run is under way, none is a run tab, and of the tabs it
   * opened that are still open those and only those are neither kept nor given up whose removal Chrome refused, that
   * it looked for in vain, or that a restart made the runtime forget.
   */
  lemma OnlyOwnTabs(events: seq<Event>)
    requires EventsOk(Start, events)
    ensures var w := Play(Start, events);
            && w.removed <= w.made && (forall s | s in w.kept :: w.kept[s] in w.made)
            && (w.runs == map[] ==>
                  && w.runTabs == {}
                  && forall x | x in w.made && x in w.open ::
                       (exists s :: KeptFor(w, s, x)) || x in w.givenUp
                       <==> x !in w.refused && x !in w.unseen && x !in w.forgotten)
  {
    StartInv();
    PlayKept(Start, events);
    var w := Play(Start, events);
    forall s | s in w.kept ensures w.kept[s] in w.made {
      assert KeptFor(w, s, w.kept[s]);
    }
    if w.runs == map[] {
      forall x ensures x !in w.runTabs {}
      forall x | x in w.made && x in w.open && !LetGo(w, x) ensures exists s :: KeptFor(w, s, x) {
        assert Owned(w, x);
      }
    }
  }

  /** The events that open a tab for a site and read in it until the read ends. */
  function ReadOnce(site: Site, tab: TabId, keepOpen: bool): seq<Event> {
    [Begins(site, false), Opened(site, Some(tab)), Ends(site, keepOpen)]
  }

  lemma ReadOnceDoes(site: Site, tab: TabId, keepOpen: bool, last: Event)
    requires last.Removed? || last.Looked?
    ensures EventsOk(Start, ReadOnce(site, tab, keepOpen) + [last])
    ensures var w := World({tab}, map[], {}, map[site := if keepOpen then Keeping(tab) else Closing(tab)],
                           {tab}, {}, {}, {}, {}, {});
            Play(Start, ReadOnce(site, tab, keepOpen) + [last]) == Next(w, last)
  {
    var events := ReadOnce(site, tab, keepOpen) + [last];
    var w1 := Next(Start, events[0]);
    var w2 := Next(w1, events[1]);
    var w3 := Next(w2, events[2]);
    assert w1 == At(Start, site, Opening);
    assert w2 == World({tab}, map[], {tab}, map[site := Reading(Page(tab, true))], {tab}, {}, {}, {}, {}, {});
    assert w3 == World({tab}, map[], {}, map[site := if keepOpen then Keeping(tab) else Closing(tab)],
                       {tab}, {}, {}, {}, {}, {});
    assert events[1..][1..] == events[2..] && events[2..][1..] == [last] && [last][1..] == [];
    assert Play(Start, events) == Play(w1, events[1..]) == Play(w2, events[2..]) == Play(w3, [last]);
    assert Play(w3, [last]) == Play(Next(w3, last), [last][1..]);
    assert EventsOk(w3, [last]) && EventsOk(w2, events[2..]) && EventsOk(w1, events[1..]);
  }

  /** A run that ends well and whose tab Chrome does not remove leaves the tab open and answered for by nobody. */
  lemma RefusedRemovalLosesTheTab(site: Site, tab: TabId)
    ensures var events := ReadOnce(site, tab, false) + [Removed(site, false)]; var w := Play(Start, events);
            && EventsOk(Start, events) && w.runs == map[] && tab in w.open && tab in w.made && tab !in w.runTabs
            && tab !in w.givenUp && !Owned(w, tab)
  {
    ReadOnceDoes(site, tab, false, Removed(site, false));
  }

  /** So does a run that is to leave its tab to the operator, if the look at the tab fails. */
  lemma FailedLookLosesTheTab(site: Site, tab: TabId)
    ensures var events := ReadOnce(site, tab, true) + [Looked(site, false, false, false)]; var w := Play(Start, events);
            && EventsOk(Start, events) && w.runs == map[] && tab in w.open && tab in w.made && tab !in w.runTabs
            && tab !in w.givenUp && !Owned(w, tab)
  {
    ReadOnceDoes(site, tab, true, Looked(site, false, false, false));
  }

  /** And so does a run that finds a tab left over and whose look at it fails: it goes on to open another. */
  lemma FailedCheckLosesTheTab(site: Site, tab: TabId)
    ensures var first := ReadOnce(site, tab, true) + [Looked(site, true, false, false)];
            var events := first + [Begins(site, false), Checked(site, false, true), Opened(site, None)];
            var w := Play(Start, events);
            && EventsOk(Start, events) && w.runs == map[] && tab in w.open && tab in w.made && tab !in w.runTabs
            && tab !in w.givenUp && !Owned(w, tab)
  {
    var first := ReadOnce(site, tab, true) + [Looked(site, true, false, false)];
    var again := [Begins(site, false), Checked(site, false, true), Opened(site, None)];
    ReadOnceDoes(site, tab, true, Looked(site, true, false, false));
    var w := Play(Start, first);
    assert w == World({tab}, map[site := tab], {}, map[], {tab}, {}, {}, {}, {}, {});
    var w1 := Next(w, again[0]);
    var w2 := Next(w1, again[1]);
    assert w1 == World({tab}, map[], {}, map[site := Checking(tab)], {tab}, {}, {}, {}, {}, {});
    assert w2 == World({tab}, map[], {}, map[site := Opening], {tab}, {}, {}, {}, {tab}, {});
    assert again[1..][1..] == [again[2]] && [again[2]][1..] == [];
    assert Play(w, again) == Play(w1, again[1..]) == Play(w2, [again[2]]) == Play(Next(w2, again[2]), [again[2]][1..]);
    assert EventsOk(w2, [again[2]]) && EventsOk(w1, again[1..]) && EventsOk(w, again);
    PlayAppends(Start, first, again);
  }

  lemma {:induction false} PlayAppends(w: World, a: seq<Event>, b: seq<Event>)
    ensures Play(w, a + b) == Play(Play(w, a), b)
    ensures EventsOk(w, a + b) <==> EventsOk(w, a) && EventsOk(Play(w, a), b)
    decreases |a|
  {
    if a == [] {
      assert a + b == b;
    } else {
      assert (a + b)[1..] == a[1..] + b;
      PlayAppends(Next(w, a[0]), a[1..], b);
    }
  }

  /** The tabs left over for two sites are different ones, and a run that answers for a tab has no other left over. */
  lemma OneLeftOverPerSite(events: seq<Event>, s: Site, t: Site)
    requires EventsOk(Start, events)
    ensures var w := Play(Start, events);
            && (s in w.kept && t in w.kept && s != t ==> w.kept[s] != w.kept[t])
            && (s in w.runs && Held(w.runs[s]).Some? ==> s !in w.kept)
  {
    StartInv();
    PlayKept(Start, events);
    var w := Play(Start, events);
    if s in w.kept && t in w.kept && w.kept[s] == w.kept[t] {
      assert KeptFor(w, s, w.kept[s]) && KeptFor(w, t, w.kept[s]);
    }
  }

  /** Whatever a run does with a tab it only reused, up to its end: tabs, removals and all that is kept stay as they are. */
  lemma ReusedIsLeftAlone(w: World, e: Event, site: Site)
    requires site in w.runs && w.runs[site].Reading? && !w.runs[site].page.owned
    requires (e.Begins? || e.Found? || e.FindFails? || e.Checked? || e.Opened? || e.Navigates? || e.Focuses? || e.Ends?
              || e.Removed? || e.Looked?) && e.site == site
    ensures var n := Next(w, e);
            && n.open == w.open && n.removed == w.removed && n.kept == w.kept && n.made == w.made
            && (if e.Ends? then n.runs == w.runs - {site} else n.runs == w.runs)
  {
  }

  /** A removal is the end of a run that answered for the tab, of its own site. */
  lemma RemovalIsOfOwner(w: World, e: Event, x: TabId)
    requires Inv(w) && x !in w.removed && x in Next(w, e).removed
    ensures e.Removed? && HeldBy(w, e.site, x) && w.runs[e.site].Closing? && x in w.made
  {
    match e
    case Removed(site, gone) =>
      assert HeldBy(w, site, x);
    case Looked(site, seen, priorOurs, gone) =>
      if site in w.runs && w.runs[site].Keeping? { LookedKept(w, site, seen, priorOurs, gone); }
    case _ =>
  }

  /**
   * Over every sequence of runs, a tab that was ever asked to be removed was so at the end of a run that had opened it or
   * taken it over as its own. A tab that runs have only reused never is.
   */
  lemma RemovedWasOwned(events: seq<Event>, x: TabId) returns (at: nat)
    requires EventsOk(Start, events) && x in Play(Start, events).removed
    ensures at < |events| && events[at].Removed?
    ensures var w := Play(Start, events[..at]);
            HeldBy(w, events[at].site, x) && w.runs[events[at].site].Closing? && x in w.made
  {
    StartInv();
    at := RemovedSince(Start, events, x);
  }

  lemma {:induction false} RemovedSince(w: World, events: seq<Event>, x: TabId) returns (at: nat)
    requires Inv(w) && EventsOk(w, events) && x !in w.removed && x in Play(w, events).removed
    ensures at < |events| && events[at].Removed?
    ensures var n := Play(w, events[..at]);
            HeldBy(n, events[at].site, x) && n.runs[events[at].site].Closing? && x in n.made
    decreases |events|
  {
    var next := Next(w, events[0]);
    if x in next.removed {
      RemovalIsOfOwner(w, events[0], x);
      at := 0;
    } else {
      NextKept(w, events[0]);
      var later := RemovedSince(next, events[1..], x);
      at := later + 1;
      assert events[..at][1..] == events[1..][..later];
    }
  }

  /** A tab that is read in by a run of its own is a run tab of no other, and its run's end takes it off the list. */
  lemma EndTakesOffTheList(w: World, site: Site, keepOpen: bool)
    requires Inv(w) && site in w.runs && w.runs[site].Reading? && w.runs[site].page.owned
    ensures var x, n := w.runs[site].page.tab, Next(w, Ends(site, keepOpen));
            && x !in n.runTabs && HeldBy(n, site, x)
            && (forall s | s != site :: !HeldBy(n, s, x) && !KeptFor(n, s, x))
  {
    var x, n := w.runs[site].page.tab, Next(w, Ends(site, keepOpen));
    EndsKept(w, site, keepOpen);
    assert HeldBy(n, site, x);
  }
}
