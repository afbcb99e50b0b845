/**
 * The tab bookkeeping as it is carried out: a map of kept tabs and a set of run tabs, changed in place at every step of
 * the runs. Each step is proved to be the one `TabOwnership.Next` takes.
 */
module TabPages {
  import opened Common
  import opened TabOwnership

  class Pages {
    var kept: map<Site, TabId>
    var runTabs: set<TabId>
    var runs: map<Site, Phase>
    var chrome: set<TabId>
    ghost var made: set<TabId>
    ghost var removed: set<TabId>
    ghost var givenUp: set<TabId>
    ghost var refused: set<TabId>
    ghost var unseen: set<TabId>
    ghost var forgotten: set<TabId>

    ghost function View(): World reads this {
      World(chrome, kept, runTabs, runs, made, removed, givenUp, refused, unseen, forgotten)
    }

    constructor ()
      ensures View() == Start
    {
      kept, runTabs, runs, chrome := map[], {}, map[], {};
      made, removed, givenUp, refused, unseen, forgotten := {}, {}, {}, {}, {}, {};
    }

    /** Takes the site's kept tab out of the map, to be checked, or goes on to open one. */
    method ReclaimKept(site: Site)
      modifies this`kept, this`runs
      ensures View() == Reclaim(old(View()), site)
    {
      if site !in kept {
        runs := runs[site := Opening];
        return;
      }
      var entry := kept[site];
      kept := kept - {site};
      runs := runs[site := Checking(entry)];
    }

    method StillOurs(site: Site, tab: TabId, seen: bool, ours: bool)
      modifies this`runTabs, this`runs, this`givenUp, this`unseen
      ensures View() == OnChecked(old(View()), site, tab, seen, ours)
    {
      if !seen || tab !in chrome {
        unseen := unseen + {tab};
        runs := runs[site := Opening];
      } else if !ours {
        givenUp := givenUp + {tab};
        runs := runs[site := Opening];
      } else {
        runTabs := runTabs + {tab};
        runs := runs[site := Reading(Page(tab, true))];
      }
    }

    method Open(site: Site, created: Option<TabId>)
      modifies this
      ensures View() == OnOpened(old(View()), site, created)
    {
      if created.None? {
        runs := runs - {site};
        return;
      }
      chrome := chrome + {created.value};
      made := made + {created.value};
      runTabs := runTabs + {created.value};
      runs := runs[site := Reading(Page(created.value, true))];
    }

    /** The `finally` of a run. */
    method Finish(site: Site, page: Page, keepOpen: bool)
      modifies this`runTabs, this`runs
      ensures View() == OnEnds(old(View()), site, page, keepOpen)
    {
      if !page.owned {
        runs := runs - {site};
        return;
      }
      runTabs := runTabs - {page.tab};
      runs := runs[site := if keepOpen then Keeping(page.tab) else Closing(page.tab)];
    }

    /** The removal and what is left of the run; a refusal is swallowed. */
    method Remove(site: Site, tab: TabId, gone: bool)
      modifies this`chrome, this`removed, this`refused, this`runs
      ensures View() == OnRemoved(old(View()), site, tab, gone)
    {
      removed := removed + {tab};
      if gone {
        chrome := chrome - {tab};
      } else {
        refused := refused + {tab};
      }
      runs := runs - {site};
    }

    method Keep(site: Site, tab: TabId, seen: bool, priorOurs: bool, gone: bool)
      modifies this
      ensures View() == OnLooked(old(View()), site, tab, seen, priorOurs, gone)
    {
      var prior := if site in kept then Some(kept[site]) else None;
      if seen && tab in chrome {
        kept := kept[site := tab];
      } else {
        kept := kept - {site};
        unseen := unseen + {tab};
      }
      if prior.Some? && prior.value != tab {
        if priorOurs {
          Remove(site, prior.value, gone);
          return;
        }
        givenUp := givenUp + {prior.value};
      }
      runs := runs - {site};
    }

    /** A new worker starts with an empty map and an empty set. */
    method Restart()
      modifies this`kept, this`runTabs, this`runs, this`forgotten
      ensures View() == OnRestart(old(View()))
    {
      forgotten := forgotten + InHand(View());
      kept, runTabs, runs := map[], {}, map[];
    }

    method Handle(e: Event)
      modifies this
      ensures View() == Next(old(View()), e)
    {
      match e
      case OperatorOpens(tab) => chrome := chrome + {tab};
      case OperatorCloses(tab) => chrome := chrome - {tab};
      case Begins(site, reuse) =>
        if site !in runs { if reuse { runs := runs[site := Finding]; } else { ReclaimKept(site); } }
      case Found(site, reused) =>
        if site in runs && runs[site].Finding? {
          if reused.Some? { runs := runs[site := Reading(Page(reused.value, false))]; } else { ReclaimKept(site); }
        }
      case FindFails(site) => if site in runs && runs[site].Finding? { runs := runs - {site}; }
      case Checked(site, seen, ours) =>
        if site in runs && runs[site].Checking? { StillOurs(site, runs[site].tab, seen, ours); }
      case Opened(site, created) => if site in runs && runs[site].Opening? { Open(site, created); }
      case Removed(site, gone) => if site in runs && runs[site].Closing? { Remove(site, runs[site].tab, gone); }
      case Looked(site, seen, priorOurs, gone) =>
        if site in runs && runs[site].Keeping? { Keep(site, runs[site].tab, seen, priorOurs, gone); }
      case WorkerRestarts => Restart();
      case _ => HandlePage(e);
    }

    /** What a run does with the page it reads in. */
    method HandlePage(e: Event)
      requires e.Navigates? || e.Focuses? || e.Ends?
      modifies this`runTabs, this`runs
      ensures View() == Next(old(View()), e)
    {
      if e.site !in runs || !runs[e.site].Reading? { return; }
      var page := runs[e.site].page;
      match e
      case Navigates(_) => if page.owned { runTabs := runTabs + {page.tab}; }
      case Focuses(_) => runTabs := runTabs - {page.tab};
      case Ends(site, keepOpen) => Finish(site, page, keepOpen);
    }
  }

  /**
   * Any number of runs for any sites, from the runtime's start: only tabs it opened are removed or kept, and once no run
   * is under way its set of run tabs is empty and its map keeps a tab for one site each.
   */
  method Serve(events: seq<Event>) returns (pages: Pages)
    requires EventsOk(Start, events)
    ensures fresh(pages) && pages.View() == Play(Start, events)
    ensures pages.removed <= pages.made && forall s | s in pages.kept :: pages.kept[s] in pages.made
    ensures pages.runs == map[] ==> pages.runTabs == {}
    ensures forall s, t | s in pages.kept && t in pages.kept && s != t :: pages.kept[s] != pages.kept[t]
  {
    pages := new Pages();
    assert events[0..] == events;
    for i := 0 to |events|
      invariant fresh(pages) && Play(pages.View(), events[i..]) == Play(Start, events)
    {
      assert events[i..][0] == events[i] && events[i..][1..] == events[i + 1..];
      pages.Handle(events[i]);
    }
    OnlyOwnTabs(events);
    forall s, t ensures s in pages.kept && t in pages.kept && s != t ==> pages.kept[s] != pages.kept[t] {
      OneLeftOverPerSite(events, s, t);
    }
  }
}
