/** What every event does to each part of what is known of tabs, whichever way runs of different sites interleave. */
module TabEffects {
  import opened Common
  import opened TabOwnership

  /** The site whose run, or whose wish for one, the event is about. */
  function SiteOf(e: Event): Option<Site> {
    match e
    case Begins(site, _) => Some(site)
    case Found(site, _) => Some(site)
    case FindFails(site) => Some(site)
    case Checked(site, _, _) => Some(site)
    case Opened(site, _) => Some(site)
    case Navigates(site) => Some(site)
    case Focuses(site) => Some(site)
    case Ends(site, _) => Some(site)
    case Removed(site, _) => Some(site)
    case Looked(site, _, _, _) => Some(site)
    case _ => None
  }

  predicate Awaits(p: Phase, e: Event) {
    || (p.Finding? && (e.Found? || e.FindFails?)) || (p.Checking? && e.Checked?) || (p.Opening? && e.Opened?)
    || (p.Reading? && (e.Navigates? || e.Focuses? || e.Ends?)) || (p.Closing? && e.Removed?) || (p.Keeping? && e.Looked?)
  }

  /** The event is one the site's run waits for, or begins a run of a site that has none. */
  predicate Goes(w: World, e: Event) {
    SiteOf(e).Some? &&
    var site := SiteOf(e).value;
    if site in w.runs then Awaits(w.runs[site], e) else e.Begins?
  }

  /** The tab the run has to do with. */
  function Tab(w: World, e: Event): TabId
    requires Goes(w, e) && SiteOf(e).value in w.runs && !w.runs[SiteOf(e).value].Finding?
             && !w.runs[SiteOf(e).value].Opening?
  {
    var p := w.runs[SiteOf(e).value];
    if p.Reading? then p.page.tab else p.tab
  }

  predicate Owns(w: World, e: Event)
    requires Goes(w, e) && (e.Navigates? || e.Focuses? || e.Ends?)
  {
    w.runs[e.site].page.owned
  }

  /** The tab is there and the look at it works. */
  predicate Sees(w: World, e: Event)
    requires Goes(w, e) && (e.Checked? || e.Looked?)
  {
    e.seen && Tab(w, e) in w.open
  }

  /** Another tab that is kept for the site already. */
  function Prior(w: World, e: Event): Option<TabId>
    requires Goes(w, e) && e.Looked?
  {
    if e.site in w.kept && w.kept[e.site] != Tab(w, e) then Some(w.kept[e.site]) else None
  }

  function Just<T>(t: Option<T>): set<T> { if t.Some? then {t.value} else {} }

  function If<T>(condition: bool, t: T): set<T> { if condition then {t} else {} }

  // ---- Part by part ----------------------------------------------------------------------------------------------

  /** The tab that Chrome is asked to remove. */
  function Removes(w: World, e: Event): set<TabId> {
    if !Goes(w, e) then {}
    else if e.Removed? then {Tab(w, e)}
    else if e.Looked? && e.priorOurs then Just(Prior(w, e))
    else {}
  }

  predicate Gone(e: Event) { (e.Removed? || e.Looked?) && e.gone }

  /** The tab that this runtime opens. */
  function Makes(w: World, e: Event): set<TabId> { if Goes(w, e) && e.Opened? then Just(e.created) else {} }

  /** The tab that is seen to be the operator's now. */
  function GivesUp(w: World, e: Event): set<TabId> {
    if !Goes(w, e) then {}
    else if e.Checked? then If(Sees(w, e) && !e.ours, Tab(w, e))
    else if e.Looked? && !e.priorOurs then Just(Prior(w, e))
    else {}
  }

  /** The tab that is looked for in vain. */
  function Misses(w: World, e: Event): set<TabId> {
    if Goes(w, e) && (e.Checked? || e.Looked?) then If(!Sees(w, e), Tab(w, e)) else {}
  }

  function TakesUp(w: World, e: Event): set<TabId> {
    if !Goes(w, e) then {}
    else if e.Checked? then If(Sees(w, e) && e.ours, Tab(w, e))
    else if e.Navigates? then If(Owns(w, e), Tab(w, e))
    else Makes(w, e)
  }

  function LaysDown(w: World, e: Event): set<TabId> {
    if !Goes(w, e) then {}
    else if e.Focuses? then {Tab(w, e)}
    else if e.Ends? then If(Owns(w, e), Tab(w, e))
    else {}
  }

  predicate Reclaims(w: World, e: Event) {
    Goes(w, e) && ((e.Begins? && !e.reuse) || (e.Found? && e.reused.None?))
  }

  function KeptAfter(w: World, e: Event): map<Site, TabId> {
    if e.WorkerRestarts? then map[]
    else if Reclaims(w, e) then w.kept - {e.site}
    else if Goes(w, e) && e.Looked? then if Sees(w, e) then w.kept[e.site := Tab(w, e)] else w.kept - {e.site}
    else w.kept
  }

  /** Where the run goes on, if it does. */
  function PhaseAfter(w: World, e: Event): Option<Phase>
    requires Goes(w, e)
  {
    if Reclaims(w, e) then Some(if e.site in w.kept then Checking(w.kept[e.site]) else Opening)
    else
      match e
      case Begins(_, _) => Some(Finding)
      case Found(_, reused) => Some(Reading(Page(reused.value, false)))
      case Checked(_, _, ours) => Some(if Sees(w, e) && ours then Reading(Page(Tab(w, e), true)) else Opening)
      case Opened(_, created) => if created.Some? then Some(Reading(Page(created.value, true))) else None
      case Navigates(site) => Some(w.runs[site])
      case Focuses(site) => Some(w.runs[site])
      case Ends(_, keepOpen) =>
        if !Owns(w, e) then None else Some(if keepOpen then Keeping(Tab(w, e)) else Closing(Tab(w, e)))
      case _ => None
  }

  function RunsAfter(w: World, e: Event): map<Site, Phase> {
    if e.WorkerRestarts? then map[]
    else if !Goes(w, e) then w.runs
    else if PhaseAfter(w, e).None? then w.runs - {SiteOf(e).value}
    else w.runs[SiteOf(e).value := PhaseAfter(w, e).value]
  }

  /** What every event does to each part. */
  ghost predicate Does(w: World, e: Event, n: World) {
    && n.open == w.open + Makes(w, e) + (if e.OperatorOpens? then {e.tab} else {})
                 - (if e.OperatorCloses? then {e.tab} else if Gone(e) then Removes(w, e) else {})
    && n.made == w.made + Makes(w, e)
    && n.removed == w.removed + Removes(w, e)
    && n.refused == w.refused + (if Gone(e) then {} else Removes(w, e))
    && n.givenUp == w.givenUp + GivesUp(w, e)
    && n.unseen == w.unseen + Misses(w, e)
    && n.runTabs == (if e.WorkerRestarts? then {} else w.runTabs + TakesUp(w, e) - LaysDown(w, e))
    && n.kept == KeptAfter(w, e)
    && n.runs == RunsAfter(w, e)
    && (forall x :: x in n.forgotten <==> x in w.forgotten || (e.WorkerRestarts? && x in w.made && Owned(w, x)))
  }

  lemma RestartDoes(w: World)
    ensures Does(w, WorkerRestarts, OnRestart(w))
  {
    forall x ensures x in InHand(w) <==> x in w.made && Owned(w, x) {
      if s :| s in w.runs && Held(w.runs[s]) == Some(x) { assert HeldBy(w, s, x); }
      if s :| s in w.kept && w.kept[s] == x { assert KeptFor(w, s, x); }
      if s :| HeldBy(w, s, x) || KeptFor(w, s, x) {}
    }
  }

  lemma LookedDoes(w: World, e: Event)
    requires e.Looked? && Goes(w, e)
    ensures Does(w, e, Next(w, e))
  {
  }

  lemma CheckedDoes(w: World, e: Event)
    requires e.Checked? && Goes(w, e)
    ensures Does(w, e, Next(w, e))
  {
  }

  lemma ReclaimDoes(w: World, e: Event)
    requires Reclaims(w, e)
    ensures Does(w, e, Next(w, e))
  {
    assert Next(w, e) == Reclaim(w, e.site);
  }

  lemma ReadingDoes(w: World, e: Event)
    requires (e.Navigates? || e.Focuses? || e.Ends?) && Goes(w, e)
    ensures Does(w, e, Next(w, e))
  {
  }

  lemma IdleDoes(w: World, e: Event)
    requires SiteOf(e).Some? && !Goes(w, e)
    ensures Next(w, e) == w && Does(w, e, w)
  {
  }

  lemma OperatorDoes(w: World, e: Event)
    requires e.OperatorOpens? || e.OperatorCloses?
    ensures Does(w, e, Next(w, e))
  {
  }

  /** Every event does just this. */
  lemma NextDoes(w: World, e: Event)
    ensures Does(w, e, Next(w, e))
  {
    if e.WorkerRestarts? { RestartDoes(w); }
    else if e.OperatorOpens? || e.OperatorCloses? { OperatorDoes(w, e); }
    else if !Goes(w, e) { IdleDoes(w, e); }
    else if e.Looked? { LookedDoes(w, e); }
    else if e.Checked? { CheckedDoes(w, e); }
    else if Reclaims(w, e) { ReclaimDoes(w, e); }
    else if e.Navigates? || e.Focuses? || e.Ends? { ReadingDoes(w, e); }
    else {}
  }
}
