/** Discovery: DiscoveryJob of app/ingestion/jobs/discovery_job.py. */
module DiscoveryRuns {
  import opened Base
  import opened Ledger
  import opened RunHistory
  import opened Session

  const TASKS_PER_STATEMENT := 5000

  /** An entry of a list page. An id that is missing, a boolean or no number reads as None. */
  datatype Listed = Listed(malId: Option<int>, excludedType: bool)

  datatype ListPage = ListPage(data: seq<Listed>, hasNext: bool)

  /** What may go wrong with a page. An unanswered commit took effect, but the job sees an error. */
  datatype PageFault = NoPageFault | ListFails | WriteFails | CommitIsRefused | CommitIsUnanswered

  // --- the list -------------------------------------------------------------------------------------

  /** Page numbers start at 1; there is nothing after the last page. */
  function PageAt(list: seq<ListPage>, page: nat): ListPage {
    if 1 <= page <= |list| then list[page - 1] else ListPage([], false)
  }

  predicate IsUsable(e: Listed) { e.malId.Some? && e.malId.value > 0 && !e.excludedType }

  /** The tasks one page stands for. */
  function PageRows(p: ListPage, resources: set<Resource>): set<Key> {
    set i, r | 0 <= i < |p.data| && r in resources && IsUsable(p.data[i]) :: Key(p.data[i].malId.value, r)
  }

  predicate IsLast(list: seq<ListPage>, maxPages: Option<nat>, page: nat) {
    !PageAt(list, page).hasNext || (maxPages.Some? && maxPages.value > 0 && page >= maxPages.value)
  }

  /** Where the paging that starts at `page` ends. */
  function LastPage(list: seq<ListPage>, maxPages: Option<nat>, page: nat): (last: nat)
    ensures page <= last && IsLast(list, maxPages, last)
    ensures forall p | page <= p < last :: !IsLast(list, maxPages, p)
    decreases if page <= |list| then |list| - page + 1 else 0
  {
    if IsLast(list, maxPages, page) then page else LastPage(list, maxPages, page + 1)
  }

  lemma SameEnd(list: seq<ListPage>, maxPages: Option<nat>, page: nat, later: nat)
    requires page <= later <= LastPage(list, maxPages, page)
    ensures LastPage(list, maxPages, later) == LastPage(list, maxPages, page)
  {
  }

  /** The tasks of the pages from `first` up to, but without, `end`. */
  function RowsIn(list: seq<ListPage>, resources: set<Resource>, first: nat, end: nat): set<Key> {
    if end <= first then {} else RowsIn(list, resources, first, end - 1) + PageRows(PageAt(list, end - 1), resources)
  }

  function RowCounts(list: seq<ListPage>, resources: set<Resource>, first: nat, end: nat): nat {
    if end <= first then 0
    else RowCounts(list, resources, first, end - 1) + |PageRows(PageAt(list, end - 1), resources)|
  }

  predicate ListedIn(list: seq<ListPage>, resources: set<Resource>, first: nat, end: nat, k: Key) {
    exists p | first <= p < end :: k in PageRows(PageAt(list, p), resources)
  }

  lemma {:induction false} RowIsListed(list: seq<ListPage>, resources: set<Resource>, first: nat, end: nat, k: Key)
    ensures k in RowsIn(list, resources, first, end) <==> ListedIn(list, resources, first, end, k)
  {
    if first < end {
      RowIsListed(list, resources, first, end - 1, k);
    }
  }

  /** The task of an anime is listed exactly when one of the pages has an entry with its positive id and
      no excluded type, and the resource is one of those asked for. */
  lemma WhatIsListed(list: seq<ListPage>, resources: set<Resource>, first: nat, end: nat, k: Key)
    ensures k in RowsIn(list, resources, first, end) <==>
      k.resource in resources && k.malId > 0 && exists p :: first <= p < end && IsOnPage(list, p, k.malId)
  {
    RowIsListed(list, resources, first, end, k);
    forall p | first <= p < end
      ensures k in PageRows(PageAt(list, p), resources) <==>
        k.resource in resources && k.malId > 0 && IsOnPage(list, p, k.malId)
    {
      OnPage(list, resources, p, k);
    }
  }

  lemma OnPage(list: seq<ListPage>, resources: set<Resource>, p: nat, k: Key)
    ensures k in PageRows(PageAt(list, p), resources) <==>
      k.resource in resources && k.malId > 0 && IsOnPage(list, p, k.malId)
  {
    if k in PageRows(PageAt(list, p), resources) {
      var i :| 0 <= i < |PageAt(list, p).data| && IsEntryOf(PageAt(list, p).data[i], k.malId);
    }
  }

  predicate IsOnPage(list: seq<ListPage>, p: nat, id: int) {
    1 <= p <= |list| && HasEntryOf(list[p - 1].data, id)
  }

  predicate HasEntryOf(data: seq<Listed>, id: int) {
    exists i :: 0 <= i < |data| && IsEntryOf(data[i], id)
  }

  predicate IsEntryOf(e: Listed, id: int) { e.malId == Some(id) && !e.excludedType }

  /** Paging ends at the first page that has no next page, or whose number has reached the limit; a limit
      of zero is none. */
  lemma WhereItEnds(list: seq<ListPage>, maxPages: Option<nat>, page: nat, last: nat)
    requires page >= 1
    ensures last == LastPage(list, maxPages, page) <==>
      page <= last && EndsAt(list, maxPages, last) && forall p | page <= p < last :: !EndsAt(list, maxPages, p)
  {
    var l := LastPage(list, maxPages, page);
    assert forall p | p >= 1 :: IsLast(list, maxPages, p) <==> EndsAt(list, maxPages, p);
    if page <= last && EndsAt(list, maxPages, last) && (forall p | page <= p < last :: !EndsAt(list, maxPages, p)) {
      assert IsLast(list, maxPages, last) && EndsAt(list, maxPages, l);
    }
  }

  predicate EndsAt(list: seq<ListPage>, maxPages: Option<nat>, page: nat)
    requires page >= 1
  {
    page > |list| || !list[page - 1].hasNext || (maxPages.Some? && maxPages.value != 0 && page >= maxPages.value)
  }

  /** Two overlapping ranges of pages are one. */
  lemma RowsOverlap(list: seq<ListPage>, resources: set<Resource>, first: nat, start: nat, end: nat, further: nat)
    requires first <= start <= end
    ensures RowsIn(list, resources, first, end) + RowsIn(list, resources, start, further)
         == RowsIn(list, resources, first, Max(end, further))
  {
    var a, b := RowsIn(list, resources, first, end), RowsIn(list, resources, start, further);
    var all := RowsIn(list, resources, first, Max(end, further));
    forall k ensures k in a + b <==> k in all {
      RowIsListed(list, resources, first, end, k);
      RowIsListed(list, resources, start, further, k);
      RowIsListed(list, resources, first, Max(end, further), k);
    }
  }

  /** The ledger after the rows were listed. */
  function Effect(l: Tasks, rows: set<Key>, resetExisting: bool): Tasks {
    if resetExisting then InsertedOrReset(l, rows) else Inserted(l, rows)
  }

  lemma EffectsCompose(l: Tasks, a: set<Key>, b: set<Key>, resetExisting: bool)
    ensures Effect(Effect(l, a, resetExisting), b, resetExisting) == Effect(l, a + b, resetExisting)
  {
  }

  lemma NoEffect(l: Tasks, resetExisting: bool)
    ensures Effect(l, {}, resetExisting) == l
  {
  }

  /** A row is inserted once and reset once, however the rows are split over statements. */
  lemma CountsCompose(l: Tasks, a: set<Key>, b: set<Key>)
    ensures |Missing(l, a)| + |Missing(Inserted(l, a), b)| == |Missing(l, a + b)|
    ensures |Missing(l, a)| + |Missing(InsertedOrReset(l, a), b)| == |Missing(l, a + b)|
    ensures |ToReset(l, a)| + |ToReset(InsertedOrReset(l, a), b)| == |ToReset(l, a + b)|
  {
    TwoParts(Missing(l, a + b), Missing(l, a), Missing(Inserted(l, a), b));
    assert Missing(InsertedOrReset(l, a), b) == Missing(Inserted(l, a), b);
    TwoParts(ToReset(l, a + b), ToReset(l, a), ToReset(InsertedOrReset(l, a), b));
  }

  lemma TwoParts<T(!new)>(all: set<T>, a: set<T>, b: set<T>)
    requires forall x :: x in all <==> x in a || x in b
    requires forall x | x in a :: x !in b
    ensures |a| + |b| == |all|
  {
    assert all == a + b;
  }

  // --- runs -----------------------------------------------------------------------------------------

  /** The counts of a run's summary. */
  datatype Totals = Totals(pages: nat, animeSeen: nat, animeSkipped: nat, skippedType: nat,
    inserted: nat, reset: nat, leftAlone: nat)

  const NO_TOTALS := Totals(0, 0, 0, 0, 0, 0, 0)

  /** The counts of a run that committed the rows of some pages. */
  predicate TotalsOf(t: Totals, l: Tasks, list: seq<ListPage>, resources: set<Resource>, first: nat, end: nat,
                     resetExisting: bool)
  {
    var rows := RowsIn(list, resources, first, end);
    first <= end && t.pages == end - first && t.inserted == |Missing(l, rows)| &&
    if resetExisting
    then t.reset == |ToReset(l, rows)| && t.inserted + t.reset + t.leftAlone == RowCounts(list, resources, first, end)
    else t.reset == 0 && t.leftAlone == 0
  }

  predicate HasNoId(e: Listed) { e.malId.None? || e.malId.value <= 0 }

  function CountNoId(data: seq<Listed>): nat {
    if data == [] then 0 else CountNoId(data[..|data| - 1]) + if HasNoId(data[|data| - 1]) then 1 else 0
  }

  function CountExcluded(data: seq<Listed>): nat {
    if data == [] then 0
    else
      var last := data[|data| - 1];
      CountExcluded(data[..|data| - 1]) + if !HasNoId(last) && last.excludedType then 1 else 0
  }

  /** The committed ledger and the counts after some pages. */
  datatype Progress = Progress(tasks: Tasks, totals: Totals)

  function Collected(t: Totals, p: ListPage): Totals {
    t.(animeSeen := t.animeSeen + |p.data|, animeSkipped := t.animeSkipped + CountNoId(p.data),
       skippedType := t.skippedType + CountExcluded(p.data))
  }

  /** The summary after a committed page of `size` tasks. */
  function Added(t: Totals, size: nat, inserted: nat, reset: nat, resetExisting: bool): Totals
    requires inserted + reset <= size
  {
    t.(pages := t.pages + 1, inserted := t.inserted + inserted, reset := t.reset + reset,
       leftAlone := t.leftAlone + if resetExisting then size - inserted - reset else 0)
  }

  function PageStep(s: Progress, p: ListPage, resources: set<Resource>, resetExisting: bool): Progress {
    var rows, t := PageRows(p, resources), Collected(s.totals, p);
    Progress(
      Effect(s.tasks, rows, resetExisting),
      t.(pages := t.pages + 1, inserted := t.inserted + |Missing(s.tasks, rows)|,
         reset := t.reset + if resetExisting then |ToReset(s.tasks, rows)| else 0,
         leftAlone := t.leftAlone + if resetExisting then |Untouched(s.tasks, rows)| else 0))
  }

  lemma PageTotals(t: Totals, rows: nat, missing: nat, again: nat, untouched: nat, resetExisting: bool, inserted: nat,
                   reset: nat)
    requires inserted == missing && reset == (if resetExisting then again else 0) && inserted + reset <= rows
    requires resetExisting ==> rows - inserted - reset == untouched
    ensures Added(t, rows, inserted, reset, resetExisting)
      == t.(pages := t.pages + 1, inserted := t.inserted + missing,
         reset := t.reset + if resetExisting then again else 0,
         leftAlone := t.leftAlone + if resetExisting then untouched else 0)
  {
  }

  lemma PageAdded(s: Progress, p: ListPage, resources: set<Resource>, resetExisting: bool, rows: set<Key>, t: Totals,
                  inserted: nat, reset: nat)
    requires rows == PageRows(p, resources) && t == Collected(s.totals, p) && inserted + reset <= |rows|
    requires inserted == |Missing(s.tasks, rows)|
    requires reset == if resetExisting then |ToReset(s.tasks, rows)| else 0
    requires resetExisting ==> |rows| - inserted - reset == |Untouched(s.tasks, rows)|
    ensures PageStep(s, p, resources, resetExisting)
         == Progress(Effect(s.tasks, rows, resetExisting), Added(t, |rows|, inserted, reset, resetExisting))
  {
    PageTotals(t, |rows|, |Missing(s.tasks, rows)|, |ToReset(s.tasks, rows)|, |Untouched(s.tasks, rows)|, resetExisting,
      inserted, reset);
  }

  /** The pages from `first` up to, but without, `end`, one by one. */
  function AfterPages(l: Tasks, list: seq<ListPage>, resources: set<Resource>, first: nat, end: nat,
                      resetExisting: bool): Progress {
    if end <= first then Progress(l, NO_TOTALS)
    else PageStep(AfterPages(l, list, resources, first, end - 1, resetExisting), PageAt(list, end - 1), resources,
      resetExisting)
  }

  lemma OnePageMore(l: Tasks, list: seq<ListPage>, resources: set<Resource>, first: nat, page: nat, resetExisting: bool)
    requires first <= page
    ensures AfterPages(l, list, resources, first, page + 1, resetExisting)
         == PageStep(AfterPages(l, list, resources, first, page, resetExisting), PageAt(list, page), resources,
           resetExisting)
  {
  }

  lemma StepAdds(s: Progress, p: ListPage, resources: set<Resource>, resetExisting: bool, s': Progress)
    requires s' == PageStep(s, p, resources, resetExisting)
    ensures s'.tasks == Effect(s.tasks, PageRows(p, resources), resetExisting)
    ensures s'.totals.pages == s.totals.pages + 1
    ensures s'.totals.inserted == s.totals.inserted + |Missing(s.tasks, PageRows(p, resources))|
    ensures s'.totals.reset == s.totals.reset + if resetExisting then |ToReset(s.tasks, PageRows(p, resources))| else 0
    ensures s'.totals.leftAlone
         == s.totals.leftAlone + if resetExisting then |Untouched(s.tasks, PageRows(p, resources))| else 0
  {
  }

  lemma {:induction false} PagesListTheirRows(l: Tasks, list: seq<ListPage>, resources: set<Resource>, first: nat,
                                              end: nat, resetExisting: bool)
    requires first <= end
    ensures AfterPages(l, list, resources, first, end, resetExisting).tasks
         == Effect(l, RowsIn(list, resources, first, end), resetExisting)
  {
    if end == first {
      NoEffect(l, resetExisting);
    } else {
      var page, s := end - 1, AfterPages(l, list, resources, first, end - 1, resetExisting);
      PagesListTheirRows(l, list, resources, first, page, resetExisting);
      OnePageMore(l, list, resources, first, page, resetExisting);
      StepLists(l, RowsIn(list, resources, first, page), s, PageAt(list, page), resources, resetExisting);
    }
  }

  lemma StepLists(l: Tasks, done: set<Key>, s: Progress, p: ListPage, resources: set<Resource>, resetExisting: bool)
    requires s.tasks == Effect(l, done, resetExisting)
    ensures PageStep(s, p, resources, resetExisting).tasks == Effect(l, done + PageRows(p, resources), resetExisting)
  {
  }

  lemma OnePageCounted(s: Progress, s': Progress, l: Tasks, list: seq<ListPage>, resources: set<Resource>, first: nat,
                       page: nat, resetExisting: bool)
    requires s' == PageStep(s, PageAt(list, page), resources, resetExisting)
    requires s.tasks == Effect(l, RowsIn(list, resources, first, page), resetExisting)
    requires TotalsOf(s.totals, l, list, resources, first, page, resetExisting)
    ensures TotalsOf(s'.totals, l, list, resources, first, page + 1, resetExisting)
  {
    StepAdds(s, PageAt(list, page), resources, resetExisting, s');
    PageCounted(s.totals, s'.totals, l, list, resources, first, page, resetExisting);
  }

  lemma NextPageCounted(l: Tasks, list: seq<ListPage>, resources: set<Resource>, first: nat, page: nat,
                        resetExisting: bool)
    requires first <= page
    requires TotalsOf(AfterPages(l, list, resources, first, page, resetExisting).totals, l, list, resources, first,
      page, resetExisting)
    ensures TotalsOf(AfterPages(l, list, resources, first, page + 1, resetExisting).totals, l, list, resources, first,
      page + 1, resetExisting)
  {
    var s := AfterPages(l, list, resources, first, page, resetExisting);
    PagesListTheirRows(l, list, resources, first, page, resetExisting);
    OnePageMore(l, list, resources, first, page, resetExisting);
    OnePageCounted(s, PageStep(s, PageAt(list, page), resources, resetExisting), l, list, resources, first, page,
      resetExisting);
  }

  lemma {:induction false} PagesAreCounted(l: Tasks, list: seq<ListPage>, resources: set<Resource>, first: nat,
                                           end: nat, resetExisting: bool)
    requires first <= end
    ensures TotalsOf(AfterPages(l, list, resources, first, end, resetExisting).totals, l, list, resources, first, end,
      resetExisting)
  {
    if first == end {
      NothingCounted(l, list, resources, first, resetExisting);
    } else {
      PagesAreCounted(l, list, resources, first, end - 1, resetExisting);
      NextPageCounted(l, list, resources, first, end - 1, resetExisting);
    }
  }

  /** The task counts; the anime of a page that failed later may have been counted as seen. */
  predicate SameCounts(t: Totals, u: Totals) {
    t.pages == u.pages && t.inserted == u.inserted && t.reset == u.reset && t.leftAlone == u.leftAlone
  }

  /** Page by page is all at once: the ledger depends only on the set of listed tasks, and each of
      them is counted once as inserted, once as reset. */
  lemma PagesAreOneStep(l: Tasks, after: Tasks, t: Totals, list: seq<ListPage>, resources: set<Resource>,
                        first: nat, counted: nat, end: nat, resetExisting: bool)
    requires first <= counted && first <= end
    requires after == AfterPages(l, list, resources, first, end, resetExisting).tasks
    requires SameCounts(t, AfterPages(l, list, resources, first, counted, resetExisting).totals)
    ensures after == Effect(l, RowsIn(list, resources, first, end), resetExisting)
    ensures TotalsOf(t, l, list, resources, first, counted, resetExisting)
  {
    PagesListTheirRows(l, list, resources, first, end, resetExisting);
    PagesAreCounted(l, list, resources, first, counted, resetExisting);
  }

  function FaultAt(faults: seq<PageFault>, n: nat): (fault: PageFault)
    ensures fault == NoPageFault || (n < |faults| && fault == faults[n])
    ensures n < |faults| ==> fault == faults[n]
  {
    if n < |faults| then faults[n] else NoPageFault
  }

  function RunRow(name: string, now: int, resume: nat, finished: bool, recorded: bool): Run {
    if !recorded then Run(Discovery(name), Running, now, None)
    else if finished then Run(Discovery(name), Succeeded, now, Some(Summary(None, None, None)))
    else Run(Discovery(name), RunStatus.Failed, now, Some(Summary(None, None, Some(resume))))
  }

  lemma PageCounted(t: Totals, t': Totals, l: Tasks, list: seq<ListPage>, resources: set<Resource>, first: nat,
                    page: nat, resetExisting: bool)
    requires TotalsOf(t, l, list, resources, first, page, resetExisting)
    requires var before, rows :=
      Effect(l, RowsIn(list, resources, first, page), resetExisting), PageRows(PageAt(list, page), resources);
      t'.pages == t.pages + 1 && t'.inserted == t.inserted + |Missing(before, rows)| &&
      if resetExisting
      then t'.reset == t.reset + |ToReset(before, rows)| && t'.leftAlone == t.leftAlone + |Untouched(before, rows)|
      else t'.reset == t.reset && t'.leftAlone == t.leftAlone
    ensures TotalsOf(t', l, list, resources, first, page + 1, resetExisting)
  {
    var done, rows := RowsIn(list, resources, first, page), PageRows(PageAt(list, page), resources);
    CountsCompose(l, done, rows);
    RowsPartition(Effect(l, done, resetExisting), rows);
  }

  lemma MoreRows(rows: seq<Key>, start: nat, end: nat)
    requires start <= end <= |rows|
    ensures SetOf(rows[..end]) == SetOf(rows[..start]) + SetOf(rows[start..end])
  {
  }

  lemma NothingCounted(l: Tasks, list: seq<ListPage>, resources: set<Resource>, page: nat, resetExisting: bool)
    ensures TotalsOf(NO_TOTALS, l, list, resources, page, page, resetExisting)
  {
  }

  /** How one run of a restarted list goes, and when it starts. */
  datatype Plan = Plan(now: int, faults: seq<PageFault>, recorded: bool)

  lemma ResumesAt(before: seq<Run>, name: string, now: int, resume: nat, finished: bool, recorded: bool)
    ensures forall later: int ::
      ResumePage(before + [RunRow(name, now, resume, finished, recorded)], Discovery(name), later)
        == if recorded && !finished && later - now <= DAY && resume > 0 then resume else 1
  {
  }

  const AIRING := "discovery_weekly_airing"
  const UPCOMING := "discovery_weekly_upcoming"

  function TasksOf(ids: set<int>, resources: set<Resource>): set<Key> {
    set id, r | id in ids && r in resources :: Key(id, r)
  }

  /** The tasks a list stands for from one page on. */
  function RestOf(list: seq<ListPage>, resources: set<Resource>, maxPages: Option<nat>, page: nat): set<Key> {
    RowsIn(list, resources, page, LastPage(list, maxPages, page) + 1)
  }

  /** The ledger is that of one reset of the rows, and none of their tasks is done or failed. */
  predicate AllFresh(l: Tasks, l': Tasks, rows: set<Key>) {
    l' == InsertedOrReset(l, rows) && forall k | k in rows :: k in l' && !Refreshable(l'[k])
  }

  lemma OrderedRows(rows: set<Key>)
    ensures SetOf(Ordered(rows)) == rows
  {
  }

  /** No failed run is the newest of the job. */
  predicate NothingToResume(runs: seq<Run>, name: string) {
    match LatestRun(runs, Discovery(name))
    case None => true
    case Some(run) => run.status != RunStatus.Failed
  }

  /** One run over a list: its first page, the page it records when it fails, and the page before
      which all rows are committed. */
  datatype ListRun = ListRun(page: nat, resume: nat, end: nat, finished: bool)

  predicate IsRunOf(p: ListRun, list: seq<ListPage>, maxPages: Option<nat>) {
    var last := LastPage(list, maxPages, p.page);
    p.page <= p.resume <= p.end <= p.resume + 1 && p.end <= last + 1 &&
    if p.finished then p.resume == last + 1 else p.resume <= last
  }

  function RowsOf(p: ListRun, list: seq<ListPage>, resources: set<Resource>): set<Key> {
    RowsIn(list, resources, p.page, p.end)
  }

  /** Whenever the list is run again, it starts within the pages up to `reached`. */
  ghost predicate ResumesWithin(runs: seq<Run>, name: string, reached: nat, last: nat) {
    1 <= reached <= last + 1 &&
    forall now :: 1 <= ResumePage(runs, Discovery(name), now) <= Min(reached, last)
  }

  lemma StartsAfresh(runs: seq<Run>, name: string, last: nat)
    requires NothingToResume(runs, name) && 1 <= last
    ensures ResumesWithin(runs, name, 1, last)
  {
  }

  /** A run of one list does not move the place where another list goes on. */
  lemma OtherListStays(runs: seq<Run>, name: string, other: string, run: Run, reached: nat, last: nat)
    requires name != other && run.job == Discovery(name)
    ensures forall now :: ResumePage(runs + [run], Discovery(other), now) == ResumePage(runs, Discovery(other), now)
    ensures ResumesWithin(runs, other, reached, last) ==> ResumesWithin(runs + [run], other, reached, last)
  {
  }

  /** A list that is run again goes on within, or right after, the pages reached before. */
  lemma ListGoesOn(before: seq<Run>, name: string, list: seq<ListPage>, resources: set<Resource>, maxPages: Option<nat>,
                   now: int, recorded: bool, p: ListRun, reached: nat, last: nat, after: seq<Run>)
    requires last == LastPage(list, maxPages, 1) && ResumesWithin(before, name, reached, last)
    requires p.page == ResumePage(before, Discovery(name), now) && IsRunOf(p, list, maxPages)
    requires after == before + [RunRow(name, now, p.resume, p.finished, recorded)]
    ensures ResumesWithin(after, name, Max(reached, p.end), last)
    ensures RowsIn(list, resources, 1, reached) + RowsOf(p, list, resources)
         == RowsIn(list, resources, 1, Max(reached, p.end))
    ensures p.finished ==> Max(reached, p.end) == last + 1
  {
    SameEnd(list, maxPages, 1, p.page);
    RowsOverlap(list, resources, 1, p.page, reached, p.end);
    ResumesAt(before, name, now, p.resume, p.finished, recorded);
  }

  // --- the weekly refresh ---------------------------------------------------------------------------

  /** When a weekly refresh runs, what goes wrong, and whether the two list runs can be recorded. */
  datatype WeekPlan = WeekPlan(now: int, airingFaults: seq<PageFault>, upcomingFaults: seq<PageFault>,
    commit: CommitFault, airingRecorded: bool, upcomingRecorded: bool)

  predicate NothingFails(plan: WeekPlan) {
    plan.airingFaults == [] && plan.upcomingFaults == [] && plan.commit.NoFault?
  }

  /** The lists and anime of a week. */
  datatype Tier = Tier(airing: seq<ListPage>, upcoming: seq<ListPage>, active: set<int>, resources: set<Resource>)

  function ActiveTasks(tier: Tier): set<Key> { TasksOf(tier.active, tier.resources) }

  /** A weekly refresh: the run over each list, and whether the tasks of the active anime were reset. */
  datatype Week = Week(airing: ListRun, upcoming: Option<ListRun>, active: bool)

  predicate IsWeekOf(w: Week, tier: Tier, runs: seq<Run>, now: int) {
    w.airing.page == ResumePage(runs, Discovery(AIRING), now) && IsRunOf(w.airing, tier.airing, None) &&
    (w.upcoming.Some? ==>
      w.airing.finished && w.upcoming.value.page == ResumePage(runs, Discovery(UPCOMING), now) &&
      IsRunOf(w.upcoming.value, tier.upcoming, None)) &&
    (w.active ==> w.upcoming.Some? && w.upcoming.value.finished)
  }

  function WeekRows(w: Week, tier: Tier): set<Key> {
    RowsOf(w.airing, tier.airing, tier.resources) +
    (if w.upcoming.Some? then RowsOf(w.upcoming.value, tier.upcoming, tier.resources) else {}) +
    if w.active then ActiveTasks(tier) else {}
  }

  function RunsAfterWeek(runs: seq<Run>, w: Week, plan: WeekPlan): seq<Run> {
    runs + [RunRow(AIRING, plan.now, w.airing.resume, w.airing.finished, plan.airingRecorded)] +
    if w.upcoming.None? then []
    else [RunRow(UPCOMING, plan.now, w.upcoming.value.resume, w.upcoming.value.finished, plan.upcomingRecorded)]
  }

  /** The rows of both lists from their saved pages on, and the active anime. */
  function RestOfTier(tier: Tier, runs: seq<Run>, now: int): set<Key> {
    RestOf(tier.airing, tier.resources, None, ResumePage(runs, Discovery(AIRING), now)) +
    RestOf(tier.upcoming, tier.resources, None, ResumePage(runs, Discovery(UPCOMING), now)) + ActiveTasks(tier)
  }

  lemma WholeWeek(w: Week, tier: Tier, runs: seq<Run>, now: int, l: Tasks, l': Tasks)
    requires IsWeekOf(w, tier, runs, now) && w.active && l' == InsertedOrReset(l, WeekRows(w, tier))
    ensures AllFresh(l, l', RestOfTier(tier, runs, now))
  {
    NothingListedIsDone(l, WeekRows(w, tier));
  }

  /** The second list is run after the first. */
  lemma UpcomingToo(w: Week, w': Week, tier: Tier, runs: seq<Run>, middle: seq<Run>, after: seq<Run>, plan: WeekPlan,
                    b: ListRun, l: Tasks, l1: Tasks, l2: Tasks)
    requires IsWeekOf(w, tier, runs, plan.now) && w == Week(w.airing, None, false) && w.airing.finished
    requires middle == RunsAfterWeek(runs, w, plan) && b.page == ResumePage(middle, Discovery(UPCOMING), plan.now)
    requires IsRunOf(b, tier.upcoming, None) && w' == w.(upcoming := Some(b))
    requires after == middle + [RunRow(UPCOMING, plan.now, b.resume, b.finished, plan.upcomingRecorded)]
    requires l1 == InsertedOrReset(l, WeekRows(w, tier))
    requires l2 == InsertedOrReset(l1, RowsOf(b, tier.upcoming, tier.resources))
    ensures IsWeekOf(w', tier, runs, plan.now) && after == RunsAfterWeek(runs, w', plan)
    ensures l2 == InsertedOrReset(l, WeekRows(w', tier))
  {
    assert middle == runs + [RunRow(AIRING, plan.now, w.airing.resume, w.airing.finished, plan.airingRecorded)];
    OtherListStays(runs, AIRING, UPCOMING, middle[|runs|], 1, 1);
    ResetsCompose(l, WeekRows(w, tier), RowsOf(b, tier.upcoming, tier.resources));
    assert WeekRows(w', tier) == WeekRows(w, tier) + RowsOf(b, tier.upcoming, tier.resources);
  }

  /** The tasks of the active anime are reset after the lists. */
  lemma ActiveToo(w: Week, w': Week, tier: Tier, runs: seq<Run>, plan: WeekPlan, l: Tasks, l1: Tasks, l2: Tasks)
    requires IsWeekOf(w, tier, runs, plan.now) && !w.active && w.upcoming.Some? && w.upcoming.value.finished
    requires l1 == InsertedOrReset(l, WeekRows(w, tier)) && l2 == InsertedOrReset(l1, ActiveTasks(tier))
    requires w' == w.(active := true)
    ensures IsWeekOf(w', tier, runs, plan.now) && RunsAfterWeek(runs, w', plan) == RunsAfterWeek(runs, w, plan)
    ensures l2 == InsertedOrReset(l, WeekRows(w', tier)) && AllFresh(l, l2, RestOfTier(tier, runs, plan.now))
  {
    ResetsCompose(l, WeekRows(w, tier), ActiveTasks(tier));
    assert WeekRows(w', tier) == WeekRows(w, tier) + ActiveTasks(tier);
    WholeWeek(w', tier, runs, plan.now, l, l2);
  }

  /** How far a series of weekly refreshes has come. */
  datatype Reached = Reached(airing: nat, upcoming: nat, active: bool)

  function ReachedRows(r: Reached, tier: Tier): set<Key> {
    RowsIn(tier.airing, tier.resources, 1, r.airing) + RowsIn(tier.upcoming, tier.resources, 1, r.upcoming) +
    if r.active then ActiveTasks(tier) else {}
  }

  /** Every page of both lists, and the active anime. */
  function WholeTier(tier: Tier): set<Key> {
    RestOf(tier.airing, tier.resources, None, 1) + RestOf(tier.upcoming, tier.resources, None, 1) + ActiveTasks(tier)
  }

  /** What that is: the tasks asked for of the active anime, and of every anime some page of a list, up
      to the list's end, has an entry for. */
  lemma WhatAWeekRefreshes(tier: Tier, k: Key)
    ensures k in WholeTier(tier) <==>
      k.resource in tier.resources &&
      (k.malId in tier.active || IsOnList(tier.airing, k.malId) || IsOnList(tier.upcoming, k.malId))
  {
    WhatIsListed(tier.airing, tier.resources, 1, LastPage(tier.airing, None, 1) + 1, k);
    WhatIsListed(tier.upcoming, tier.resources, 1, LastPage(tier.upcoming, None, 1) + 1, k);
  }

  predicate IsOnList(list: seq<ListPage>, id: int) {
    id > 0 && exists p: nat :: 1 <= p <= LastPage(list, None, 1) && IsOnPage(list, p, id)
  }

  ghost predicate WeeksGoOn(r: Reached, tier: Tier, runs: seq<Run>) {
    ResumesWithin(runs, AIRING, r.airing, LastPage(tier.airing, None, 1)) &&
    ResumesWithin(runs, UPCOMING, r.upcoming, LastPage(tier.upcoming, None, 1))
  }

  function ReachedAfter(r: Reached, w: Week): Reached {
    Reached(Max(r.airing, w.airing.end), if w.upcoming.Some? then Max(r.upcoming, w.upcoming.value.end) else r.upcoming,
      r.active || w.active)
  }

  lemma AiringGoesOn(r: Reached, tier: Tier, runs: seq<Run>, plan: WeekPlan, p: ListRun, after: seq<Run>, r': Reached)
    requires WeeksGoOn(r, tier, runs) && r' == r.(airing := Max(r.airing, p.end))
    requires p.page == ResumePage(runs, Discovery(AIRING), plan.now) && IsRunOf(p, tier.airing, None)
    requires after == runs + [RunRow(AIRING, plan.now, p.resume, p.finished, plan.airingRecorded)]
    ensures WeeksGoOn(r', tier, after)
    ensures ReachedRows(r, tier) + RowsOf(p, tier.airing, tier.resources) == ReachedRows(r', tier)
    ensures p.finished ==> r'.airing == LastPage(tier.airing, None, 1) + 1
    ensures forall now :: ResumePage(after, Discovery(UPCOMING), now) == ResumePage(runs, Discovery(UPCOMING), now)
  {
    ListGoesOn(runs, AIRING, tier.airing, tier.resources, None, plan.now, plan.airingRecorded, p, r.airing,
      LastPage(tier.airing, None, 1), after);
    OtherListStays(runs, AIRING, UPCOMING, after[|runs|], r.upcoming, LastPage(tier.upcoming, None, 1));
  }

  lemma UpcomingGoesOn(r: Reached, tier: Tier, runs: seq<Run>, plan: WeekPlan, p: ListRun, after: seq<Run>, r': Reached)
    requires WeeksGoOn(r, tier, runs) && r' == r.(upcoming := Max(r.upcoming, p.end))
    requires p.page == ResumePage(runs, Discovery(UPCOMING), plan.now) && IsRunOf(p, tier.upcoming, None)
    requires after == runs + [RunRow(UPCOMING, plan.now, p.resume, p.finished, plan.upcomingRecorded)]
    ensures WeeksGoOn(r', tier, after)
    ensures ReachedRows(r, tier) + RowsOf(p, tier.upcoming, tier.resources) == ReachedRows(r', tier)
    ensures p.finished ==> r'.upcoming == LastPage(tier.upcoming, None, 1) + 1
  {
    ListGoesOn(runs, UPCOMING, tier.upcoming, tier.resources, None, plan.now, plan.upcomingRecorded, p, r.upcoming,
      LastPage(tier.upcoming, None, 1), after);
    OtherListStays(runs, UPCOMING, AIRING, after[|runs|], r.airing, LastPage(tier.airing, None, 1));
  }

  lemma TierIsReached(r: Reached, tier: Tier)
    requires r.active && r.airing == LastPage(tier.airing, None, 1) + 1
    requires r.upcoming == LastPage(tier.upcoming, None, 1) + 1
    ensures ReachedRows(r, tier) == WholeTier(tier)
  {
  }

  lemma Joined<T>(a: set<T>, b: set<T>, c: set<T>, ab: set<T>, bc: set<T>)
    requires a + b == ab && bc == b + c
    ensures a + bc == ab + c
  {
  }

  lemma ActiveJoins(r: Reached, r': Reached, tier: Tier, listed: Reached, w: Week, lists: set<Key>)
    requires ReachedRows(r, tier) + lists == ReachedRows(listed, tier)
    requires WeekRows(w, tier) == lists + (if w.active then ActiveTasks(tier) else {})
    requires r' == listed.(active := listed.active || w.active)
    ensures ReachedRows(r, tier) + WeekRows(w, tier) == ReachedRows(r', tier)
  {
    var active: set<Key> := if w.active then ActiveTasks(tier) else {};
    assert ReachedRows(r', tier) == ReachedRows(listed, tier) + active;
    Joined(ReachedRows(r, tier), lists, active, ReachedRows(listed, tier), WeekRows(w, tier));
  }

  /** One more weekly refresh: the rows it lists join those reached before. */
  lemma WeekGoesOn(r: Reached, tier: Tier, runs: seq<Run>, plan: WeekPlan, w: Week)
    requires WeeksGoOn(r, tier, runs) && IsWeekOf(w, tier, runs, plan.now)
    ensures WeeksGoOn(ReachedAfter(r, w), tier, RunsAfterWeek(runs, w, plan))
    ensures ReachedRows(r, tier) + WeekRows(w, tier) == ReachedRows(ReachedAfter(r, w), tier)
    ensures w.active ==> ReachedRows(ReachedAfter(r, w), tier) == WholeTier(tier)
  {
    var middle := runs + [RunRow(AIRING, plan.now, w.airing.resume, w.airing.finished, plan.airingRecorded)];
    var a, r1 := RowsOf(w.airing, tier.airing, tier.resources), r.(airing := Max(r.airing, w.airing.end));
    AiringGoesOn(r, tier, runs, plan, w.airing, middle, r1);
    if w.upcoming.None? {
      assert RunsAfterWeek(runs, w, plan) == middle;
      ActiveJoins(r, ReachedAfter(r, w), tier, r1, w, a);
    } else {
      var r2 := r1.(upcoming := Max(r.upcoming, w.upcoming.value.end));
      UpcomingGoesOn(r1, tier, middle, plan, w.upcoming.value, RunsAfterWeek(runs, w, plan), r2);
      ActiveJoins(r, ReachedAfter(r, w), tier, r2, w, a + RowsOf(w.upcoming.value, tier.upcoming, tier.resources));
      if w.active { TierIsReached(ReachedAfter(r, w), tier); }
    }
  }

  class DiscoveryJob {
    const tasks: TaskRepository
    const metrics: MetricsRepository
    var summary: Totals

    constructor (tasks: TaskRepository, metrics: MetricsRepository)
      ensures this.tasks == tasks && this.metrics == metrics
    {
      this.tasks, this.metrics := tasks, metrics;
      summary := NO_TOTALS;
    }

    predicate Ready()
      reads this, tasks, tasks.db
    {
      tasks.db.saved == tasks.db.work
    }

    /** The rows of one page, each once. */
    method CollectRows(p: ListPage, resources: set<Resource>) returns (rows: set<Key>)
      modifies this`summary
      ensures rows == PageRows(p, resources) && summary == Collected(old(summary), p)
    {
      rows := {};
      for i := 0 to |p.data|
        invariant rows == set j, r | 0 <= j < i && r in resources && IsUsable(p.data[j]) ::
          Key(p.data[j].malId.value, r)
        invariant summary == Collected(old(summary), ListPage(p.data[..i], p.hasNext))
      {
        var e := p.data[i];
        assert p.data[..i + 1][..i] == p.data[..i];
        summary := summary.(animeSeen := summary.animeSeen + 1);
        if e.malId.None? || e.malId.value <= 0 {
          summary := summary.(animeSkipped := summary.animeSkipped + 1);
        } else if e.excludedType {
          summary := summary.(skippedType := summary.skippedType + 1);
        } else {
          rows := rows + set r | r in resources :: Key(e.malId.value, r);
        }
      }
      assert p.data[..|p.data|] == p.data;
    }

    function State(): Progress
      reads this, tasks, tasks.db
    {
      Progress(tasks.db.saved.tasks, summary)
    }

    /** One page: list it, write its tasks, commit. Of a page that fails no task is counted. */
    method OnePage(p: ListPage, resources: set<Resource>, resetExisting: bool, fault: PageFault) returns (ok: bool)
      requires Ready()
      modifies tasks.db, this`summary
      ensures Ready() && tasks.db.saved.index == old(tasks.db.saved.index) && ok == fault.NoPageFault?
      ensures ok ==> State() == PageStep(old(State()), p, resources, resetExisting)
      ensures !ok ==> summary == old(summary) || summary == Collected(old(summary), p)
      ensures !ok && fault.CommitIsUnanswered? ==>
        tasks.db.saved.tasks == PageStep(old(State()), p, resources, resetExisting).tasks
      ensures !ok && !fault.CommitIsUnanswered? ==> tasks.db.saved.tasks == old(tasks.db.saved.tasks)
    {
      if fault.ListFails? { return false; }
      ghost var before := State();
      var rows := CollectRows(p, resources);
      if fault.WriteFails? { return false; }
      ghost var collected := summary;
      var inserted, reset := WriteTasks(rows, resetExisting);
      PageAdded(before, p, resources, resetExisting, rows, collected, inserted, reset);
      ok := tasks.db.Commit(
        if fault.CommitIsRefused? then CommitRefused
        else if fault.CommitIsUnanswered? then CommitUnanswered
        else CommitFault.NoFault);
      if ok { summary := Added(summary, |rows|, inserted, reset, resetExisting); }
    }

    /** The tasks of one page, not yet committed, and the two counts. */
    method WriteTasks(rows: set<Key>, resetExisting: bool) returns (inserted: nat, reset: nat)
      modifies tasks.db
      ensures tasks.db.saved == old(tasks.db.saved)
      ensures tasks.db.work
           == old(tasks.db.work).(tasks := Effect(old(tasks.db.work.tasks), rows, resetExisting))
      ensures inserted == |Missing(old(tasks.db.work.tasks), rows)|
      ensures reset == if resetExisting then |ToReset(old(tasks.db.work.tasks), rows)| else 0
      ensures inserted + reset <= |rows|
      ensures resetExisting ==> |rows| - inserted - reset == |Untouched(old(tasks.db.work.tasks), rows)|
    {
      RowsPartition(tasks.db.work.tasks, rows);
      if resetExisting {
        inserted, reset := tasks.InsertOrResetTasks(rows);
      } else {
        inserted := tasks.InsertTasks(rows);
        reset := 0;
      }
    }

    /** Page `current` of a run. Of a page that fails the rows before `end` are committed. */
    method PageOfRun(list: seq<ListPage>, resources: set<Resource>, resetExisting: bool, page: nat, current: nat,
                     fault: PageFault, ghost l: Tasks)
      returns (ok: bool, ghost end: nat)
      requires Ready() && page <= current
      requires State() == AfterPages(l, list, resources, page, current, resetExisting)
      modifies tasks.db, this`summary
      ensures Ready() && tasks.db.saved.index == old(tasks.db.saved.index) && ok == fault.NoPageFault?
      ensures ok ==> State() == AfterPages(l, list, resources, page, current + 1, resetExisting)
      ensures !ok ==> current <= end <= current + 1
      ensures !ok ==> tasks.db.saved.tasks == AfterPages(l, list, resources, page, end, resetExisting).tasks
      ensures !ok ==> SameCounts(summary, AfterPages(l, list, resources, page, current, resetExisting).totals)
    {
      OnePageMore(l, list, resources, page, current, resetExisting);
      ok := OnePage(PageAt(list, current), resources, resetExisting, fault);
      end := if fault.CommitIsUnanswered? then current + 1 else current;
    }

    /** The paging loop. It ends at page `current`: the first that is not known to be committed, or
        the one after the last. Rows of the pages before `end` are committed. */
    method PageLoop(page: nat, list: seq<ListPage>, resources: set<Resource>, resetExisting: bool,
                    maxPages: Option<nat>, faults: seq<PageFault>, ghost last: nat)
      returns (finished: bool, current: nat, ghost end: nat)
      requires Ready() && last == LastPage(list, maxPages, page) && summary == NO_TOTALS
      modifies tasks.db, this`summary
      ensures Ready() && tasks.db.saved.index == old(tasks.db.saved.index)
      ensures page <= current <= end <= current + 1 && end <= last + 1
      ensures if finished then current == last + 1 else current <= last
      ensures (forall n | 0 <= n < |faults| :: faults[n].NoPageFault?) ==> finished
      ensures tasks.db.saved.tasks
           == AfterPages(old(tasks.db.saved.tasks), list, resources, page, end, resetExisting).tasks
      ensures SameCounts(summary,
        AfterPages(old(tasks.db.saved.tasks), list, resources, page, current, resetExisting).totals)
    {
      ghost var l := tasks.db.saved.tasks;
      current := page;
      var hasNext := true;
      while hasNext
        invariant Ready() && tasks.db.saved.index == old(tasks.db.saved.index)
        invariant page <= current && if hasNext then current <= last else current == last + 1
        invariant State() == AfterPages(l, list, resources, page, current, resetExisting)
        decreases last + 1 - current
      {
        var ok;
        ok, end := PageOfRun(list, resources, resetExisting, page, current, FaultAt(faults, current - page), l);
        if !ok { return false, current, end; }
        assert current < last ==> !IsLast(list, maxPages, current);
        hasNext := PageAt(list, current).hasNext &&
          !(maxPages.Some? && maxPages.value > 0 && current >= maxPages.value);
        current := current + 1;
      }
      return true, current, current;
    }

    /** `_run`: page after page from `page` on, recorded under `name`. A failed run records the first
        page that is not known to be committed. */
    method RunPages(name: string, page: nat, list: seq<ListPage>, resources: set<Resource>, resetExisting: bool,
                    maxPages: Option<nat>, now: int, faults: seq<PageFault>, recorded: bool)
      returns (finished: bool, resume: nat, ghost end: nat)
      requires Ready()
      modifies tasks.db, metrics, this`summary
      ensures Ready() && tasks.db.saved.index == old(tasks.db.saved.index)
      ensures page <= resume <= end <= resume + 1 && end <= LastPage(list, maxPages, page) + 1
      ensures if finished
        then resume == LastPage(list, maxPages, page) + 1
        else resume <= LastPage(list, maxPages, page)
      ensures (forall n | 0 <= n < |faults| :: faults[n].NoPageFault?) ==> finished
      ensures tasks.db.saved.tasks
           == Effect(old(tasks.db.saved.tasks), RowsIn(list, resources, page, end), resetExisting)
      ensures TotalsOf(summary, old(tasks.db.saved.tasks), list, resources, page, resume, resetExisting)
      ensures metrics.runs == old(metrics.runs) + [RunRow(name, now, resume, finished, recorded)]
    {
      var run := metrics.StartRun(Discovery(name), now);
      summary := NO_TOTALS;
      ghost var l := tasks.db.saved.tasks;
      finished, resume, end :=
        PageLoop(page, list, resources, resetExisting, maxPages, faults, LastPage(list, maxPages, page));
      PagesAreOneStep(l, tasks.db.saved.tasks, summary, list, resources, page, resume, end, resetExisting);
      if recorded {
        metrics.FinishRun(run, if finished then Succeeded else RunStatus.Failed,
          Summary(None, None, if finished then None else Some(resume)));
      }
    }

    /** A list that is run again after every failure, from the page `_resume_page` gives: whatever
        failed, the ledger is that of one uninterrupted run over the pages reached, and at the end
        over all of them. */
    method RunWithRestarts(name: string, list: seq<ListPage>, resources: set<Resource>, resetExisting: bool,
                           maxPages: Option<nat>, plans: seq<Plan>)
      returns (finished: bool, ghost reached: nat)
      requires Ready() && NothingToResume(metrics.runs, name)
      modifies tasks.db, metrics, this`summary
      ensures Ready() && 1 <= reached <= LastPage(list, maxPages, 1) + 1
      ensures tasks.db.saved.tasks
           == Effect(old(tasks.db.saved.tasks), RowsIn(list, resources, 1, reached), resetExisting)
      ensures finished ==> reached == LastPage(list, maxPages, 1) + 1
      ensures finished && resetExisting ==> forall k | k in RowsIn(list, resources, 1, reached) ::
        k in tasks.db.saved.tasks && !tasks.db.saved.tasks[k].status.Done? && !tasks.db.saved.tasks[k].status.Failed?
    {
      ghost var l, last := tasks.db.saved.tasks, LastPage(list, maxPages, 1);
      NoEffect(l, resetExisting);
      StartsAfresh(metrics.runs, name, last);
      finished, reached := false, 1;
      for i := 0 to |plans|
        invariant Ready() && ResumesWithin(metrics.runs, name, reached, last)
        invariant tasks.db.saved.tasks == Effect(l, RowsIn(list, resources, 1, reached), resetExisting)
        invariant finished ==> reached == last + 1
      {
        if !finished {
          ghost var before, rows := metrics.runs, RowsIn(list, resources, 1, reached);
          ghost var p;
          finished, p := RunList(name, list, resources, resetExisting, maxPages, plans[i].now, plans[i].faults,
            plans[i].recorded);
          EffectsCompose(l, rows, RowsOf(p, list, resources), resetExisting);
          ListGoesOn(before, name, list, resources, maxPages, plans[i].now, plans[i].recorded, p, reached, last,
            metrics.runs);
          reached := Max(reached, p.end);
        }
      }
      if resetExisting { NothingListedIsDone(l, RowsIn(list, resources, 1, reached)); }
    }

    /** `_reset_active_from_catalogue`: the tasks of the given anime, `chunk` rows a statement, then one
        commit. */
    method ResetActiveFromCatalogue(rows: seq<Key>, chunk: nat, fault: CommitFault)
      returns (ok: bool, inserted: nat, reset: nat)
      requires Ready() && chunk > 0
      modifies tasks.db
      ensures Ready() && tasks.db.saved.index == old(tasks.db.saved.index) && ok == fault.NoFault?
      ensures tasks.db.saved.tasks
           == if fault.CommitRefused? then old(tasks.db.saved.tasks)
              else InsertedOrReset(old(tasks.db.saved.tasks), SetOf(rows))
      ensures inserted == |Missing(old(tasks.db.saved.tasks), SetOf(rows))|
      ensures reset == |ToReset(old(tasks.db.saved.tasks), SetOf(rows))|
    {
      inserted, reset := 0, 0;
      ghost var l := tasks.db.saved.tasks;
      ghost var done: set<Key> := {};
      NoEffect(l, true);
      var start := 0;
      while start < |rows|
        invariant 0 <= start <= |rows| && done == SetOf(rows[..start])
        invariant tasks.db.saved == old(tasks.db.saved)
        invariant tasks.db.work == tasks.db.saved.(tasks := InsertedOrReset(l, done))
        invariant inserted == |Missing(l, done)| && reset == |ToReset(l, done)|
      {
        var end := if |rows| - start <= chunk then |rows| else start + chunk;
        var statement := SetOf(rows[start..end]);
        CountsCompose(l, done, statement);
        ResetsCompose(l, done, statement);
        var added, again := tasks.InsertOrResetTasks(statement);
        inserted, reset := inserted + added, reset + again;
        MoreRows(rows, start, end);
        done, start := done + statement, end;
      }
      assert rows[..start] == rows;
      ok := tasks.db.Commit(fault);
    }

    /** One list, from its saved page, recorded under its own name. */
    method RunList(name: string, list: seq<ListPage>, resources: set<Resource>, resetExisting: bool,
                   maxPages: Option<nat>, now: int, faults: seq<PageFault>, recorded: bool)
      returns (finished: bool, ghost p: ListRun)
      requires Ready()
      modifies tasks.db, metrics, this`summary
      ensures Ready() && (faults == [] ==> finished) && p.finished == finished
      ensures p.page == ResumePage(old(metrics.runs), Discovery(name), now) && IsRunOf(p, list, maxPages)
      ensures tasks.db.saved.tasks == Effect(old(tasks.db.saved.tasks), RowsOf(p, list, resources), resetExisting)
      ensures metrics.runs == old(metrics.runs) + [RunRow(name, now, p.resume, finished, recorded)]
    {
      var start := ResumePage(metrics.runs, Discovery(name), now);
      var resume;
      ghost var end;
      finished, resume, end := RunPages(name, start, list, resources, resetExisting, maxPages, now, faults, recorded);
      p := ListRun(start, resume, end, finished);
    }

    /** The two lists of a weekly refresh; the second only after the first has finished. */
    method RunLists(tier: Tier, plan: WeekPlan) returns (finished: bool, ghost w: Week)
      requires Ready()
      modifies tasks.db, metrics, this`summary
      ensures Ready() && (NothingFails(plan) ==> finished) && IsWeekOf(w, tier, old(metrics.runs), plan.now)
      ensures !w.active && (finished ==> w.upcoming.Some? && w.upcoming.value.finished)
      ensures tasks.db.saved.tasks == InsertedOrReset(old(tasks.db.saved.tasks), WeekRows(w, tier))
      ensures metrics.runs == RunsAfterWeek(old(metrics.runs), w, plan)
    {
      ghost var l, runs := tasks.db.saved.tasks, metrics.runs;
      ghost var a, b;
      finished, a := RunList(AIRING, tier.airing, tier.resources, true, None, plan.now, plan.airingFaults,
        plan.airingRecorded);
      w := Week(a, None, false);
      if !finished { return; }
      ghost var airing, middle := tasks.db.saved.tasks, metrics.runs;
      finished, b := RunList(UPCOMING, tier.upcoming, tier.resources, true, None, plan.now, plan.upcomingFaults,
        plan.upcomingRecorded);
      UpcomingToo(w, Week(a, Some(b), false), tier, runs, middle, metrics.runs, plan, b, l, airing,
        tasks.db.saved.tasks);
      w := Week(a, Some(b), false);
    }

    /** `run_job_weekly`: the two lists, each from its own saved page, then the anime the catalogue
        holds as active. Whatever fails, the ledger is that of one reset of the rows that were reached;
        when nothing fails, these are all rows from the saved pages on. */
    method RunJobWeekly(tier: Tier, plan: WeekPlan) returns (finished: bool, ghost w: Week)
      requires Ready()
      modifies tasks.db, metrics, this`summary
      ensures Ready() && (NothingFails(plan) ==> finished) && IsWeekOf(w, tier, old(metrics.runs), plan.now)
      ensures tasks.db.saved.tasks == InsertedOrReset(old(tasks.db.saved.tasks), WeekRows(w, tier))
      ensures metrics.runs == RunsAfterWeek(old(metrics.runs), w, plan)
      ensures finished ==> w.active
      ensures finished ==>
        AllFresh(old(tasks.db.saved.tasks), tasks.db.saved.tasks, RestOfTier(tier, old(metrics.runs), plan.now))
    {
      ghost var l, runs := tasks.db.saved.tasks, metrics.runs;
      finished, w := RunLists(tier, plan);
      if !finished { return; }
      ghost var listed := tasks.db.saved.tasks;
      var active := Ordered(ActiveTasks(tier));
      OrderedRows(ActiveTasks(tier));
      var inserted, reset;
      finished, inserted, reset := ResetActiveFromCatalogue(active, TASKS_PER_STATEMENT, plan.commit);
      if !plan.commit.CommitRefused? {
        ActiveToo(w, w.(active := true), tier, runs, plan, l, listed, tasks.db.saved.tasks);
        w := w.(active := true);
      }
    }

    /** What a series of weekly refreshes has come to. */
    ghost predicate SeriesIs(l: Tasks, r: Reached, tier: Tier)
      reads tasks.db, metrics
    {
      tasks.db.saved.tasks == InsertedOrReset(l, ReachedRows(r, tier)) && WeeksGoOn(r, tier, metrics.runs)
    }

    method OneMoreWeek(tier: Tier, plan: WeekPlan, ghost l: Tasks, ghost r: Reached)
      returns (finished: bool, ghost r': Reached)
      requires Ready() && SeriesIs(l, r, tier)
      modifies tasks.db, metrics, this`summary
      ensures Ready() && SeriesIs(l, r', tier) && (NothingFails(plan) ==> finished)
      ensures finished ==> ReachedRows(r', tier) == WholeTier(tier)
    {
      ghost var runs := metrics.runs;
      ghost var w;
      finished, w := RunJobWeekly(tier, plan);
      ResetsCompose(l, ReachedRows(r, tier), WeekRows(w, tier));
      WeekGoesOn(r, tier, runs, plan, w);
      r' := ReachedAfter(r, w);
    }

    /** The weekly refresh, run again after every failure before any worker runs: whatever failed and
        however often, at the end every task of the two whole lists and of the active anime is pending,
        dead or gone. */
    method RunWeeklyWithRestarts(tier: Tier, plans: seq<WeekPlan>) returns (finished: bool, ghost r: Reached)
      requires Ready() && NothingToResume(metrics.runs, AIRING) && NothingToResume(metrics.runs, UPCOMING)
      modifies tasks.db, metrics, this`summary
      ensures Ready() && tasks.db.saved.tasks == InsertedOrReset(old(tasks.db.saved.tasks), ReachedRows(r, tier))
      ensures finished ==> AllFresh(old(tasks.db.saved.tasks), tasks.db.saved.tasks, WholeTier(tier))
      ensures (exists i :: 0 <= i < |plans| && NothingFails(plans[i])) ==> finished
    {
      ghost var l := tasks.db.saved.tasks;
      StartsAfresh(metrics.runs, AIRING, LastPage(tier.airing, None, 1));
      StartsAfresh(metrics.runs, UPCOMING, LastPage(tier.upcoming, None, 1));
      NoEffect(l, true);
      finished, r := false, Reached(1, 1, false);
      for i := 0 to |plans|
        invariant Ready() && SeriesIs(l, r, tier)
        invariant finished ==> ReachedRows(r, tier) == WholeTier(tier)
        invariant (exists j :: 0 <= j < i && NothingFails(plans[j])) ==> finished
      {
        if !finished {
          finished, r := OneMoreWeek(tier, plans[i], l, r);
        }
      }
      NothingListedIsDone(l, ReachedRows(r, tier));
    }
  }
}
