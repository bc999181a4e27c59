/** What an incremental clean run may take as cleaned: every history of fetches and of succeeded,
    failed, lost and resumed clean runs (app/ingestion/jobs/clean_raw_job.py, refresh.py and
    one_pass.py of app/ingestion/run_scripts, app/ingestion/repository/metrics_repository.py). */
module Watermark {
  import opened Base
  import opened RawIndex
  import opened RunHistory

  /** The index, the row versions some committed batch has read, and the run history. */
  datatype World = World(now: int, index: Index, visited: set<(Key, int)>, runs: seq<Run>)

  /** How a clean run is started: one_pass.py --fresh, one_pass.py, refresh.py. */
  datatype Start = Fresh | FullPass | Refresh

  datatype Ending = Succeeds | Fails | IsLost

  /** Fetching overwrites index rows. A clean run commits the first `committed` of its rows, and
      records the place after the first `resume` of them; a lost one records nothing. */
  datatype Event =
    | Fetch(sizes: map<Key, nat>)
    | Clean(start: Start, committed: nat, resume: nat, ending: Ending)
    | OtherRun(run: Run)

  function CutOff(w: World, start: Start): Option<int> {
    if start.Refresh? then LastSucceededStart(w.runs, Cleaning) else None
  }

  function StartCursor(w: World, start: Start, at: int): Option<Key> {
    match start
    case Fresh => None
    case FullPass => SavedPositions(w.runs, Cleaning).1
    case Refresh => CleanResumeCursor(w.runs, at)
  }

  function RowsOf(w: World, start: Start, at: int): seq<Key> {
    Pending(w.index, CutOff(w, start), StartCursor(w, start, at))
  }

  predicate Possible(w: World, e: Event, at: int) {
    w.now < at &&
    match e
    case Fetch(_) => true
    case OtherRun(run) => run.job != Cleaning
    case Clean(start, committed, resume, ending) =>
      resume <= committed <= |RowsOf(w, start, at)| && (ending.Succeeds? ==> committed == |RowsOf(w, start, at)|)
  }

  function Versions(index: Index, keys: seq<Key>): set<(Key, int)> {
    set k | k in keys && k in index :: (k, index[k].fetchedAt)
  }

  function CursorAfter(rows: seq<Key>, resume: nat, start: Option<Key>): Option<Key>
    requires resume <= |rows|
  {
    if resume == 0 then start else Some(rows[resume - 1])
  }

  function RunOf(w: World, start: Start, resume: nat, ending: Ending, at: int): Run
    requires resume <= |RowsOf(w, start, at)|
  {
    CleanRunRow(at, CutOff(w, start), CursorAfter(RowsOf(w, start, at), resume, StartCursor(w, start, at)),
      ending.Succeeds?, !ending.IsLost?)
  }

  function After(w: World, e: Event, at: int): World
    requires Possible(w, e, at)
  {
    match e
    case Fetch(sizes) =>
      w.(now := at, index := w.index + map k | k in sizes :: IndexRow(sizes[k], at))
    case OtherRun(run) =>
      w.(now := at, runs := w.runs + [run])
    case Clean(start, committed, resume, ending) =>
      w.(now := at,
         visited := w.visited + Versions(w.index, RowsOf(w, start, at)[..committed]),
         runs := w.runs + [RunOf(w, start, resume, ending, at)])
  }

  // --- what holds in every reachable world --------------------------------------------------------

  predicate Visited(w: World, k: Key)
    requires k in w.index
  {
    (k, w.index[k].fetchedAt) in w.visited
  }

  /** Everything fetched before the newest succeeded run began was read by some committed batch. */
  predicate Covered(w: World) {
    var since := LastSucceededStart(w.runs, Cleaning);
    since.Some? ==> forall k | k in w.index && w.index[k].fetchedAt < since.value :: Visited(w, k)
  }

  /** The cursor a failed run left, and when that run began. */
  function SavedCursor(w: World): Option<(Key, int)> {
    match LatestRun(w.runs, Cleaning)
    case Some(Run(_, Failed, startedAt, Some(Summary(_, Some(after), _)))) => Some((after, startedAt))
    case _ => None
  }

  /** Up to that cursor, everything fetched before the run began was read too. */
  predicate CursorCovered(w: World) {
    SavedCursor(w).Some? ==>
      forall k | k in w.index && !Less(SavedCursor(w).value.0, k) && w.index[k].fetchedAt < SavedCursor(w).value.1 ::
        Visited(w, k)
  }

  /** Nothing visited is newer than the newest clean run, and nothing is newer than now. */
  predicate InTime(w: World) {
    (forall k | k in w.index :: w.index[k].fetchedAt <= w.now) &&
    (forall v | v in w.visited ::
      LatestRun(w.runs, Cleaning).Some? && v.1 < LatestRun(w.runs, Cleaning).value.startedAt) &&
    (LastSucceededStart(w.runs, Cleaning).Some? ==> LastSucceededStart(w.runs, Cleaning).value <= w.now) &&
    (LatestRun(w.runs, Cleaning).Some? ==> LatestRun(w.runs, Cleaning).value.startedAt <= w.now)
  }

  predicate Sound(w: World) {
    Covered(w) && CursorCovered(w) && InTime(w)
  }

  /** Nothing at or before the cursor this run starts from was fetched since the run that left it. */
  predicate Undisturbed(w: World, e: Event, at: int) {
    e.Clean? && StartCursor(w, e.start, at).Some? ==>
      SavedCursor(w).Some? &&
      forall k | k in w.index && !Less(SavedCursor(w).value.0, k) :: w.index[k].fetchedAt < SavedCursor(w).value.1
  }

  lemma CursorIsSaved(w: World, start: Start, at: int)
    ensures StartCursor(w, start, at).Some? ==>
      SavedCursor(w).Some? && SavedCursor(w).value.0 == StartCursor(w, start, at).value
  {
  }

  lemma NewestRun(runs: seq<Run>, run: Run)
    ensures LatestRun(runs + [run], Cleaning) == if run.job == Cleaning then Some(run) else LatestRun(runs, Cleaning)
    ensures LastSucceededStart(runs + [run], Cleaning)
         == if run.job == Cleaning && run.status == Succeeded then Some(run.startedAt)
            else LastSucceededStart(runs, Cleaning)
  {
  }

  lemma RowsMatch(w: World, start: Start, at: int, k: Key)
    ensures k in RowsOf(w, start, at) <==>
      k in w.index && (CutOff(w, start).None? || CutOff(w, start).value <= w.index[k].fetchedAt) &&
      (StartCursor(w, start, at).None? || Less(StartCursor(w, start, at).value, k))
  {
  }

  /** A row at or before the new cursor was read just now, or before. */
  lemma BeforeTheCursor(w: World, start: Start, committed: nat, resume: nat, at: int, k: Key)
    requires Sound(w) && w.now < at && resume <= committed <= |RowsOf(w, start, at)|
    requires Undisturbed(w, Clean(start, committed, resume, Fails), at)
    requires k in w.index && CursorAfter(RowsOf(w, start, at), resume, StartCursor(w, start, at)).Some?
    requires !Less(CursorAfter(RowsOf(w, start, at), resume, StartCursor(w, start, at)).value, k)
    ensures (k, w.index[k].fetchedAt) in w.visited + Versions(w.index, RowsOf(w, start, at)[..committed])
  {
    var rows := RowsOf(w, start, at);
    CursorIsSaved(w, start, at);
    RowsMatch(w, start, at, k);
    if k in rows {
      assert forall j | committed <= j < |rows| :: resume > 0 ==> Less(rows[resume - 1], rows[j]);
      var i :| 0 <= i < |rows| && rows[i] == k;
      assert k in rows[..committed];
    }
  }

  /** A succeeded run has read, or knows to be read, everything there is. */
  lemma SuccessReadsAll(w: World, start: Start, at: int, k: Key)
    requires Sound(w) && w.now < at && k in w.index
    requires Undisturbed(w, Clean(start, |RowsOf(w, start, at)|, 0, Succeeds), at)
    ensures (k, w.index[k].fetchedAt) in w.visited + Versions(w.index, RowsOf(w, start, at))
  {
  }

  lemma CleanStaysSound(w: World, start: Start, committed: nat, resume: nat, ending: Ending, at: int)
    requires Sound(w) && Possible(w, Clean(start, committed, resume, ending), at)
    requires Undisturbed(w, Clean(start, committed, resume, ending), at)
    ensures Sound(After(w, Clean(start, committed, resume, ending), at))
  {
    var w' := After(w, Clean(start, committed, resume, ending), at);
    var rows := RowsOf(w, start, at);
    NewestRun(w.runs, RunOf(w, start, resume, ending, at));
    match ending {
      case Succeeds =>
        assert rows[..|rows|] == rows;
        forall k | k in w'.index ensures Visited(w', k) {
          SuccessReadsAll(w, start, at, k);
        }
      case Fails =>
        forall k | k in w'.index && SavedCursor(w').Some? && !Less(SavedCursor(w').value.0, k) ensures Visited(w', k) {
          BeforeTheCursor(w, start, committed, resume, at, k);
        }
      case IsLost =>
    }
  }

  lemma FetchStaysSound(w: World, sizes: map<Key, nat>, at: int)
    requires Sound(w) && w.now < at
    ensures Sound(After(w, Fetch(sizes), at))
  {
  }

  lemma OtherRunStaysSound(w: World, run: Run, at: int)
    requires Sound(w) && w.now < at && run.job != Cleaning
    ensures Sound(After(w, OtherRun(run), at))
  {
  }

  lemma StepStaysSound(w: World, e: Event, at: int)
    requires Sound(w) && Possible(w, e, at) && Undisturbed(w, e, at)
    ensures Sound(After(w, e, at))
  {
    match e
    case Fetch(sizes) => FetchStaysSound(w, sizes, at);
    case OtherRun(run) => OtherRunStaysSound(w, run, at);
    case Clean(start, committed, resume, ending) => CleanStaysSound(w, start, committed, resume, ending, at);
  }

  // --- whole histories ----------------------------------------------------------------------------

  datatype Timed = Timed(event: Event, at: int)

  ghost predicate Begins(w: World) {
    w.visited == {} && LatestRun(w.runs, Cleaning) == None && LastSucceededStart(w.runs, Cleaning) == None &&
    forall k | k in w.index :: w.index[k].fetchedAt <= w.now
  }

  /** The world after a history in which no resumed run was disturbed; None if it cannot happen. */
  function Replay(w: World, events: seq<Timed>): Option<World> {
    if events == [] then Some(w)
    else
      var last := events[|events| - 1];
      match Replay(w, events[..|events| - 1])
      case Some(before) =>
        if Possible(before, last.event, last.at) && Undisturbed(before, last.event, last.at)
        then Some(After(before, last.event, last.at)) else None
      case None => None
  }

  /** Every version fetched before the newest succeeded clean run began has been visited. */
  lemma {:induction false} WatermarkCovers(w: World, events: seq<Timed>)
    requires Begins(w) && Replay(w, events).Some?
    ensures Covered(Replay(w, events).value) && Sound(Replay(w, events).value)
  {
    if events != [] {
      var last := events[|events| - 1];
      WatermarkCovers(w, events[..|events| - 1]);
      StepStaysSound(Replay(w, events[..|events| - 1]).value, last.event, last.at);
    }
  }

  /** The condition is exact: a run that resumes a cursor and succeeds leaves the watermark true if
      and only if nothing at or before the cursor was fetched since the run that left it. */
  lemma ResumedSuccessIsExact(w: World, start: Start, at: int)
    requires Sound(w) && w.now < at && StartCursor(w, start, at).Some?
    ensures var e := Clean(start, |RowsOf(w, start, at)|, 0, Succeeds);
      Possible(w, e, at) && (Covered(After(w, e, at)) <==> Undisturbed(w, e, at))
  {
    var e := Clean(start, |RowsOf(w, start, at)|, 0, Succeeds);
    var w' := After(w, e, at);
    CursorIsSaved(w, start, at);
    if Undisturbed(w, e, at) {
      StepStaysSound(w, e, at);
    } else {
      var k :| k in w.index && !Less(SavedCursor(w).value.0, k) && w.index[k].fetchedAt >= SavedCursor(w).value.1;
      RowsMatch(w, start, at, k);
      NewestRun(w.runs, RunOf(w, start, 0, Succeeds, at));
      assert !Visited(w', k);
    }
  }

  /** A full pass starts after the cursor of any failed run, so it reads every row if and only if all
      rows come after that cursor. */
  lemma FullPassReadsAll(w: World, at: int)
    ensures (forall k | k in w.index :: k in RowsOf(w, FullPass, at))
      <==> (SavedCursor(w).Some? ==> forall k | k in w.index :: Less(SavedCursor(w).value.0, k))
  {
    assert StartCursor(w, FullPass, at).Some? <==> SavedCursor(w).Some?;
    CursorIsSaved(w, FullPass, at);
    forall k | k in w.index
      ensures k in RowsOf(w, FullPass, at) <==> (SavedCursor(w).Some? ==> Less(SavedCursor(w).value.0, k))
    {
      RowsMatch(w, FullPass, at, k);
    }
  }

  // --- what is resumed ------------------------------------------------------------------------------

  /** The rows after the cursor a failed run recorded are the rest of that run's rows. */
  lemma RestOfRows(w: World, start: Start, at: int, resume: nat)
    requires resume <= |RowsOf(w, start, at)|
    ensures Pending(w.index, CutOff(w, start), CursorAfter(RowsOf(w, start, at), resume, StartCursor(w, start, at)))
         == RowsOf(w, start, at)[resume..]
  {
    var rows := RowsOf(w, start, at);
    if resume > 0 {
      PageAndRest(Matching(w.index, CutOff(w, start)), StartCursor(w, start, at), rows, resume);
      assert rows[..resume] + rows[resume..] == rows;
    }
  }

  lemma FailedRunIsRead(runs: seq<Run>, cut: Option<int>, cursor: Option<Key>, at: int, after: seq<Run>, later: int)
    requires after == runs + [CleanRunRow(at, cut, cursor, false, true)]
    ensures LastSucceededStart(after, Cleaning) == LastSucceededStart(runs, Cleaning)
    ensures SavedPositions(after, Cleaning).1 == cursor
    ensures CleanResumeCursor(after, later) == if cut.Some? && later - at <= DAY then cursor else None
  {
    NewestRun(runs, CleanRunRow(at, cut, cursor, false, true));
  }

  lemma CursorOfFailedRun(w: World, start: Start, committed: nat, resume: nat, at: int, later: int, after: World,
                          cursor: Option<Key>)
    requires Possible(w, Clean(start, committed, resume, Fails), at)
    requires after == After(w, Clean(start, committed, resume, Fails), at)
    requires cursor == CursorAfter(RowsOf(w, start, at), resume, StartCursor(w, start, at))
    ensures CutOff(after, Refresh) == CutOff(w, Refresh) && after.index == w.index
    ensures StartCursor(after, FullPass, later) == cursor
    ensures StartCursor(after, Refresh, later) == if CutOff(w, start).Some? && later - at <= DAY then cursor else None
  {
    FailedRunIsRead(w.runs, CutOff(w, start), cursor, at, after.runs, later);
  }

  /** A refresh that failed is continued by the next one within a day, with the same cut-off, exactly
      where it stopped: over the rest of its rows. Later, or without a cut-off, it starts afresh. */
  lemma FailedRefreshContinues(w: World, committed: nat, resume: nat, at: int, later: int)
    requires Possible(w, Clean(Refresh, committed, resume, Fails), at)
    ensures var after := After(w, Clean(Refresh, committed, resume, Fails), at);
      CutOff(after, Refresh) == CutOff(w, Refresh) &&
      if CutOff(w, Refresh).Some? && later - at <= 24 * 3600
      then RowsOf(after, Refresh, later) == RowsOf(w, Refresh, at)[resume..]
      else StartCursor(after, Refresh, later) == None
  {
    CursorOfFailedRun(w, Refresh, committed, resume, at, later, After(w, Clean(Refresh, committed, resume, Fails), at),
      CursorAfter(RowsOf(w, Refresh, at), resume, StartCursor(w, Refresh, at)));
    RestOfRows(w, Refresh, at, resume);
  }

  /** A full pass that failed is continued by the next full pass over the rest of its rows. */
  lemma FailedFullPassContinues(w: World, start: Start, committed: nat, resume: nat, at: int, later: int)
    requires !start.Refresh? && Possible(w, Clean(start, committed, resume, Fails), at)
    ensures RowsOf(After(w, Clean(start, committed, resume, Fails), at), FullPass, later)
         == RowsOf(w, start, at)[resume..]
  {
    CursorOfFailedRun(w, start, committed, resume, at, later, After(w, Clean(start, committed, resume, Fails), at),
      CursorAfter(RowsOf(w, start, at), resume, StartCursor(w, start, at)));
    RestOfRows(w, start, at, resume);
  }

  // --- two histories --------------------------------------------------------------------------------

  const FIRST := Key(1, Details)
  const SECOND := Key(2, Details)

  /** Two rows were fetched at time 1, and no clean run has been yet. */
  const FETCHED := World(1, map[FIRST := IndexRow(1, 1), SECOND := IndexRow(1, 1)], {}, [])

  lemma OrderedRows(keys: set<Key>, rows: seq<Key>)
    requires SortedKeys(rows) && forall k :: k in keys <==> k in rows
    ensures Ordered(keys) == rows
  {
    SortedUnique(Ordered(keys), rows);
  }

  predicate Happens(w: World, e: Timed, w': World) {
    Possible(w, e.event, e.at) && Undisturbed(w, e.event, e.at) && After(w, e.event, e.at) == w'
  }

  lemma {:induction false} HistoryHappens(worlds: seq<World>, events: seq<Timed>)
    requires |worlds| == |events| + 1
    requires forall i | 0 <= i < |events| :: Happens(worlds[i], events[i], worlds[i + 1])
    ensures Replay(worlds[0], events) == Some(worlds[|events|])
  {
    if events != [] {
      var n := |events| - 1;
      HistoryHappens(worlds[..n + 1], events[..n]);
    }
  }

  // The second row is fetched again, a refresh fails after reading it, and a full pass succeeds.

  const ALL_READ := FETCHED.(now := 2, visited := {(FIRST, 1), (SECOND, 1)},
    runs := [Run(Cleaning, Succeeded, 2, Some(Summary(None, None, None)))])
  const SECOND_AGAIN := ALL_READ.(now := 3, index := map[FIRST := IndexRow(1, 1), SECOND := IndexRow(1, 3)])
  const REFRESH_FAILED := SECOND_AGAIN.(now := 4, visited := {(FIRST, 1), (SECOND, 1), (SECOND, 3)},
    runs := ALL_READ.runs + [Run(Cleaning, Failed, 4, Some(Summary(Some(2), Some(SECOND), None)))])
  const PASSED := REFRESH_FAILED.(now := 5,
    runs := REFRESH_FAILED.runs + [Run(Cleaning, Succeeded, 5, Some(Summary(None, None, None)))])

  const SKIPPING := [Timed(Clean(Fresh, 2, 0, Succeeds), 2), Timed(Fetch(map[SECOND := 1]), 3),
    Timed(Clean(Refresh, 1, 1, Fails), 4), Timed(Clean(FullPass, 0, 0, Succeeds), 5)]

  lemma CleanHappens(w: World, e: Timed, rows: seq<Key>, versions: set<(Key, int)>, run: Run, w': World)
    requires e.event.Clean? && Possible(w, e.event, e.at) && Undisturbed(w, e.event, e.at)
    requires rows == RowsOf(w, e.event.start, e.at) && versions == Versions(w.index, rows[..e.event.committed])
    requires run == RunOf(w, e.event.start, e.event.resume, e.event.ending, e.at)
    requires w' == w.(now := e.at, visited := w.visited + versions, runs := w.runs + [run])
    ensures Happens(w, e, w')
  {
  }

  lemma FreshRows(at: int)
    ensures RowsOf(FETCHED, Fresh, at) == [FIRST, SECOND]
  {
    OrderedRows(Beyond(Matching(FETCHED.index, None), None), [FIRST, SECOND]);
  }

  lemma FreshReadsBoth()
    ensures Happens(FETCHED, SKIPPING[0], ALL_READ)
  {
    FreshRows(2);
    assert Versions(FETCHED.index, [FIRST, SECOND][..2]) == {(FIRST, 1), (SECOND, 1)};
    CleanHappens(FETCHED, SKIPPING[0], [FIRST, SECOND], {(FIRST, 1), (SECOND, 1)}, ALL_READ.runs[0], ALL_READ);
  }

  lemma SecondIsFetched()
    ensures Happens(ALL_READ, SKIPPING[1], SECOND_AGAIN)
  {
  }

  lemma RefreshRows()
    ensures RowsOf(SECOND_AGAIN, Refresh, 4) == [SECOND] && CutOff(SECOND_AGAIN, Refresh) == Some(2)
    ensures StartCursor(SECOND_AGAIN, Refresh, 4) == None
  {
    OrderedRows(Beyond(Matching(SECOND_AGAIN.index, Some(2)), None), [SECOND]);
  }

  lemma RefreshReadsSecond()
    ensures Happens(SECOND_AGAIN, SKIPPING[2], REFRESH_FAILED)
  {
    RefreshRows();
    assert Versions(SECOND_AGAIN.index, [SECOND][..1]) == {(SECOND, 3)};
    CleanHappens(SECOND_AGAIN, SKIPPING[2], [SECOND], {(SECOND, 3)}, REFRESH_FAILED.runs[1], REFRESH_FAILED);
  }

  lemma FullPassStart()
    ensures SavedCursor(REFRESH_FAILED) == Some((SECOND, 4)) && StartCursor(REFRESH_FAILED, FullPass, 5) == Some(SECOND)
  {
    NewestRun(ALL_READ.runs, REFRESH_FAILED.runs[1]);
  }

  lemma NothingBeyond(rows: set<Key>, last: Key)
    requires forall k | k in rows :: !Less(last, k)
    ensures Ordered(Beyond(rows, Some(last))) == []
  {
    OrderedRows(Beyond(rows, Some(last)), []);
  }

  lemma FullPassRows()
    ensures RowsOf(REFRESH_FAILED, FullPass, 5) == [] && StartCursor(REFRESH_FAILED, FullPass, 5) == Some(SECOND)
  {
    FullPassStart();
    NothingBeyond(Matching(REFRESH_FAILED.index, None), SECOND);
  }

  lemma FullPassReadsNothing()
    ensures Happens(REFRESH_FAILED, SKIPPING[3], PASSED)
  {
    FullPassStart();
    FullPassRows();
    assert Versions(REFRESH_FAILED.index, [][..0]) == {};
    CleanHappens(REFRESH_FAILED, SKIPPING[3], [], {}, PASSED.runs[2], PASSED);
  }

  const SKIPPED := [FETCHED, ALL_READ, SECOND_AGAIN, REFRESH_FAILED, PASSED]

  lemma SkippingStep(i: nat)
    requires i < 4
    ensures Happens(SKIPPED[i], SKIPPING[i], SKIPPED[i + 1])
  {
    if i == 0 { FreshReadsBoth(); }
    else if i == 1 { SecondIsFetched(); }
    else if i == 2 { RefreshReadsSecond(); }
    else { FullPassReadsNothing(); }
  }

  lemma SkippingHappens(n: nat)
    requires n <= 4
    ensures Replay(FETCHED, SKIPPING[..n]) == Some(SKIPPED[n])
  {
    forall i | 0 <= i < n ensures Happens(SKIPPED[i], SKIPPING[i], SKIPPED[i + 1]) {
      SkippingStep(i);
    }
    HistoryHappens(SKIPPED[..n + 1], SKIPPING[..n]);
  }

  /** A refresh fails, and the full pass after it succeeds; the first row is read by neither, although
      the refresh never looked at rows as old as this one. */
  lemma FullPassSkipsOlderRow()
    ensures Begins(FETCHED) && Replay(FETCHED, SKIPPING[..4]) == Some(PASSED)
    ensures Replay(FETCHED, SKIPPING[..2]) == Some(SECOND_AGAIN)
    ensures Replay(FETCHED, SKIPPING[..3]) == Some(REFRESH_FAILED)
    ensures CutOff(SECOND_AGAIN, Refresh) == Some(2) && SECOND_AGAIN.index[FIRST].fetchedAt == 1
    ensures FIRST !in RowsOf(SECOND_AGAIN, Refresh, 4) && FIRST !in RowsOf(REFRESH_FAILED, FullPass, 5)
  {
    SkippingHappens(2);
    SkippingHappens(3);
    SkippingHappens(4);
    RefreshRows();
    FullPassRows();
  }

  // A full pass fails after the first row, that row is fetched again, and the resumed pass succeeds.

  const HALF_READ := FETCHED.(now := 2, visited := {(FIRST, 1)},
    runs := [Run(Cleaning, Failed, 2, Some(Summary(None, Some(FIRST), None)))])
  const FIRST_AGAIN := HALF_READ.(now := 3, index := map[FIRST := IndexRow(1, 3), SECOND := IndexRow(1, 1)])

  const DISTURBING := [Timed(Clean(Fresh, 1, 1, Fails), 2), Timed(Fetch(map[FIRST := 1]), 3)]

  lemma HalfIsRead()
    ensures Happens(FETCHED, DISTURBING[0], HALF_READ)
  {
    FreshRows(2);
    assert Versions(FETCHED.index, [FIRST, SECOND][..1]) == {(FIRST, 1)};
    CleanHappens(FETCHED, DISTURBING[0], [FIRST, SECOND], {(FIRST, 1)}, HALF_READ.runs[0], HALF_READ);
  }

  lemma FirstIsFetched()
    ensures Happens(HALF_READ, DISTURBING[1], FIRST_AGAIN)
  {
  }

  lemma DisturbingHappens()
    ensures Replay(FETCHED, DISTURBING) == Some(FIRST_AGAIN)
  {
    HalfIsRead();
    FirstIsFetched();
    HistoryHappens([FETCHED, HALF_READ, FIRST_AGAIN], DISTURBING);
  }

  lemma HalfIsSaved()
    ensures StartCursor(FIRST_AGAIN, FullPass, 4) == Some(FIRST) && SavedCursor(FIRST_AGAIN) == Some((FIRST, 2))
  {
  }

  /** The watermark then lies: the first row's new version, older than the succeeded run, was read by
      no run. */
  lemma ResumedSuccessMissesARow()
    ensures Begins(FETCHED) && Replay(FETCHED, DISTURBING) == Some(FIRST_AGAIN)
    ensures var e := Clean(FullPass, |RowsOf(FIRST_AGAIN, FullPass, 4)|, 0, Succeeds);
      Possible(FIRST_AGAIN, e, 4) && StartCursor(FIRST_AGAIN, FullPass, 4) == Some(FIRST) &&
      !Covered(After(FIRST_AGAIN, e, 4))
  {
    DisturbingHappens();
    WatermarkCovers(FETCHED, DISTURBING);
    HalfIsSaved();
    assert FIRST in FIRST_AGAIN.index && !Less(FIRST, FIRST) && FIRST_AGAIN.index[FIRST].fetchedAt == 3;
    ResumedSuccessIsExact(FIRST_AGAIN, FullPass, 4);
  }
}
