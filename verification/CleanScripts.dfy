/** The clean stage of app/ingestion/run_scripts/one_pass.py and refresh.py: where a run starts, and
    what it does to the whole site. */
module CleanScripts {
  import opened Base
  import opened Catalogue
  import opened CleanSpec
  import opened CleanBatch
  import opened CleanHistory
  import opened CleanIncremental
  import opened RawIndex
  import opened RunHistory
  import opened RowsOfBatch
  import opened CleanJob
  import opened Watermark
  import opened CleanWorlds

  // --- the rows of a run are good when all rows are -------------------------------------------------

  lemma {:induction false} KeptFrom(docs: seq<RawDoc>, recent: set<Key>)
    ensures forall doc | doc in Keep(docs, recent) :: doc in docs
  {
    if docs != [] {
      KeptFrom(docs[..|docs| - 1], recent);
    }
  }

  lemma {:induction false} KeptAreGood(docs: seq<RawDoc>, recent: set<Key>)
    requires Good(docs)
    ensures Good(Keep(docs, recent))
  {
    if docs != [] {
      var init, last := docs[..|docs| - 1], docs[|docs| - 1];
      PrefixIsGood(docs);
      KeptAreGood(init, recent);
      KeptFrom(init, recent);
      KeepOneMore(docs, recent, init, last);
      if last.key in recent { AppendIsGood(Keep(init, recent), last); }
    }
  }

  lemma RowsOfRunAreGood(s: Site, rows: seq<Key>, docs: seq<RawDoc>)
    requires Good(AllDocs(s)) && SortedKeys(rows) && (forall k | k in rows :: k in s.world.index)
    requires docs == DocsOf(rows, s.store)
    ensures Good(docs)
  {
    KeptAreDocs(Ordered(s.world.index.Keys), rows, SetOf(rows), s.store);
    KeptAreGood(AllDocs(s), SetOf(rows));
  }

  // --- the cut-off is the watermark ------------------------------------------------------------------

  /** The cut-off the job takes is the one the histories are about. */
  lemma SameCutOff(w: World, start: Start, cut: Option<int>)
    requires IsCutOff(w.runs, None, !start.Refresh?, cut)
    ensures cut == Watermark.CutOff(w, start)
  {
    if start.Refresh? {
      LastSucceededIsNewest(w.runs, Cleaning);
      match (cut, LastSucceededStart(w.runs, Cleaning))
      case (Some(a), Some(b)) =>
        var i: nat :| Newest(w.runs, SucceededOf(Cleaning), i) && w.runs[i].startedAt == a;
        var j: nat :| Newest(w.runs, SucceededOf(Cleaning), j) && w.runs[j].startedAt == b;
        OneNewest(w.runs, SucceededOf(Cleaning), i, j);
      case _ =>
    }
  }

  lemma IsTheCutOff(w: World, start: Start)
    ensures IsCutOff(w.runs, None, !start.Refresh?, Watermark.CutOff(w, start))
  {
    LastSucceededIsNewest(w.runs, Cleaning);
  }

  /** The rows from the watermark on are the rows the job has to clean. */
  lemma RowsAreDue(s: Site, start: Start, rows: seq<Key>, docs: seq<RawDoc>)
    requires rows == Pending(s.world.index, Watermark.CutOff(s.world, start), None) && docs == DocsOf(rows, s.store)
    ensures AreDue(s.world.index, s.store, s.world.runs, None, !start.Refresh?, rows, docs)
    ensures forall k | k in rows :: k in s.world.index
  {
    var cut := Watermark.CutOff(s.world, start);
    IsTheCutOff(s.world, start);
    forall k ensures k in rows <==> IsDue(s.world.index, s.world.runs, None, !start.Refresh?, k) {
      DueIsAfterCutOff(s.world.index, s.world.runs, None, !start.Refresh?, cut, k);
      assert k in rows <==> k in Beyond(Matching(s.world.index, cut), None);
    }
  }

  // --- one run ----------------------------------------------------------------------------------------

  function EndingOf(finished: bool, recorded: bool): Ending {
    if !recorded then IsLost else if finished then Succeeds else Fails
  }

  /** An attempt of a run over `size` rows. */
  predicate IsAttempt(a: Attempt, size: nat, finished: bool, recorded: bool) {
    a.start <= a.committed <= size && a.resume <= a.committed && (finished ==> a.committed == size) &&
    (recorded && !finished ==> a.start <= a.resume)
  }

  lemma SiteIsLeft(s: Site, step: Step, at: int)
    requires step.RanClean? && Possible(s.world, EventOf(step), at)
    ensures SiteAfter(s, step, at).world.index == s.world.index && SiteAfter(s, step, at).store == s.store
  {
  }

  /** What a run records is what a step of the history records. */
  lemma RunRecords(s: Site, start: Start, at: int, rows: seq<Key>, a: Attempt, batchSize: nat, finished: bool,
                   recorded: bool, cut: Option<int>, from: Option<Key>, runs: seq<Run>)
    requires s.world.now < at && rows == Pending(s.world.index, Watermark.CutOff(s.world, start), None)
    requires from == StartCursor(s.world, start, at) && a.start == Position(rows, from)
    requires IsAttempt(a, |rows|, finished, recorded) && IsCutOff(s.world.runs, None, !start.Refresh?, cut)
    requires Recorded(s.world.runs, runs, at, cut, rows, from, a, batchSize, finished, recorded)
    ensures var step := StepOf(start, a, finished, recorded);
      Possible(s.world, EventOf(step), at) && SiteAfter(s, step, at).world.runs == runs
  {
    SameCutOff(s.world, start, cut);
    RunIsAStep(s, start, at, rows, a, batchSize, finished, recorded, runs);
  }

  lemma WhatRanIsAnAttempt(a: Attempt, size: nat, finished: bool, recorded: bool)
    requires a.start <= a.committed <= size && a.resume <= a.committed && (finished ==> a.committed == size)
    requires recorded && !finished ==> a.start <= a.resume
    ensures IsAttempt(a, size, finished, recorded)
  {
  }

  lemma StepEnds(start: Start, a: Attempt, size: nat, finished: bool, recorded: bool)
    requires IsAttempt(a, size, finished, recorded)
    ensures var step := StepOf(start, a, finished, recorded);
      step.RanClean? && step.start == start && step.ending == EndingOf(finished, recorded)
  {
  }

  /** A run is one step of the site's history, and `after` what it leaves. */
  predicate IsRunOf(s: Site, start: Start, at: int, finished: bool, recorded: bool, step: Step, after: Site) {
    step.RanClean? && step.start == start && step.ending == EndingOf(finished, recorded) &&
    Possible(s.world, EventOf(step), at) && after == SiteAfter(s, step, at)
  }

  /** The site after a run of the job: what it recorded, and what it committed of its rows. */
  lemma RunOfSite(s: Site, start: Start, at: int, rows: seq<Key>, docs: seq<RawDoc>, a: Attempt, batchSize: nat,
                  finished: bool, recorded: bool, cut: Option<int>, from: Option<Key>, runs: seq<Run>)
    returns (step: Step, after: Site)
    requires s.world.now < at && rows == Pending(s.world.index, Watermark.CutOff(s.world, start), None)
    requires docs == DocsOf(rows, s.store) && from == StartCursor(s.world, start, at) && a.start == Position(rows, from)
    requires IsAttempt(a, |rows|, finished, recorded) && IsCutOff(s.world.runs, None, !start.Refresh?, cut)
    requires Recorded(s.world.runs, runs, at, cut, rows, from, a, batchSize, finished, recorded)
    ensures IsRunOf(s, start, at, finished, recorded, step, after)
    ensures after.world.runs == runs
    ensures IsShown(after, s.world.index, runs, s.store, Fold(s.catalogue, docs[a.start..a.committed]))
  {
    step := StepOf(start, a, finished, recorded);
    StepEnds(start, a, |rows|, finished, recorded);
    RunRecords(s, start, at, rows, a, batchSize, finished, recorded, cut, from, runs);
    after := SiteAfter(s, step, at);
    RunWritesAStep(s, start, at, rows, docs, a, finished, recorded);
    SiteIsLeft(s, step, at);
  }

  /** In a fine history a recorded success leaves the catalogue that cleaning every row would leave. */
  predicate LeavesFullPass(s: Site, step: Step, at: int, after: Site) {
    Sound(s.world) && Reflects(s) && Fine(s, step, at) ==>
      after.catalogue == Fold(s.catalogue, AllDocs(s)) && Cleaned(after.catalogue, AllDocs(s), s.world.index.Keys)
  }

  lemma RecordedSuccess(s: Site, start: Start, at: int, step: Step, after: Site)
    requires IsRunOf(s, start, at, true, true, step, after)
    ensures LeavesFullPass(s, step, at, after)
  {
    if Sound(s.world) && Reflects(s) && Fine(s, step, at) { SuccessIsFullPass(s, step, at); }
  }

  predicate IsShown(s: Site, index: Index, runs: seq<Run>, store: Store, db: Tables) {
    s.world.index == index && s.world.runs == runs && s.store == store && s.catalogue == db
  }

  class CleanStage {
    const job: CleanAnimeJob

    constructor (job: CleanAnimeJob)
      ensures this.job == job
    {
      this.job := job;
    }

    /** The site as the job sees it. */
    predicate Shows(s: Site)
      reads job, job.metrics
    {
      IsShown(s, job.index, job.metrics.runs, job.store, job.db)
    }

    /** `saved_positions`, `clean_resume_cursor`, or neither. */
    method ResumeAfter(start: Start, now: int, ghost s: Site) returns (after: Option<Key>)
      requires Shows(s)
      ensures after == StartCursor(s.world, start, now)
    {
      match start
      case Fresh => after := None;
      case FullPass => after := SavedPositions(job.metrics.runs, Cleaning).1;
      case Refresh => after := CleanResumeCursor(job.metrics.runs, now);
    }

    /** The clean stage, fresh, resumed or incremental: one step of the site's history, which a run
        without faults finishes. A run that succeeds in a fine history leaves the catalogue that cleaning
        every row would leave. */
    method Clean(start: Start, batchSize: nat, now: int, faults: seq<Fault>, recorded: bool, ghost s: Site)
      returns (finished: bool, ghost step: Step, ghost left: Site)
      requires batchSize > 0 && s.world.now < now && Shows(s)
      modifies job`db, job`tags, job`studios, job`totals, job.metrics
      ensures IsRunOf(s, start, now, finished, recorded, step, left) && left.world.runs == job.metrics.runs
      ensures Good(AllDocs(s)) ==> Shows(left)
      ensures Good(AllDocs(s)) && faults == [] && (forall k | k in job.index :: k in job.store) ==> finished
      ensures finished && recorded ==> LeavesFullPass(s, step, now, left)
    {
      var after := ResumeAfter(start, now, s);
      ghost var rows, known := RowsOfStage(s, start);
      ghost var a, cut;
      finished, a, cut := RunJob(start, after, batchSize, now, faults, recorded, s, rows, known);
      step, left := RunOfSite(s, start, now, rows, known.docs, a, batchSize, finished, recorded, cut, after,
        job.metrics.runs);
      if finished && recorded { RecordedSuccess(s, start, now, step, left); }
    }

    lemma RowsOfStage(s: Site, start: Start) returns (rows: seq<Key>, known: KnownDocs)
      ensures rows == Pending(s.world.index, Watermark.CutOff(s.world, start), None)
      ensures known.docs == DocsOf(rows, s.store) && known.good == Good(AllDocs(s))
      ensures AreDue(s.world.index, s.store, s.world.runs, None, !start.Refresh?, rows, known.docs)
      ensures forall i | 0 <= i < |known.docs| :: known.docs[i].key in s.world.index
    {
      rows := Pending(s.world.index, Watermark.CutOff(s.world, start), None);
      RowsAreDue(s, start, rows, DocsOf(rows, s.store));
      if Good(AllDocs(s)) { RowsOfRunAreGood(s, rows, DocsOf(rows, s.store)); }
      known := Assessed(DocsOf(rows, s.store), Good(AllDocs(s)));
    }

    method RunJob(start: Start, after: Option<Key>, batchSize: nat, now: int, faults: seq<Fault>, recorded: bool,
                  ghost s: Site, ghost rows: seq<Key>, ghost known: KnownDocs)
      returns (finished: bool, ghost a: Attempt, ghost cut: Option<int>)
      requires batchSize > 0 && Shows(s)
      requires AreDue(s.world.index, s.store, s.world.runs, None, !start.Refresh?, rows, known.docs)
      requires forall i | 0 <= i < |known.docs| :: known.docs[i].key in s.world.index
      modifies job`db, job`tags, job`studios, job`totals, job.metrics
      ensures a.start == Position(rows, after) && IsAttempt(a, |rows|, finished, recorded) && |rows| == |known.docs|
      ensures IsCutOff(s.world.runs, None, !start.Refresh?, cut)
      ensures Recorded(s.world.runs, job.metrics.runs, now, cut, rows, after, a, batchSize, finished, recorded)
      ensures s.world.index == job.index && s.store == job.store
      ensures known.good ==> job.db == Fold(s.catalogue, known.docs[a.start..a.committed])
      ensures known.good && faults == [] && (forall k | k in job.index :: k in job.store) ==> finished
    {
      finished, a, cut :=
        job.FullCleanLoop(None, after, batchSize, !start.Refresh?, now, faults, recorded, rows, known);
      WhatRanIsAnAttempt(a, |rows|, finished, recorded);
    }
  }
}
