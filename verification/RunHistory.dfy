/** The run history and the rules that read it: where a run may be continued, and what a clean run
    may take as already cleaned. app/ingestion/repository/metrics_repository.py, the resume rules of
    app/ingestion/run_scripts and of app/ingestion/jobs/discovery_job.py. */
module RunHistory {
  import opened Base

  datatype RunStatus = Running | Succeeded | Failed
  datatype Job = Cleaning | Fetching | Discovery(name: string)

  /** The part of a run summary that later runs read. */
  datatype Summary = Summary(since: Option<int>, resumeAfter: Option<Key>, resumePage: Option<nat>)

  /** A row of `ingestion_run`; its id is its position in the history. Times are in seconds. */
  datatype Run = Run(job: Job, status: RunStatus, startedAt: int, summary: Option<Summary>)

  const DAY := 24 * 3600

  /** `latest_run`: the newest run of a job. */
  function LatestRun(runs: seq<Run>, job: Job): Option<Run> {
    if runs == [] then None
    else if runs[|runs| - 1].job == job then Some(runs[|runs| - 1])
    else LatestRun(runs[..|runs| - 1], job)
  }

  /** `last_succeeded_run_start`: the cut-off of the next incremental run. */
  function LastSucceededStart(runs: seq<Run>, job: Job): Option<int> {
    if runs == [] then None
    else
      var last := runs[|runs| - 1];
      if last.job == job && last.status == Succeeded then Some(last.startedAt)
      else LastSucceededStart(runs[..|runs| - 1], job)
  }

  /** Run `i` is the newest of those that `p` picks. */
  predicate Newest(runs: seq<Run>, p: Run -> bool, i: nat) {
    i < |runs| && p(runs[i]) && forall j | i < j < |runs| :: !p(runs[j])
  }

  predicate NoRun(runs: seq<Run>, p: Run -> bool) {
    forall i | 0 <= i < |runs| :: !p(runs[i])
  }

  function Of(job: Job): Run -> bool { (r: Run) => r.job == job }
  function SucceededOf(job: Job): Run -> bool { (r: Run) => r.job == job && r.status == Succeeded }

  lemma OneMoreRun(init: seq<Run>, last: Run, p: Run -> bool)
    ensures p(last) ==> Newest(init + [last], p, |init|)
    ensures !p(last) ==> forall i: nat | i < |init| :: Newest(init, p, i) ==> Newest(init + [last], p, i)
    ensures NoRun(init + [last], p) <==> NoRun(init, p) && !p(last)
  {
    assert forall i | 0 <= i < |init| :: (init + [last])[i] == init[i];
    assert (init + [last])[|init|] == last;
  }

  /** The query finds the newest run of a job, and nothing exactly when there is none. */
  lemma {:induction false} LatestRunIsNewest(runs: seq<Run>, job: Job)
    ensures match LatestRun(runs, job)
      case None => NoRun(runs, Of(job))
      case Some(run) => exists i: nat :: Newest(runs, Of(job), i) && runs[i] == run
  {
    if runs != [] {
      var init, last := runs[..|runs| - 1], runs[|runs| - 1];
      assert runs == init + [last];
      OneMoreRun(init, last, Of(job));
      LatestRunIsNewest(init, job);
      if last.job == job {
        assert Newest(runs, Of(job), |init|);
      } else if LatestRun(init, job).Some? {
        var i: nat :| Newest(init, Of(job), i) && init[i] == LatestRun(init, job).value;
        assert Newest(runs, Of(job), i);
      }
    }
  }

  /** The query finds the start of the newest succeeded run of a job, and nothing exactly when none
      has succeeded. */
  lemma {:induction false} LastSucceededIsNewest(runs: seq<Run>, job: Job)
    ensures match LastSucceededStart(runs, job)
      case None => NoRun(runs, SucceededOf(job))
      case Some(start) => exists i: nat :: Newest(runs, SucceededOf(job), i) && runs[i].startedAt == start
  {
    if runs != [] {
      var init, last := runs[..|runs| - 1], runs[|runs| - 1];
      assert runs == init + [last];
      OneMoreRun(init, last, SucceededOf(job));
      LastSucceededIsNewest(init, job);
      if last.job == job && last.status == Succeeded {
        assert Newest(runs, SucceededOf(job), |init|);
      } else if LastSucceededStart(init, job).Some? {
        var i: nat :| Newest(init, SucceededOf(job), i) && init[i].startedAt == LastSucceededStart(init, job).value;
        assert Newest(runs, SucceededOf(job), i);
      }
    }
  }

  /** The cut-off of a clean run: none for a full pass, else the one that is given, else the start of
      the newest clean run that succeeded, and none when no run has. */
  ghost predicate IsCutOff(runs: seq<Run>, since: Option<int>, fullPass: bool, cut: Option<int>) {
    if fullPass then cut == None
    else if since.Some? then cut == since
    else match cut
      case None => NoRun(runs, SucceededOf(Cleaning))
      case Some(start) => exists i: nat :: Newest(runs, SucceededOf(Cleaning), i) && runs[i].startedAt == start
  }

  lemma OneNewest(runs: seq<Run>, p: Run -> bool, i: nat, j: nat)
    requires Newest(runs, p, i) && Newest(runs, p, j)
    ensures i == j
  {
  }

  /** The history after a run began, other runs were recorded, and then its outcome. */
  function Finished(before: seq<Run>, job: Job, now: int, later: seq<Run>, status: RunStatus,
                    summary: Summary): seq<Run> {
    (before + [Run(job, Running, now, None)] + later)[|before| := Run(job, status, now, Some(summary))]
  }

  /** What a run records is what the next run of its job reads, whatever other jobs record meanwhile;
      and a run moves the cut-off exactly when it succeeded. */
  lemma {:induction false} OutcomeIsRead(before: seq<Run>, job: Job, now: int, later: seq<Run>, status: RunStatus,
                                         summary: Summary)
    requires NoRun(later, Of(job))
    ensures var runs := Finished(before, job, now, later, status, summary);
      LatestRun(runs, job) == Some(Run(job, status, now, Some(summary))) &&
      LastSucceededStart(runs, job) == if status == Succeeded then Some(now) else LastSucceededStart(before, job)
  {
    var runs := Finished(before, job, now, later, status, summary);
    if later == [] {
      assert runs[..|runs| - 1] == before;
    } else {
      var init, last := later[..|later| - 1], later[|later| - 1];
      assert forall i | 0 <= i < |init| :: init[i] == later[i];
      OutcomeIsRead(before, job, now, init, status, summary);
      assert runs == Finished(before, job, now, init, status, summary) + [last];
      assert Of(job)(later[|later| - 1]) == (last.job == job);
    }
  }

  /** `clean_resume_cursor` of refresh.py: only a recent, failed, incremental clean run. */
  function CleanResumeCursor(runs: seq<Run>, now: int): Option<Key> {
    match LatestRun(runs, Cleaning)
    case Some(Run(_, Failed, startedAt, Some(summary))) =>
      if now - startedAt > DAY || summary.since.None? then None else summary.resumeAfter
    case _ => None
  }

  /** `saved_positions` of one_pass.py: whatever the last failed runs recorded. */
  function SavedPositions(runs: seq<Run>, discovery: Job): (Option<nat>, Option<Key>) {
    var page := match LatestRun(runs, discovery)
      case Some(Run(_, Failed, _, Some(summary))) => summary.resumePage
      case _ => None;
    var after := match LatestRun(runs, Cleaning)
      case Some(Run(_, Failed, _, Some(summary))) => summary.resumeAfter
      case _ => None;
    (page, after)
  }

  /** `_resume_page` of the discovery job. */
  function ResumePage(runs: seq<Run>, job: Job, now: int): nat {
    match LatestRun(runs, job)
    case Some(Run(_, Failed, startedAt, Some(summary))) =>
      if now - startedAt > DAY || summary.resumePage.None? || summary.resumePage.value == 0 then 1
      else summary.resumePage.value
    case _ => 1
  }

  /** What a clean run leaves in the history: where it stopped, if it failed and could say so. */
  function CleanRunRow(now: int, cut: Option<int>, cursor: Option<Key>, finished: bool, recorded: bool): Run {
    if !recorded then Run(Cleaning, Running, now, None)
    else if finished then Run(Cleaning, Succeeded, now, Some(Summary(cut, None, None)))
    else Run(Cleaning, Failed, now, Some(Summary(cut, cursor, None)))
  }

  /** Its own session: what it records survives a rollback of the job's work. */
  class MetricsRepository {
    var runs: seq<Run>

    constructor ()
      ensures runs == []
    {
      runs := [];
    }

    method StartRun(job: Job, now: int) returns (id: nat)
      modifies this
      ensures id == |old(runs)| && runs == old(runs) + [Run(job, Running, now, None)]
    {
      id := |runs|;
      runs := runs + [Run(job, Running, now, None)];
    }

    /** An unknown id updates nothing. */
    method FinishRun(id: nat, status: RunStatus, summary: Summary)
      modifies this
      ensures runs == if id < |old(runs)|
        then old(runs)[id := old(runs)[id].(status := status, summary := Some(summary))] else old(runs)
    {
      if id < |runs| {
        runs := runs[id := runs[id].(status := status, summary := Some(summary))];
      }
    }
  }
}
