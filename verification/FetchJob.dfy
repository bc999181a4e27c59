/** The fetch worker: FetchAnimeJob of app/ingestion/jobs/fetch_anime_job.py. */
module FetchJob {
  import opened Base
  import opened Ledger
  import opened RawIndex
  import opened Session

  const MAX_EPISODE_PAGES := 100
  const MAX_CONSECUTIVE_UNEXPECTED := 10
  const MAX_CONSECUTIVE_DENIED := 5

  // --- what a run did -----------------------------------------------------------------------------

  /** How a claimed task was settled. */
  datatype Outcome = Stored(size: nat) | WasGone | GaveUp(error: string) | WasDenied(error: string)
    | FailedOnce(error: string) | Broke(error: string)

  /** One committed task, in the order of the run. */
  datatype Event = Event(key: Key, outcome: Outcome, firstTry: bool, at: int)

  /** TaskOutcome's status: a failed task counts as failed even when it was its last attempt. */
  function StatusOf(o: Outcome): Status {
    match o
    case Stored(_) => Done
    case WasGone => Gone
    case GaveUp(_) => Dead
    case _ => Failed
  }

  function Settled(t: Task, e: Event): Task {
    match e.outcome
    case Stored(_) => MarkDone(t)
    case WasGone => MarkGone(t)
    case GaveUp(error) => MarkDead(t, error)
    case WasDenied(error) => MarkFailed(t, error, e.at)
    case FailedOnce(error) => MarkFailed(t, error, e.at)
    case Broke(error) => MarkFailed(t, error, e.at)
  }

  /** The committed rows after one more settled task. */
  function Applied(rows: Rows, e: Event): Rows {
    Rows(
      if e.key in rows.tasks then rows.tasks[e.key := Settled(rows.tasks[e.key], e)] else rows.tasks,
      match e.outcome case Stored(size) => rows.index[e.key := IndexRow(size, e.at)] case _ => rows.index)
  }

  /** The committed rows after a run. */
  function AfterAll(rows: Rows, events: seq<Event>): Rows {
    if events == [] then rows else Applied(AfterAll(rows, events[..|events| - 1]), events[|events| - 1])
  }

  // --- totals and stop rules, over the history --------------------------------------------------

  /** The length of the trailing run of denials. */
  function Denials(h: seq<Event>): nat {
    if h == [] || !h[|h| - 1].outcome.WasDenied? then 0 else 1 + Denials(h[..|h| - 1])
  }

  /** The failures in our own code since the last stored response. */
  function Breakages(h: seq<Event>): nat {
    if h == [] || h[|h| - 1].outcome.Stored? then 0
    else Breakages(h[..|h| - 1]) + if h[|h| - 1].outcome.Broke? then 1 else 0
  }

  predicate WithinLimits(h: seq<Event>) {
    Denials(h) < MAX_CONSECUTIVE_DENIED && Breakages(h) < MAX_CONSECUTIVE_UNEXPECTED
  }

  function CountWhere(h: seq<Event>, p: Event -> bool): nat {
    if h == [] then 0 else CountWhere(h[..|h| - 1], p) + if p(h[|h| - 1]) then 1 else 0
  }

  function BytesStored(h: seq<Event>): nat {
    if h == [] then 0
    else BytesStored(h[..|h| - 1]) + match h[|h| - 1].outcome case Stored(size) => size case _ => 0
  }

  /** The run's summary, apart from timings. */
  datatype Totals = Totals(tasks: nat, done: nat, failed: nat, dead: nat, gone: nat,
    firstTry: nat, doneFirstTry: nat, byResource: map<Resource, nat>)

  const NO_TOTALS := Totals(0, 0, 0, 0, 0, 0, 0, map[])

  function Plural(m: map<Resource, nat>, r: Resource): nat { if r in m then m[r] else 0 }

  /** `_record`. */
  function Counted(t: Totals, e: Event): Totals {
    var s := StatusOf(e.outcome);
    Totals(
      t.tasks + 1,
      t.done + if s.Done? then 1 else 0,
      t.failed + if s.Failed? then 1 else 0,
      t.dead + if s.Dead? then 1 else 0,
      t.gone + if s.Gone? then 1 else 0,
      t.firstTry + if e.firstTry then 1 else 0,
      t.doneFirstTry + if s.Done? && e.firstTry then 1 else 0,
      t.byResource[e.key.resource := Plural(t.byResource, e.key.resource) + 1])
  }

  function Are(s: Status): Event -> bool { (e: Event) => StatusOf(e.outcome) == s }
  function On(r: Resource): Event -> bool { (e: Event) => e.key.resource == r }
  predicate WasFirstTry(e: Event) { e.firstTry }
  predicate WasDoneFirstTry(e: Event) { e.firstTry && StatusOf(e.outcome).Done? }

  /** The totals say exactly what happened. */
  predicate TotalsOf(t: Totals, h: seq<Event>) {
    t.tasks == |h| &&
    t.done == CountWhere(h, Are(Done)) && t.failed == CountWhere(h, Are(Failed)) &&
    t.dead == CountWhere(h, Are(Dead)) && t.gone == CountWhere(h, Are(Gone)) &&
    t.firstTry == CountWhere(h, WasFirstTry) && t.doneFirstTry == CountWhere(h, WasDoneFirstTry) &&
    forall r: Resource :: Plural(t.byResource, r) == CountWhere(h, On(r))
  }

  /** tasks = done + failed + dead + gone = the sum over the resources. */
  predicate AddsUp(t: Totals) {
    t.tasks == t.done + t.failed + t.dead + t.gone &&
    t.tasks == Plural(t.byResource, Characters) + Plural(t.byResource, Details) + Plural(t.byResource, Episodes)
      + Plural(t.byResource, Reviews) + Plural(t.byResource, Statistics)
  }

  lemma CountedOnce(t: Totals, h: seq<Event>, e: Event)
    requires TotalsOf(t, h)
    ensures TotalsOf(Counted(t, e), h + [e])
  {
  }

  lemma {:induction false} Partition(h: seq<Event>)
    ensures CountWhere(h, Are(Done)) + CountWhere(h, Are(Failed)) + CountWhere(h, Are(Dead))
      + CountWhere(h, Are(Gone)) == |h|
    ensures CountWhere(h, On(Characters)) + CountWhere(h, On(Details)) + CountWhere(h, On(Episodes))
      + CountWhere(h, On(Reviews)) + CountWhere(h, On(Statistics)) == |h|
  {
    if h != [] {
      Partition(h[..|h| - 1]);
      var e := h[|h| - 1];
      assert e.key.resource in {Characters, Details, Episodes, Reviews, Statistics};
    }
  }

  /** Totals that say what happened add up. */
  lemma TotalsAddUp(t: Totals, h: seq<Event>)
    requires TotalsOf(t, h)
    ensures AddsUp(t)
  {
    Partition(h);
  }

  // --- fetching one task --------------------------------------------------------------------------

  /** What `_fetch` returns or raises. */
  datatype Fetched = Got(response: Response) | Raises(answer: Answer)

  /** Between the calls `n` and `n'` every page was read, in order, until the first that is the last
      one, that fails, or that is one too many. */
  predicate EpisodesRead(answers: nat -> Answer, n: nat, n': nat, f: Fetched) {
    n < n' <= n + 100 &&
    (forall i | n <= i < n' - 1 :: answers(i).Page? && answers(i).hasNext) &&
    match answers(n' - 1)
    case Page(_, false) => f == Got(Pages(Bodies(answers, n, n')))
    case Page(_, true) => n' == n + 100 && f.Raises? && f.answer.PermanentError?
    case other => f == Raises(other)
  }

  /** The bodies of the pages from call `n` to call `n'`. */
  function Bodies(answers: nat -> Answer, n: nat, n': nat): seq<string>
    requires n <= n' && forall i | n <= i < n' :: answers(i).Page?
  {
    seq(n' - n, i requires 0 <= i < n' - n => answers(n + i).body)
  }

  /** Episodes page by page, the others in one call; nothing fetches characters. */
  predicate FetchedBy(resource: Resource, answers: nat -> Answer, n: nat, n': nat, f: Fetched) {
    match resource
    case Episodes => EpisodesRead(answers, n, n', f)
    case Characters => n' == n && f.Raises? && f.answer.PermanentError?
    case _ => n' == n + 1 && f == match answers(n) case Page(body, _) => Got(One(body)) case other => Raises(other)
  }

  /** What becomes of a task, unless the run stops. */
  function OutcomeOf(f: Fetched, size: nat): Option<Outcome> {
    match f
    case Got(_) => Some(Stored(size))
    case Raises(GoneError) => Some(WasGone)
    case Raises(PermanentError(m)) => Some(GaveUp(m))
    case Raises(AccessDenied(m)) => Some(WasDenied(m))
    case Raises(TransientError(m)) => Some(FailedOnce(m))
    case Raises(Unexpected(m)) => Some(Broke(m))
    case _ => None
  }

  datatype Cause = CircuitIsOpen | StoreFailed | DatabaseFailed | WasInterrupted | TooManyUnexpected | TooManyDenied

  datatype TaskResult = NothingClaimable | Handled(event: Event) | StoppedBy(cause: Cause)

  /** What the environment does while one task is processed. */
  datatype World = World(now: int, putFails: bool, writeFails: bool, commit: CommitFault)

  // --- ledger, index and store ----------------------------------------------------------------------

  /** A done task has an index row with the size of the stored object, and every index row an object. */
  ghost predicate DataIsThere(rows: Rows, objects: map<Key, Response>, sizeOf: Response -> nat) {
    (forall k | k in rows.index :: k in objects) &&
    (forall k | k in rows.tasks && rows.tasks[k].status.Done? ::
      k in rows.index && rows.index[k].sizeBytes == sizeOf(objects[k]))
  }

  /** Overwriting the object of a task that is not done does no harm... */
  lemma PutIsHarmless(rows: Rows, objects: map<Key, Response>, sizeOf: Response -> nat, k: Key, r: Response)
    requires DataIsThere(rows, objects, sizeOf) && k in rows.tasks && !rows.tasks[k].status.Done?
    ensures DataIsThere(rows, objects[k := r], sizeOf)
  {
  }

  /** ...and settling it keeps the agreement, if the object was stored first. */
  lemma SettlingAgrees(rows: Rows, objects: map<Key, Response>, sizeOf: Response -> nat, e: Event)
    requires DataIsThere(rows, objects, sizeOf) && e.key in rows.tasks
    requires e.outcome.Stored? ==> e.key in objects && sizeOf(objects[e.key]) == e.outcome.size
    ensures DataIsThere(Applied(rows, e), objects, sizeOf)
  {
  }

  lemma SettlingUsesAnAttempt(rows: Rows, e: Event)
    requires AllWellFormed(rows.tasks) && e.key in rows.tasks && Unfinished(rows.tasks[e.key])
    ensures AllWellFormed(Applied(rows, e).tasks) && Absorbs(rows.tasks, Applied(rows, e).tasks)
    ensures AttemptsLeft(Applied(rows, e).tasks) < AttemptsLeft(rows.tasks)
  {
    var t := rows.tasks[e.key];
    match e.outcome {
      case Stored(_) => OutcomesAreSteps(t, "", e.at);
      case WasGone => OutcomesAreSteps(t, "", e.at);
      case GaveUp(error) => OutcomesAreSteps(t, error, e.at);
      case WasDenied(error) => OutcomesAreSteps(t, error, e.at);
      case FailedOnce(error) => OutcomesAreSteps(t, error, e.at);
      case Broke(error) => OutcomesAreSteps(t, error, e.at);
    }
    OutcomeUsesAnAttempt(rows.tasks, e.key, Settled(t, e));
  }

  /** Whatever one task comes to, the data of the done tasks is there. */
  lemma DataStaysThere(rows: Rows, objects: map<Key, Response>, sizeOf: Response -> nat, w: World, f: Fetched,
                       e: Option<Event>)
    requires ClaimNext(rows.tasks, {}, w.now).Some?
    requires e.Some? ==>
      Some(e.value.key) == ClaimNext(rows.tasks, {}, w.now) && (f.Got? ==> !w.putFails) &&
      Some(e.value.outcome) == OutcomeOf(f, if f.Got? then sizeOf(f.response) else 0)
    ensures var key := ClaimNext(rows.tasks, {}, w.now).value;
      var after := if f.Got? && !w.putFails then objects[key := f.response] else objects;
      DataIsThere(rows, objects, sizeOf) ==>
        DataIsThere(if e.Some? then Applied(rows, e.value) else rows, after, sizeOf)
  {
    ClaimIsFirst(rows.tasks, {}, w.now);
    var key := ClaimNext(rows.tasks, {}, w.now).value;
    if DataIsThere(rows, objects, sizeOf) {
      var after := if f.Got? && !w.putFails then objects[key := f.response] else objects;
      if f.Got? && !w.putFails {
        PutIsHarmless(rows, objects, sizeOf, key, f.response);
      }
      if e.Some? {
        SettlingAgrees(rows, after, sizeOf, e.value);
      }
    }
  }

  lemma AfterOneMore(rows: Rows, h: seq<Event>, e: Event)
    ensures AfterAll(rows, h + [e]) == Applied(AfterAll(rows, h), e)
  {
  }

  function With(h: seq<Event>, e: Option<Event>): seq<Event> {
    if e.Some? then h + [e.value] else h
  }

  /** Before every claim the counters were within the limits. */
  predicate ClaimedWithinLimits(h: seq<Event>) {
    forall n | 0 <= n < |h| :: WithinLimits(h[..n])
  }

  lemma OneMoreClaim(h: seq<Event>, e: Event)
    requires ClaimedWithinLimits(h) && WithinLimits(h)
    ensures ClaimedWithinLimits(h + [e])
    ensures Breakages(h + [e]) <= MAX_CONSECUTIVE_UNEXPECTED && Denials(h + [e]) <= MAX_CONSECUTIVE_DENIED
  {
    assert (h + [e])[..|h|] == h;
    forall n | 0 <= n < |h| + 1 ensures WithinLimits((h + [e])[..n]) {
      if n < |h| { assert (h + [e])[..n] == h[..n]; }
    }
  }

  /** The rows after the settled tasks `h`, of which nothing is lost: if the data of the done tasks
      was there at the start (`data`), it still is. */
  ghost predicate RowsFine(rows0: Rows, data: bool, h: seq<Event>, rows: Rows, objects: map<Key, Response>,
                           sizeOf: Response -> nat) {
    rows == AfterAll(rows0, h) && AllWellFormed(rows.tasks) && Absorbs(rows0.tasks, rows.tasks) &&
    ClaimedWhenDue(rows0, h) && (data ==> DataIsThere(rows, objects, sizeOf))
  }

  lemma RowsStayFine(rows0: Rows, data: bool, h: seq<Event>, rows: Rows, objects: map<Key, Response>,
                     sizeOf: Response -> nat, w: World, f: Fetched, e: Option<Event>)
    requires RowsFine(rows0, data, h, rows, objects, sizeOf) && ClaimNext(rows.tasks, {}, w.now).Some?
    requires e.Some? ==>
      Some(e.value.key) == ClaimNext(rows.tasks, {}, w.now) && (f.Got? ==> !w.putFails) &&
      Some(e.value.outcome) == OutcomeOf(f, if f.Got? then sizeOf(f.response) else 0) && e.value.at == w.now
    ensures var key := ClaimNext(rows.tasks, {}, w.now).value;
      RowsFine(rows0, data, With(h, e), if e.Some? then Applied(rows, e.value) else rows,
        if f.Got? && !w.putFails then objects[key := f.response] else objects, sizeOf)
    ensures e.Some? ==> AttemptsLeft(Applied(rows, e.value).tasks) < AttemptsLeft(rows.tasks)
  {
    ClaimIsFirst(rows.tasks, {}, w.now);
    DataStaysThere(rows, objects, sizeOf, w, f, e);
    if e.Some? {
      SettlingUsesAnAttempt(rows, e.value);
      AfterOneMore(rows0, h, e.value);
      OneMoreDue(rows0, h, e.value);
    }
  }

  /** Finished, or waiting for its retry time. */
  predicate AtRest(t: Task, now: int) {
    t.status == Done || t.status == Dead || t.status == Gone ||
    (t.status == Status.Failed && t.nextAttemptAt.Some? && t.nextAttemptAt.value > now)
  }

  lemma NothingDue(l: Tasks, now: int)
    requires AllWellFormed(l) && forall k | k in l :: IsNotDue(l[k], now)
    ensures forall k | k in l :: AtRest(l[k], now)
  {
    forall k | k in l ensures AtRest(l[k], now) {
      assert WellFormed(l[k]);
    }
  }

  // --- when a task is claimed again -----------------------------------------------------------------

  /** Every task of the history was due when it was claimed. */
  predicate ClaimedWhenDue(rows0: Rows, h: seq<Event>) {
    forall n | 0 <= n < |h| :: WasDue(AfterAll(rows0, h[..n]), h[n])
  }

  predicate WasDue(rows: Rows, e: Event) {
    e.key in rows.tasks && !IsNotDue(rows.tasks[e.key], e.at)
  }

  lemma OneMoreDue(rows0: Rows, h: seq<Event>, e: Event)
    requires ClaimedWhenDue(rows0, h) && WasDue(AfterAll(rows0, h), e)
    ensures ClaimedWhenDue(rows0, h + [e])
  {
    forall n | 0 <= n < |h| + 1 ensures WasDue(AfterAll(rows0, (h + [e])[..n]), (h + [e])[n]) {
      if n < |h| {
        assert (h + [e])[..n] == h[..n] && (h + [e])[n] == h[n];
      } else {
        assert (h + [e])[..n] == h;
      }
    }
  }

  function About(k: Key): Event -> bool { (e: Event) => e.key == k }

  /** A task that is not finished, with `n` attempts. */
  predicate TriedOrFinished(l: Tasks, k: Key, n: nat) {
    k in l && (Unfinished(l[k]) ==> l[k].attempts == n)
  }

  lemma OneMoreAttempt(rows: Rows, e: Event, after: Rows, k: Key, n: nat, n': nat)
    requires AllWellFormed(rows.tasks) && WasDue(rows, e) && TriedOrFinished(rows.tasks, k, n)
    requires after == Applied(rows, e) && n' == n + if e.key == k then 1 else 0
    ensures AllWellFormed(after.tasks) && TriedOrFinished(after.tasks, k, n')
  {
    SettlingUsesAnAttempt(rows, e);
    SettledOrTried(rows.tasks[e.key], e);
    OnlyThisTask(rows, e, Settled(rows.tasks[e.key], e));
  }

  lemma SettledOrTried(t: Task, e: Event)
    requires WellFormed(t) && Unfinished(t)
    ensures Unfinished(Settled(t, e)) ==> Settled(t, e).attempts == t.attempts + 1
  {
  }

  lemma OnlyThisTask(rows: Rows, e: Event, t': Task)
    requires e.key in rows.tasks && t' == Settled(rows.tasks[e.key], e)
    ensures Applied(rows, e).tasks == rows.tasks[e.key := t']
  {
  }

  lemma CountOneMore(h: seq<Event>, init: seq<Event>, e: Event, p: Event -> bool)
    requires h == init + [e]
    ensures CountWhere(h, p) == CountWhere(init, p) + if p(e) then 1 else 0
  {
    assert h[..|h| - 1] == init;
  }

  /** The attempts a task had before the run, and its events in the run. */
  function FailuresOf(rows0: Rows, h: seq<Event>, k: Key): nat
    requires k in rows0.tasks
  {
    rows0.tasks[k].attempts + CountWhere(h, About(k))
  }

  /** Not before 60 times two to the number of failures in seconds have passed, and never after three. */
  predicate IsRetryTime(at: int, failedAt: int, failures: nat) {
    failures < 3 && at >= failedAt + 60 * TwoTo(failures)
  }

  /** As long as a task is not finished, each of its events was a failed attempt. */
  lemma {:induction false} AttemptsAreCounted(rows0: Rows, h: seq<Event>, n: nat, k: Key)
    requires AllWellFormed(rows0.tasks) && ClaimedWhenDue(rows0, h) && n <= |h| && k in rows0.tasks
    ensures AllWellFormed(AfterAll(rows0, h[..n]).tasks)
    ensures TriedOrFinished(AfterAll(rows0, h[..n]).tasks, k, FailuresOf(rows0, h[..n], k))
  {
    if n > 0 {
      var before, after := AfterAll(rows0, h[..n - 1]), AfterAll(rows0, h[..n]);
      AttemptsAreCounted(rows0, h, n - 1, k);
      WasDueAt(rows0, h, n - 1, before);
      NextRows(rows0, h, n - 1, before, after);
      NextCount(rows0, h, n - 1, k);
      OneMoreAttempt(before, h[n - 1], after, k, FailuresOf(rows0, h[..n - 1], k), FailuresOf(rows0, h[..n], k));
    }
  }

  lemma NextCount(rows0: Rows, h: seq<Event>, i: nat, k: Key)
    requires i < |h| && k in rows0.tasks
    ensures FailuresOf(rows0, h[..i + 1], k) == FailuresOf(rows0, h[..i], k) + if h[i].key == k then 1 else 0
  {
    CountOneMore(h[..i + 1], h[..i], h[i], About(k));
  }

  lemma {:induction false} OthersEvents(rows0: Rows, h: seq<Event>, i: nat, j: nat, k: Key)
    requires i <= j <= |h| && forall m | i <= m < j :: h[m].key != k
    ensures k in AfterAll(rows0, h[..i]).tasks <==> k in AfterAll(rows0, h[..j]).tasks
    ensures k in AfterAll(rows0, h[..i]).tasks ==>
      AfterAll(rows0, h[..i]).tasks[k] == AfterAll(rows0, h[..j]).tasks[k]
  {
    if i < j {
      OthersEvents(rows0, h, i, j - 1, k);
      assert h[..j][..j - 1] == h[..j - 1];
    }
  }

  /** A task is claimed again only after a failure that was not its third, and then not before 60 times
      two to the number of its failures in seconds have passed. */
  lemma RetriesWait(rows0: Rows, h: seq<Event>, i: nat, j: nat)
    requires AllWellFormed(rows0.tasks) && ClaimedWhenDue(rows0, h)
    requires i < j < |h| && h[i].key == h[j].key && forall m | i < m < j :: h[m].key != h[i].key
    ensures h[i].key in rows0.tasks
    ensures h[i].outcome.WasDenied? || h[i].outcome.FailedOnce? || h[i].outcome.Broke?
    ensures IsRetryTime(h[j].at, h[i].at, FailuresOf(rows0, h[..i + 1], h[i].key))
  {
    var k, before := h[i].key, AfterAll(rows0, h[..i]);
    var after, later := AfterAll(rows0, h[..i + 1]), AfterAll(rows0, h[..j]);
    WasDueAt(rows0, h, i, before);
    WasDueAt(rows0, h, j, later);
    TasksStay(rows0, h[..i]);
    NextRows(rows0, h, i, before, after);
    AttemptsAreCounted(rows0, h, i, k);
    AttemptsAreCounted(rows0, h, i + 1, k);
    OthersEvents(rows0, h, i + 1, j, k);
    FailedTimes(before, h[i], after, h[j].at, FailuresOf(rows0, h[..i + 1], k));
  }

  lemma FailedTimes(rows: Rows, e: Event, after: Rows, later: int, failures: nat)
    requires e.key in rows.tasks && WellFormed(rows.tasks[e.key]) && Unfinished(rows.tasks[e.key])
    requires after == Applied(rows, e) && !IsNotDue(after.tasks[e.key], later)
    requires TriedOrFinished(after.tasks, e.key, failures)
    ensures e.outcome.WasDenied? || e.outcome.FailedOnce? || e.outcome.Broke?
    ensures IsRetryTime(later, e.at, failures)
  {
    RetryIsLater(rows, e, after, later);
  }

  lemma WasDueAt(rows0: Rows, h: seq<Event>, n: nat, rows: Rows)
    requires ClaimedWhenDue(rows0, h) && n < |h| && rows == AfterAll(rows0, h[..n])
    ensures WasDue(rows, h[n])
  {
  }

  lemma NextRows(rows0: Rows, h: seq<Event>, n: nat, before: Rows, after: Rows)
    requires n < |h| && before == AfterAll(rows0, h[..n]) && after == AfterAll(rows0, h[..n + 1])
    ensures after == Applied(before, h[n])
  {
    assert h[..n + 1] == h[..n] + [h[n]];
    AfterOneMore(rows0, h[..n], h[n]);
  }

  lemma {:induction false} TasksStay(rows0: Rows, h: seq<Event>)
    ensures AfterAll(rows0, h).tasks.Keys == rows0.tasks.Keys
  {
    if h != [] { TasksStay(rows0, h[..|h| - 1]); }
  }

  lemma RetryIsLater(rows: Rows, e: Event, after: Rows, later: int)
    requires e.key in rows.tasks && WellFormed(rows.tasks[e.key]) && Unfinished(rows.tasks[e.key])
    requires after == Applied(rows, e) && !IsNotDue(after.tasks[e.key], later)
    ensures e.outcome.WasDenied? || e.outcome.FailedOnce? || e.outcome.Broke?
    ensures var t' := after.tasks[e.key];
      Unfinished(t') && t'.attempts < 3 && later >= e.at + 60 * TwoTo(t'.attempts)
  {
    var t := rows.tasks[e.key];
    assert after.tasks[e.key] == Settled(t, e);
    match e.outcome
    case Stored(_) =>
    case WasGone =>
    case GaveUp(_) =>
    case WasDenied(error) => BackoffDoubles(t, error, e.at);
    case FailedOnce(error) => BackoffDoubles(t, error, e.at);
    case Broke(error) => BackoffDoubles(t, error, e.at);
  }

  // --- what an answer does to a task ----------------------------------------------------------------

  /** The first 500 characters. */
  predicate IsStartOf(kept: Option<string>, error: string) {
    kept == Some(if |error| > 500 then error[..500] else error)
  }

  /** A failed attempt: the third one is the last, after the others the task waits. */
  predicate TookAnAttempt(t: Task, t': Task, error: string, at: int) {
    t'.attempts == t.attempts + 1 && IsStartOf(t'.lastError, error) &&
    if t.attempts >= 2 then t'.status == Dead && t'.nextAttemptAt == None
    else t'.status == Status.Failed && t'.nextAttemptAt == Some(at + 60 * TwoTo(t.attempts + 1))
  }

  /** Which answers finish a task, and how; which use an attempt; and which leave it as it was. The
      index row is written exactly when there is a response. */
  lemma AnswerDecides(rows: Rows, k: Key, f: Fetched, size: nat, firstTry: bool, at: int)
    requires k in rows.tasks && WellFormed(rows.tasks[k]) && Unfinished(rows.tasks[k])
    ensures (f == Raises(CircuitOpen) || f == Raises(Interrupted) || (f.Raises? && f.answer.Page?)) <==>
      OutcomeOf(f, size) == None
    ensures OutcomeOf(f, size).Some? ==>
      var e := Event(k, OutcomeOf(f, size).value, firstTry, at);
      var t, after := rows.tasks[k], Applied(rows, e);
      var t' := after.tasks[k];
      after.tasks == rows.tasks[k := t'] &&
      after.index == (if f.Got? then rows.index[k := IndexRow(size, at)] else rows.index) &&
      match f
      case Got(_) => t' == Task(Done, t.attempts, None, None) && StatusOf(e.outcome) == Done
      case Raises(GoneError) => t' == Task(Gone, t.attempts, None, t.lastError) && StatusOf(e.outcome) == Gone
      case Raises(PermanentError(m)) =>
        t' == Task(Dead, t.attempts + 1, None, t'.lastError) && IsStartOf(t'.lastError, m) &&
        StatusOf(e.outcome) == Dead
      case Raises(AccessDenied(m)) => TookAnAttempt(t, t', m, at) && StatusOf(e.outcome) == Status.Failed
      case Raises(TransientError(m)) => TookAnAttempt(t, t', m, at) && StatusOf(e.outcome) == Status.Failed
      case Raises(Unexpected(m)) => TookAnAttempt(t, t', m, at) && StatusOf(e.outcome) == Status.Failed
  {
    var t := rows.tasks[k];
    match f
    case Raises(AccessDenied(m)) => BackoffDoubles(t, m, at);
    case Raises(TransientError(m)) => BackoffDoubles(t, m, at);
    case Raises(Unexpected(m)) => BackoffDoubles(t, m, at);
    case _ =>
  }

  ghost predicate SumsOf(totals: Totals, bytes: nat, h: seq<Event>) {
    TotalsOf(totals, h) && bytes == BytesStored(h)
  }

  predicate CountersOf(denied: nat, unexpected: nat, h: seq<Event>) {
    denied == Denials(h) && unexpected == Breakages(h)
  }

  predicate CountersMoved(o: Outcome, denied: nat, unexpected: nat, denied': nat, unexpected': nat) {
    denied' == (if o.WasDenied? then denied + 1 else 0) &&
    unexpected' == (if o.Stored? then 0 else unexpected + if o.Broke? then 1 else 0)
  }

  lemma CountersMoveOn(h: seq<Event>, e: Event, denied: nat, unexpected: nat, denied': nat, unexpected': nat)
    requires CountersOf(denied, unexpected, h) && CountersMoved(e.outcome, denied, unexpected, denied', unexpected')
    ensures CountersOf(denied', unexpected', h + [e])
  {
  }

  lemma SummedOnce(h: seq<Event>, e: Event, totals: Totals, bytes: nat, bytes': nat)
    requires SumsOf(totals, bytes, h)
    requires bytes' == bytes + if e.outcome.Stored? then e.outcome.size else 0
    ensures SumsOf(Counted(totals, e), bytes', h + [e])
  {
    CountedOnce(totals, h, e);
  }

  lemma NothingFetched(rows: Rows, data: bool, objects: map<Key, Response>, sizeOf: Response -> nat, h: seq<Event>,
                       totals: Totals)
    requires AllWellFormed(rows.tasks) && (data ==> DataIsThere(rows, objects, sizeOf))
    requires h == [] && totals == NO_TOTALS
    ensures RowsFine(rows, data, h, rows, objects, sizeOf)
    ensures SumsOf(totals, 0, h) && CountersOf(0, 0, h) && ClaimedWithinLimits(h) && WithinLimits(h)
  {
  }

  class FetchAnimeJob {
    const tasks: TaskRepository
    const raw: RawTenraiRepository
    const store: RawStore
    const adapter: Adapter
    var rawBytes: nat
    var unexpectedInARow: nat
    var deniedInARow: nat
    var summary: Totals

    constructor (tasks: TaskRepository, raw: RawTenraiRepository, store: RawStore, adapter: Adapter)
      ensures this.tasks == tasks && this.raw == raw && this.store == store && this.adapter == adapter
    {
      this.tasks, this.raw, this.store, this.adapter := tasks, raw, store, adapter;
      rawBytes, unexpectedInARow, deniedInARow := 0, 0, 0;
      summary := NO_TOTALS;
    }

    /** Every episodes page; nothing when one fails. */
    method FetchEpisodes() returns (f: Fetched)
      modifies adapter
      ensures EpisodesRead(adapter.answers, old(adapter.calls), adapter.calls, f)
    {
      ghost var n := adapter.calls;
      var pages := [];
      var page := 1;
      while true
        invariant 1 <= page <= MAX_EPISODE_PAGES && adapter.calls == n + page - 1
        invariant forall i | n <= i < adapter.calls :: adapter.answers(i).Page? && adapter.answers(i).hasNext
        invariant pages == Bodies(adapter.answers, n, adapter.calls)
        decreases MAX_EPISODE_PAGES - page
      {
        var a := adapter.Get();
        if !a.Page? { return Raises(a); }
        pages := pages + [a.body];
        assert pages == Bodies(adapter.answers, n, adapter.calls);
        if !a.hasNext { return Got(Pages(pages)); }
        page := page + 1;
        if page > MAX_EPISODE_PAGES {
          return Raises(PermanentError("episodes still paging"));
        }
      }
    }

    method Fetch(key: Key) returns (f: Fetched)
      modifies adapter
      ensures FetchedBy(key.resource, adapter.answers, old(adapter.calls), adapter.calls, f)
    {
      match key.resource {
        case Episodes => f := FetchEpisodes();
        case Characters => f := Raises(PermanentError("no fetcher for resource characters"));
        case _ =>
          var a := adapter.Get();
          f := if a.Page? then Got(One(a.body)) else Raises(a);
      }
    }

    predicate Ready()
      reads tasks.db
    {
      tasks.db == raw.db && tasks.db.saved == tasks.db.work
    }

    /** Fetch the response and store it. The counters follow what was answered; a stored response
        resets them only if its index row and its task could be written. */
    method FetchAndStore(key: Key, w: World) returns (settled: Option<Outcome>, cause: Cause, ghost f: Fetched)
      modifies store, adapter, this`unexpectedInARow, this`deniedInARow
      ensures FetchedBy(key.resource, adapter.answers, old(adapter.calls), adapter.calls, f)
      ensures settled
           == if f.Got? && w.putFails then None else OutcomeOf(f, if f.Got? then store.sizeOf(f.response) else 0)
      ensures store.objects
           == if f.Got? && !w.putFails then old(store.objects)[key := f.response] else old(store.objects)
      ensures settled.None? ==>
        cause == if f.Got? then StoreFailed else if f.answer.CircuitOpen? then CircuitIsOpen else WasInterrupted
      ensures settled.Some? && !w.writeFails ==> CountersAfter(settled.value, old(deniedInARow), old(unexpectedInARow))
    {
      var fetched := Fetch(key);
      f, cause := fetched, WasInterrupted;
      match fetched {
        case Got(response) =>
          var ok, size := store.Put(key, response, w.putFails);
          if !ok { return None, StoreFailed, f; }
          settled := Some(Stored(size));
          if !w.writeFails { unexpectedInARow, deniedInARow := 0, 0; }
        case Raises(answer) =>
          match answer {
            case GoneError => settled, deniedInARow := Some(WasGone), 0;
            case PermanentError(m) => settled, deniedInARow := Some(GaveUp(m)), 0;
            case AccessDenied(m) => settled, deniedInARow := Some(WasDenied(m)), deniedInARow + 1;
            case TransientError(m) => settled, deniedInARow := Some(FailedOnce(m)), 0;
            case Unexpected(m) => settled, deniedInARow, unexpectedInARow := Some(Broke(m)), 0, unexpectedInARow + 1;
            case CircuitOpen => settled, cause := None, CircuitIsOpen;
            case _ => settled := None;
          }
      }
    }

    /** Index row and task state in one transaction. */
    method Save(e: Event, task: Task, w: World) returns (ok: bool)
      requires Ready() && e.key in tasks.db.saved.tasks && tasks.db.saved.tasks[e.key] == task && e.at == w.now
      modifies tasks.db
      ensures Ready() && ok == (!w.writeFails && w.commit.NoFault?)
      ensures ok ==> tasks.db.saved == Applied(old(tasks.db.saved), e)
      ensures tasks.db.saved == old(tasks.db.saved) || tasks.db.saved == Applied(old(tasks.db.saved), e)
    {
      if w.writeFails {
        tasks.db.Rollback();
        return false;
      }
      if e.outcome.Stored? { raw.Upsert(e.key, e.outcome.size, w.now); }
      tasks.Set(e.key, Settled(task, e));
      ok := tasks.db.Commit(w.commit);
    }

    /** The next claimable task: fetched, stored, then index row and task state committed together.
        Stopping leaves the ledger as it was, or as one unanswered commit made it. */
    method FetchJobFromTasks(w: World) returns (r: TaskResult, ghost f: Fetched, ghost e: Option<Event>)
      requires Ready()
      modifies tasks.db, store, adapter, this`rawBytes, this`unexpectedInARow, this`deniedInARow
      ensures Ready()
      ensures r.NothingClaimable? <==> ClaimNext(old(tasks.db.saved.tasks), {}, w.now).None?
      ensures r.NothingClaimable? ==>
        store.objects == old(store.objects) && e.None? &&
        deniedInARow == old(deniedInARow) && unexpectedInARow == old(unexpectedInARow)
      ensures !r.NothingClaimable? ==>
        var key := ClaimNext(old(tasks.db.saved.tasks), {}, w.now).value;
        FetchedBy(key.resource, adapter.answers, old(adapter.calls), adapter.calls, f) &&
        store.objects == if f.Got? && !w.putFails then old(store.objects)[key := f.response] else old(store.objects)
      ensures e.Some? ==> SettledAs(e.value, w, old(tasks.db.saved), f)
      ensures tasks.db.saved == if e.Some? then Applied(old(tasks.db.saved), e.value) else old(tasks.db.saved)
      ensures r.Handled? ==>
        e == Some(r.event) && CountersAfter(r.event.outcome, old(deniedInARow), old(unexpectedInARow))
      ensures r.StoppedBy? ==>
        !r.cause.TooManyUnexpected? && !r.cause.TooManyDenied? && (e.Some? ==> r.cause.DatabaseFailed?) &&
        (f.Got? && w.putFails <==> r.cause.StoreFailed?) && (f == Raises(CircuitOpen) <==> r.cause.CircuitIsOpen?)
      ensures rawBytes == old(rawBytes) + if r.Handled? && r.event.outcome.Stored? then r.event.outcome.size else 0
    {
      e := None;
      var claimed := tasks.Claim(w.now, {});
      if claimed.None? { return NothingClaimable, Raises(Interrupted), None; }
      var key := claimed.value;
      ClaimIsFirst(tasks.db.work.tasks, {}, w.now);
      var task := tasks.db.work.tasks[key];
      var settled, cause;
      settled, cause, f := FetchAndStore(key, w);
      if settled.None? {
        tasks.db.Rollback();
        return StoppedBy(cause), f, None;
      }
      var event := Event(key, settled.value, task.attempts == 0, w.now);
      ghost var before := tasks.db.saved;
      var ok := Save(event, task, w);
      if !ok {
        return StoppedBy(DatabaseFailed), f, if tasks.db.saved == before then None else Some(event);
      }
      if settled.value.Stored? { rawBytes := rawBytes + settled.value.size; }
      return Handled(event), f, Some(event);
    }

    /** The event is about the task that was claimed, and says what the answers say. */
    ghost predicate SettledAs(e: Event, w: World, before: Rows, f: Fetched)
      reads this, store
    {
      Some(e.key) == ClaimNext(before.tasks, {}, w.now) && e.at == w.now &&
      e.key in before.tasks && !IsNotDue(before.tasks[e.key], w.now) &&
      e.firstTry == (before.tasks[e.key].attempts == 0) &&
      Some(e.outcome) == OutcomeOf(f, if f.Got? then store.sizeOf(f.response) else 0) && (f.Got? ==> !w.putFails)
    }

    /** The totals of the run say what happened to the settled tasks `h`, and no more. */
    ghost predicate SummedUp(h: seq<Event>)
      reads this`summary, this`rawBytes
    {
      SumsOf(summary, rawBytes, h)
    }

    /** Every counter and total is a function of the history. */
    ghost predicate Accounted(h: seq<Event>)
      reads this
    {
      SumsOf(summary, rawBytes, h) && CountersOf(deniedInARow, unexpectedInARow, h)
    }

    /** The counters after an outcome. */
    predicate CountersAfter(o: Outcome, denied: nat, unexpected: nat)
      reads this`deniedInARow, this`unexpectedInARow
    {
      CountersMoved(o, denied, unexpected, deniedInARow, unexpectedInARow)
    }

    ghost predicate RowsAre(rows0: Rows, data: bool, h: seq<Event>)
      reads tasks.db, store
    {
      RowsFine(rows0, data, h, tasks.db.saved, store.objects, store.sizeOf)
    }

    /** One more task: what the rows have come to, and that the totals are not yet moved. */
    method NextTask(w: World, ghost rows0: Rows, ghost data: bool, ghost h: seq<Event>)
      returns (r: TaskResult, ghost e: Option<Event>)
      requires Ready() && RowsAre(rows0, data, h)
      modifies tasks.db, store, adapter, this`rawBytes, this`unexpectedInARow, this`deniedInARow
      ensures Ready() && RowsAre(rows0, data, With(h, e))
      ensures r.NothingClaimable? ==>
        e.None? && rawBytes == old(rawBytes) &&
        deniedInARow == old(deniedInARow) && unexpectedInARow == old(unexpectedInARow) &&
        forall k | k in tasks.db.saved.tasks :: AtRest(tasks.db.saved.tasks[k], w.now)
      ensures r.Handled? ==>
        e == Some(r.event) && CountersAfter(r.event.outcome, old(deniedInARow), old(unexpectedInARow)) &&
        rawBytes == old(rawBytes) + (if r.event.outcome.Stored? then r.event.outcome.size else 0) &&
        AttemptsLeft(tasks.db.saved.tasks) < AttemptsLeft(old(tasks.db.saved.tasks))
      ensures r.StoppedBy? ==>
        !r.cause.TooManyUnexpected? && !r.cause.TooManyDenied? && (e.Some? ==> r.cause.DatabaseFailed?) &&
        rawBytes == old(rawBytes)
    {
      ghost var rows, objects := tasks.db.saved, store.objects;
      ghost var f;
      r, f, e := FetchJobFromTasks(w);
      ClaimIsFirst(rows.tasks, {}, w.now);
      if r.NothingClaimable? {
        NothingDue(rows.tasks, w.now);
      } else {
        RowsStayFine(rows0, data, h, rows, objects, store.sizeOf, w, f, e);
      }
    }

    method Count(e: Event, ghost h: seq<Event>, ghost bytes: nat, ghost denied: nat, ghost unexpected: nat)
      requires SumsOf(summary, bytes, h) && CountersOf(denied, unexpected, h)
      requires rawBytes == bytes + if e.outcome.Stored? then e.outcome.size else 0
      requires CountersAfter(e.outcome, denied, unexpected)
      modifies this`summary
      ensures Accounted(h + [e])
    {
      SummedOnce(h, e, summary, bytes, rawBytes);
      CountersMoveOn(h, e, denied, unexpected, deniedInARow, unexpectedInARow);
      summary := Counted(summary, e);
    }

    /** One turn of the loop. */
    method Turn(w: World, ghost rows0: Rows, ghost data: bool, ghost h: seq<Event>)
      returns (r: TaskResult, ghost e: Option<Event>)
      requires Ready() && RowsAre(rows0, data, h) && Accounted(h)
      modifies tasks.db, store, adapter, this`rawBytes, this`unexpectedInARow, this`deniedInARow, this`summary
      ensures Ready() && RowsAre(rows0, data, With(h, e))
      ensures r.NothingClaimable? ==>
        e.None? && Accounted(h) && forall k | k in tasks.db.saved.tasks :: AtRest(tasks.db.saved.tasks[k], w.now)
      ensures r.Handled? ==>
        e == Some(r.event) && Accounted(h + [r.event]) &&
        AttemptsLeft(tasks.db.saved.tasks) < AttemptsLeft(old(tasks.db.saved.tasks))
      ensures r.StoppedBy? ==>
        !r.cause.TooManyUnexpected? && !r.cause.TooManyDenied? && SummedUp(h) &&
        (e.Some? ==> r.cause.DatabaseFailed?)
    {
      ghost var bytes, denied, unexpected := rawBytes, deniedInARow, unexpectedInARow;
      r, e := NextTask(w, rows0, data, h);
      if r.Handled? { Count(r.event, h, bytes, denied, unexpected); }
    }

    /** How a run ends after the settled tasks `h`, and possibly one whose commit was not answered. */
    ghost predicate Ended(rows0: Rows, data: bool, h: seq<Event>, lost: Option<Event>, stopped: Option<Cause>, now: int)
      reads this, tasks.db, store
    {
      Ready() && RowsAre(rows0, data, With(h, lost)) && SummedUp(h) && ClaimedWithinLimits(h) &&
      (lost.Some? ==> stopped == Some(DatabaseFailed)) &&
      (stopped == Some(TooManyUnexpected) <==> Breakages(h) == MAX_CONSECUTIVE_UNEXPECTED) &&
      (stopped == Some(TooManyDenied) <==>
        Denials(h) == MAX_CONSECUTIVE_DENIED && Breakages(h) != MAX_CONSECUTIVE_UNEXPECTED) &&
      (stopped == None ==> forall k | k in tasks.db.saved.tasks :: AtRest(tasks.db.saved.tasks[k], now))
    }

    /** After a settled task: too many of a kind in a row end the run. */
    method CheckLimits(ghost rows0: Rows, ghost data: bool, ghost h: seq<Event>, now: int)
      returns (stopped: Option<Cause>)
      requires Ready() && RowsAre(rows0, data, h) && Accounted(h) && ClaimedWithinLimits(h)
      requires Breakages(h) <= MAX_CONSECUTIVE_UNEXPECTED && Denials(h) <= MAX_CONSECUTIVE_DENIED
      ensures if stopped.None? then WithinLimits(h) else Ended(rows0, data, h, None, stopped, now)
    {
      if unexpectedInARow >= MAX_CONSECUTIVE_UNEXPECTED { return Some(TooManyUnexpected); }
      if deniedInARow >= MAX_CONSECUTIVE_DENIED { return Some(TooManyDenied); }
      return None;
    }

    /** A turn and what it means for the run: it ends, or one more task is settled. */
    method TurnOfRun(w: World, ghost rows0: Rows, ghost data: bool, ghost h: seq<Event>)
      returns (over: bool, stopped: Option<Cause>, ghost h': seq<Event>, ghost lost: Option<Event>)
      requires Ready() && RowsAre(rows0, data, h) && Accounted(h) && ClaimedWithinLimits(h) && WithinLimits(h)
      modifies tasks.db, store, adapter, this`rawBytes, this`unexpectedInARow, this`deniedInARow, this`summary
      ensures over ==> Ended(rows0, data, h', lost, stopped, w.now) && (stopped.None? ==> |h'| == |h|)
      ensures !over ==> Ready() && RowsAre(rows0, data, h') && Accounted(h')
      ensures !over ==> ClaimedWithinLimits(h') && WithinLimits(h') && |h'| == |h| + 1
      ensures !over ==> AttemptsLeft(tasks.db.saved.tasks) < AttemptsLeft(old(tasks.db.saved.tasks))
    {
      var r;
      r, lost := Turn(w, rows0, data, h);
      match r {
        case NothingClaimable =>
          return true, None, h, None;
        case StoppedBy(cause) =>
          return true, Some(cause), h, lost;
        case Handled(event) =>
          OneMoreClaim(h, event);
          h', lost := h + [event], None;
          stopped := CheckLimits(rows0, data, h', w.now);
          over := stopped.Some?;
      }
    }

    /** `fetch_from_tasks`: task after task until none is claimable or the run has to stop. The rows
        are those after the settled tasks `h`, and possibly one whose commit was not answered. */
    method FetchFromTasks(worlds: nat -> World)
      returns (stopped: Option<Cause>, ghost h: seq<Event>, ghost lost: Option<Event>)
      requires Ready() && AllWellFormed(tasks.db.saved.tasks)
      modifies tasks.db, store, adapter, this`rawBytes, this`unexpectedInARow, this`deniedInARow, this`summary
      ensures Ready()
      ensures RowsAre(old(tasks.db.saved), old(DataIsThere(tasks.db.saved, store.objects, store.sizeOf)), With(h, lost))
      ensures lost.Some? ==> stopped == Some(DatabaseFailed)
      ensures SummedUp(h)
      ensures ClaimedWithinLimits(h)
      ensures stopped == Some(TooManyUnexpected) <==> Breakages(h) == 10
      ensures stopped == Some(TooManyDenied) <==> Denials(h) == 5 && Breakages(h) != 10
      ensures stopped == None ==>
        forall k | k in tasks.db.saved.tasks :: AtRest(tasks.db.saved.tasks[k], worlds(|h|).now)
    {
      ghost var rows0, data := tasks.db.saved, DataIsThere(tasks.db.saved, store.objects, store.sizeOf);
      unexpectedInARow, deniedInARow, rawBytes := 0, 0, 0;
      summary := NO_TOTALS;
      ghost var nothing: seq<Event> := [];
      NothingFetched(rows0, data, store.objects, store.sizeOf, nothing, summary);
      stopped, h, lost := FetchUntilStopped(worlds, rows0, data, nothing);
    }

    /** The loop, with its counters at zero. */
    method FetchUntilStopped(worlds: nat -> World, ghost rows0: Rows, ghost data: bool, ghost nothing: seq<Event>)
      returns (stopped: Option<Cause>, ghost h: seq<Event>, ghost lost: Option<Event>)
      requires |nothing| == 0 && Ready() && RowsAre(rows0, data, nothing) && Accounted(nothing)
      requires ClaimedWithinLimits(nothing) && WithinLimits(nothing)
      modifies tasks.db, store, adapter, this`rawBytes, this`unexpectedInARow, this`deniedInARow, this`summary
      ensures Ended(rows0, data, h, lost, stopped, worlds(|h|).now)
    {
      h := nothing;
      var turn := 0;
      while true
        invariant Ready() && RowsAre(rows0, data, h) && Accounted(h) && turn == |h|
        invariant ClaimedWithinLimits(h) && WithinLimits(h)
        decreases AttemptsLeft(tasks.db.saved.tasks)
      {
        var over;
        over, stopped, h, lost := TurnOfRun(worlds(turn), rows0, data, h);
        if over { return; }
        turn := turn + 1;
      }
    }
  }
}
