/** The task ledger: app/ingestion/repository/task_repository.py. */
module Ledger {
  import opened Base

  datatype Status = Pending | Done | Failed | Dead | Gone

  /** A row of `ingestion_task`. Times are in seconds. */
  datatype Task = Task(status: Status, attempts: nat, nextAttemptAt: Option<int>, lastError: Option<string>)

  type Tasks = map<Key, Task>

  const MAX_ATTEMPTS := 3
  const BACKOFF_BASE_SECONDS := 60
  const BACKOFF_CAP_SECONDS := 6 * 3600
  const LAST_ERROR_MAX_CHARS := 500

  /** The column defaults. */
  const NEW_TASK := Task(Pending, 0, None, None)

  function Trimmed(error: string): string {
    if |error| <= LAST_ERROR_MAX_CHARS then error else error[..LAST_ERROR_MAX_CHARS]
  }

  function Delay(attempts: nat): nat {
    var d := BACKOFF_BASE_SECONDS * TwoTo(attempts);
    if d < BACKOFF_CAP_SECONDS then d else BACKOFF_CAP_SECONDS
  }

  // --- transitions of one task ----------------------------------------------------------------

  function MarkDone(t: Task): Task {
    t.(status := Done, nextAttemptAt := None, lastError := None)
  }

  function MarkGone(t: Task): Task {
    t.(status := Gone, nextAttemptAt := None)
  }

  function MarkDead(t: Task, error: string): Task {
    Task(Dead, t.attempts + 1, None, Some(Trimmed(error)))
  }

  function MarkFailed(t: Task, error: string, now: int): Task {
    var attempts := t.attempts + 1;
    if attempts >= MAX_ATTEMPTS then Task(Dead, attempts, None, Some(Trimmed(error)))
    else Task(Failed, attempts, Some(now + Delay(attempts)), Some(Trimmed(error)))
  }

  predicate Refreshable(t: Task) { t.status.Done? || t.status.Failed? }

  predicate Unfinished(t: Task) { t.status.Pending? || t.status.Failed? }

  /** What `claim_next` selects, besides being unlocked. */
  predicate Claimable(t: Task, now: int) {
    Unfinished(t) && (t.nextAttemptAt.None? || t.nextAttemptAt.value <= now)
  }

  /** What every stored task looks like. */
  predicate WellFormed(t: Task) {
    match t.status
    case Pending => t == NEW_TASK
    case Failed => 1 <= t.attempts < MAX_ATTEMPTS && t.nextAttemptAt.Some? && t.lastError.Some?
    case Done => t.attempts < MAX_ATTEMPTS && t.nextAttemptAt.None? && t.lastError.None?
    case Gone => t.attempts < MAX_ATTEMPTS && t.nextAttemptAt.None?
    case Dead => 1 <= t.attempts <= MAX_ATTEMPTS && t.nextAttemptAt.None? && t.lastError.Some?
  }

  predicate AllWellFormed(l: Tasks) {
    forall k | k in l :: WellFormed(l[k])
  }

  /** What a worker may turn a claimed task into. */
  predicate Step(t: Task, t': Task) {
    t' == MarkDone(t) || t' == MarkGone(t) ||
    (t'.lastError.Some? && |t'.lastError.value| <= LAST_ERROR_MAX_CHARS &&
      (t' == Task(Dead, t.attempts + 1, None, t'.lastError) ||
       (t' == Task(Failed, t.attempts + 1, t'.nextAttemptAt, t'.lastError) &&
        t'.nextAttemptAt.Some? && t.attempts + 1 < MAX_ATTEMPTS)))
  }

  /** The attempts left to an unfinished task. */
  function Left(t: Task): nat {
    if Unfinished(t) && t.attempts < MAX_ATTEMPTS then MAX_ATTEMPTS - t.attempts else 0
  }

  /** Every outcome keeps the ledger well formed and uses up something: an attempt, or the task. */
  lemma StepKeepsWellFormed(t: Task, t': Task)
    requires WellFormed(t) && Unfinished(t) && Step(t, t')
    ensures WellFormed(t') && Left(t') < Left(t) && !t'.status.Pending?
  {
  }

  lemma OutcomesAreSteps(t: Task, error: string, now: int)
    ensures Step(t, MarkDone(t)) && Step(t, MarkGone(t)) && Step(t, MarkDead(t, error)) &&
      Step(t, MarkFailed(t, error, now))
  {
  }

  lemma {:induction false} TwoToGrows(m: nat, n: nat)
    requires m <= n
    ensures TwoTo(m) <= TwoTo(n)
  {
    if m < n { TwoToGrows(m, n - 1); }
  }

  /** A failure uses an attempt and, but for the third, leaves the task to be retried. The backoff
      doubles with each attempt; its cap would first apply at nine. */
  lemma BackoffDoubles(t: Task, error: string, now: int)
    ensures var t' := MarkFailed(t, error, now);
      (t'.status.Failed? <==> t.attempts + 1 < MAX_ATTEMPTS) && (!t'.status.Failed? ==> t'.status.Dead?) &&
      t'.attempts == t.attempts + 1 &&
      (t'.status.Failed? ==> t'.nextAttemptAt == Some(now + BACKOFF_BASE_SECONDS * TwoTo(t'.attempts)))
    ensures forall n: nat :: Delay(n) == BACKOFF_CAP_SECONDS <==> n >= 9
  {
    assert TwoTo(8) == 256 by { assert TwoTo(4) == 16; }
    forall n: nat ensures Delay(n) == BACKOFF_CAP_SECONDS <==> n >= 9 {
      if n >= 9 { TwoToGrows(9, n); } else { TwoToGrows(n, 8); }
    }
  }

  // --- transitions of the ledger --------------------------------------------------------------

  /** `insert_tasks`: existing tasks are left alone. */
  function Inserted(l: Tasks, rows: set<Key>): Tasks {
    map k | k in l.Keys + rows :: if k in l then l[k] else NEW_TASK
  }

  /** `insert_or_reset_tasks`: done and failed ones also go back to pending. */
  function InsertedOrReset(l: Tasks, rows: set<Key>): Tasks {
    map k | k in l.Keys + rows :: if k in l && !(k in rows && Refreshable(l[k])) then l[k] else NEW_TASK
  }

  /** `reset_tasks`: like a refresh, but only for tasks that exist. */
  function ResetIn(l: Tasks, ids: set<int>, resources: set<Resource>): Tasks {
    map k | k in l :: if k.malId in ids && k.resource in resources && Refreshable(l[k]) then NEW_TASK else l[k]
  }

  function Missing(l: Tasks, rows: set<Key>): set<Key> {
    set k | k in rows && k !in l
  }

  function ToReset(l: Tasks, rows: set<Key>): set<Key> {
    set k | k in rows && k in l && Refreshable(l[k])
  }

  /** The rows an insert-or-reset leaves as they were. */
  function Untouched(l: Tasks, rows: set<Key>): set<Key> {
    set k | k in rows && k in l && !Refreshable(l[k])
  }

  /** Every row is inserted, reset or left alone, and only one of these. */
  lemma RowsPartition(l: Tasks, rows: set<Key>)
    ensures |Missing(l, rows)| + |ToReset(l, rows)| + |Untouched(l, rows)| == |rows|
  {
    var m, r, u := Missing(l, rows), ToReset(l, rows), Untouched(l, rows);
    assert rows == m + r + u;
    assert m !! r && (m + r) !! u;
  }

  /** Dead and gone tasks are never touched again, by a reset or otherwise. */
  predicate Absorbs(l: Tasks, l': Tasks) {
    forall k | k in l && (l[k].status.Dead? || l[k].status.Gone?) :: k in l' && l'[k] == l[k]
  }

  lemma RefreshKeepsLedger(l: Tasks, rows: set<Key>, ids: set<int>, resources: set<Resource>)
    requires AllWellFormed(l)
    ensures AllWellFormed(Inserted(l, rows)) && Absorbs(l, Inserted(l, rows))
    ensures AllWellFormed(InsertedOrReset(l, rows)) && Absorbs(l, InsertedOrReset(l, rows))
    ensures AllWellFormed(ResetIn(l, ids, resources)) && Absorbs(l, ResetIn(l, ids, resources))
  {
  }

  /** Resets of two sets of rows compose, in either order and with overlap. */
  lemma ResetsCompose(l: Tasks, a: set<Key>, b: set<Key>)
    ensures InsertedOrReset(InsertedOrReset(l, a), b) == InsertedOrReset(l, a + b)
    ensures Inserted(Inserted(l, a), b) == Inserted(l, a + b)
  {
  }

  /** What the two counts of a refresh mean: the tasks it added, and those of the others it changed. */
  lemma CountsSayWhatChanged(l: Tasks, rows: set<Key>)
    ensures |InsertedOrReset(l, rows)| == |l| + |Missing(l, rows)| && |Inserted(l, rows)| == |l| + |Missing(l, rows)|
    ensures ToReset(l, rows) == set k | k in l && InsertedOrReset(l, rows)[k] != l[k]
    ensures forall k | k in l :: Inserted(l, rows)[k] == l[k]
  {
    assert InsertedOrReset(l, rows).Keys == l.Keys + Missing(l, rows);
    assert Inserted(l, rows).Keys == l.Keys + Missing(l, rows);
    assert l.Keys !! Missing(l, rows);
  }

  /** What a refresh leaves of each task: the done and failed ones it is for, and the missing ones, are as
      good as new, and all others are as they were. `reset_tasks` adds none. */
  lemma RefreshIsExact(l: Tasks, rows: set<Key>, ids: set<int>, resources: set<Resource>, k: Key)
    ensures var after := InsertedOrReset(l, rows);
      (k in after <==> k in l || k in rows) &&
      (k in after ==>
        after[k] == if k in rows && (k !in l || l[k].status == Done || l[k].status == Failed)
          then Task(Pending, 0, None, None) else l[k])
    ensures var after := ResetIn(l, ids, resources);
      (k in after <==> k in l) &&
      (k in after ==>
        after[k] == if k.malId in ids && k.resource in resources && (l[k].status == Done || l[k].status == Failed)
          then Task(Pending, 0, None, None) else l[k])
  {
  }

  /** Listing the same rows again inserts nothing, resets nothing and changes nothing. */
  lemma RepeatChangesNothing(l: Tasks, rows: set<Key>)
    ensures var again := InsertedOrReset(l, rows);
      Missing(again, rows) == {} && ToReset(again, rows) == {} && InsertedOrReset(again, rows) == again
    ensures var again := Inserted(l, rows);
      Missing(again, rows) == {} && Inserted(again, rows) == again
  {
  }

  /** After a refresh no listed task counts as finished or as failed. */
  lemma NothingListedIsDone(l: Tasks, rows: set<Key>)
    ensures forall k | k in rows :: k in InsertedOrReset(l, rows) && !Refreshable(InsertedOrReset(l, rows)[k])
  {
  }

  // --- the attempts left ------------------------------------------------------------------------

  function LeftOver(keys: seq<Key>, l: Tasks): nat
    requires forall k | k in keys :: k in l
  {
    if keys == [] then 0 else LeftOver(keys[..|keys| - 1], l) + Left(l[keys[|keys| - 1]])
  }

  /** How many more outcomes the ledger can see before every task is finished. */
  function AttemptsLeft(l: Tasks): nat {
    LeftOver(Ordered(l.Keys), l)
  }

  lemma {:induction false} LeftOverAfter(keys: seq<Key>, l: Tasks, k: Key, t: Task)
    requires SortedKeys(keys) && k in l && forall x | x in keys :: x in l
    ensures LeftOver(keys, l[k := t]) == LeftOver(keys, l) + if k in keys then Left(t) - Left(l[k]) else 0
  {
    if keys != [] {
      var init, last := keys[..|keys| - 1], keys[|keys| - 1];
      LeftOverAfter(init, l, k, t);
      assert keys == init + [last];
      if k == last {
        assert forall i | 0 <= i < |init| :: Less(init[i], last);
      }
    }
  }

  /** Every committed outcome brings the ledger closer to the end. */
  lemma OutcomeUsesAnAttempt(l: Tasks, k: Key, t: Task)
    requires AllWellFormed(l) && k in l && Unfinished(l[k]) && Step(l[k], t)
    ensures AllWellFormed(l[k := t]) && Absorbs(l, l[k := t]) && AttemptsLeft(l[k := t]) < AttemptsLeft(l)
  {
    StepKeepsWellFormed(l[k], t);
    LeftOverAfter(Ordered(l.Keys), l, k, t);
    assert l[k := t].Keys == l.Keys;
  }

  /** With no attempt left every task is done, dead or gone. */
  lemma {:induction false} NothingLeft(l: Tasks, keys: seq<Key>)
    requires AllWellFormed(l) && forall k | k in keys :: k in l
    requires LeftOver(keys, l) == 0
    ensures forall k | k in keys :: !Unfinished(l[k])
  {
    if keys != [] {
      NothingLeft(l, keys[..|keys| - 1]);
      assert keys == keys[..|keys| - 1] + [keys[|keys| - 1]];
    }
  }

  // --- claiming and counting ----------------------------------------------------------------------

  function ClaimableKeys(l: Tasks, locked: set<Key>, now: int): set<Key> {
    set k | k in l && k !in locked && Claimable(l[k], now)
  }

  /** `claim_next`: the first claimable task nobody has locked. */
  function ClaimNext(l: Tasks, locked: set<Key>, now: int): Option<Key> {
    var keys := Ordered(ClaimableKeys(l, locked, now));
    if keys == [] then None else Some(keys[0])
  }

  /** Done, dead or gone, or still backing off. */
  predicate IsNotDue(t: Task, now: int) {
    t.status == Done || t.status == Dead || t.status == Gone || (t.nextAttemptAt.Some? && t.nextAttemptAt.value > now)
  }

  /** The task claimed is the first, in key order, that is unlocked, pending or failed, and whose retry
      time is not to come; no task is claimed exactly when there is none. */
  lemma ClaimIsFirst(l: Tasks, locked: set<Key>, now: int)
    ensures match ClaimNext(l, locked, now)
      case None => forall k | k in l && k !in locked :: IsNotDue(l[k], now)
      case Some(c) =>
        (c in l && c !in locked && !IsNotDue(l[c], now) &&
         forall k | k in l && k !in locked && Less(k, c) :: IsNotDue(l[k], now))
  {
    var keys := Ordered(ClaimableKeys(l, locked, now));
    forall k | k in l && k !in locked && Claimable(l[k], now) ensures k in keys {
    }
    if keys != [] {
      assert keys[0] in keys;
      forall k | k in keys && k != keys[0] ensures Less(keys[0], k) {
      }
    }
  }

  function WithStatus(l: Tasks, s: Status): set<Key> {
    set k | k in l && l[k].status == s
  }

  function CountOf(l: Tasks, s: Status): nat {
    |WithStatus(l, s)|
  }

  lemma FiveParts<T>(all: set<T>, a: set<T>, b: set<T>, c: set<T>, d: set<T>, e: set<T>)
    requires all == a + b + c + d + e
    requires a !! b && (a + b) !! c && (a + b + c) !! d && (a + b + c + d) !! e
    ensures |a| + |b| + |c| + |d| + |e| == |all|
  {
  }

  lemma InOne(l: Tasks, k: Key)
    requires k in l
    ensures k in WithStatus(l, Pending) || k in WithStatus(l, Done) || k in WithStatus(l, Failed)
         || k in WithStatus(l, Dead) || k in WithStatus(l, Gone)
  {
  }

  /** `count_by_status` counts every task once. */
  lemma CountsAddUp(l: Tasks)
    ensures CountOf(l, Pending) + CountOf(l, Done) + CountOf(l, Failed) + CountOf(l, Dead) + CountOf(l, Gone) == |l|
  {
    var p, d, f := WithStatus(l, Pending), WithStatus(l, Done), WithStatus(l, Failed);
    var x, g := WithStatus(l, Dead), WithStatus(l, Gone);
    forall k | k in l.Keys ensures k in p + d + f + x + g {
      InOne(l, k);
    }
    assert l.Keys == p + d + f + x + g;
    FiveParts(l.Keys, p, d, f, x, g);
    assert |l| == |l.Keys|;
  }
}
