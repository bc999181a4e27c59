/** Several fetch workers at once, with crashes, releases and discovery in between: how the ledger,
    the index and the object store stay in step (app/ingestion/jobs/fetch_anime_job.py,
    app/ingestion/repository/task_repository.py, app/ingestion/storage/raw_store.py). */
module FetchProtocol {
  import opened Base
  import opened Ledger
  import opened RawIndex
  import opened Session
  import opened FetchJob

  /** How far the upload of a claimed task is. */
  datatype Upload = NotYet | Sending(response: Response) | Sent(size: nat)

  /** A worker between two transactions, or one that holds the row lock of a task and its copy. */
  datatype Worker = Idle | Holding(key: Key, task: Task, upload: Upload)

  /** Committed rows, objects, workers, and the uploads whose worker did not wait for them: a thread
      that sends an object goes on when the worker is interrupted. */
  datatype State = State(rows: Rows, objects: map<Key, Response>, workers: map<int, Worker>,
    strays: set<(Key, Response)>)

  datatype Move =
    | Claim(w: int, now: int)
    | Send(w: int, response: Response)
    | Arrive(w: int)
    | StoreDone(w: int, at: int)
    | Settle(w: int, outcome: Outcome, at: int)
    | Release(w: int)
    | StrayArrives(key: Key, response: Response)
    | StrayIsLost(key: Key, response: Response)
    | Insert(rows: set<Key>)
    | InsertOrReset(rows: set<Key>)
    | Reset(ids: set<int>, resources: set<Resource>)

  function Held(s: State): set<Key> {
    set w | w in s.workers && s.workers[w].Holding? :: s.workers[w].key
  }

  predicate IsHolding(s: State, w: int) {
    w in s.workers && s.workers[w].Holding?
  }

  /** Claims skip locked rows; a statement that may update a row waits for its lock. */
  predicate Possible(s: State, m: Move) {
    match m
    case Claim(w, now) => w in s.workers && s.workers[w].Idle? && ClaimNext(s.rows.tasks, Held(s), now).Some?
    case Send(w, _) => IsHolding(s, w) && s.workers[w].upload.NotYet?
    case Arrive(w) => IsHolding(s, w) && s.workers[w].upload.Sending?
    case StoreDone(w, _) => IsHolding(s, w) && s.workers[w].upload.Sent?
    case Settle(w, outcome, _) => IsHolding(s, w) && !outcome.Stored? && !s.workers[w].upload.Sending?
    case Release(w) => IsHolding(s, w)
    case StrayArrives(k, r) => (k, r) in s.strays
    case StrayIsLost(k, r) => (k, r) in s.strays
    case Insert(_) => true
    case InsertOrReset(rows) => rows !! Held(s)
    case Reset(ids, resources) =>
      forall k | k in Held(s) && k.malId in ids && k.resource in resources && k in s.rows.tasks ::
        !Refreshable(s.rows.tasks[k])
  }

  /** The worker writes what it makes of its own copy of the task. */
  function Written(rows: Rows, worker: Worker, outcome: Outcome, at: int): Rows
    requires worker.Holding?
  {
    var e := Event(worker.key, outcome, worker.task.attempts == 0, at);
    Rows(rows.tasks[worker.key := Settled(worker.task, e)],
         match outcome case Stored(size) => rows.index[worker.key := IndexRow(size, at)] case _ => rows.index)
  }

  function After(s: State, m: Move, sizeOf: Response -> nat): State
    requires Possible(s, m)
  {
    match m
    case Claim(w, now) =>
      var key := ClaimNext(s.rows.tasks, Held(s), now).value;
      ClaimIsFirst(s.rows.tasks, Held(s), now);
      s.(workers := s.workers[w := Holding(key, s.rows.tasks[key], NotYet)])
    case Send(w, response) =>
      s.(workers := s.workers[w := s.workers[w].(upload := Sending(response))])
    case Arrive(w) =>
      var h := s.workers[w];
      s.(objects := s.objects[h.key := h.upload.response],
         workers := s.workers[w := h.(upload := Sent(sizeOf(h.upload.response)))])
    case StoreDone(w, at) =>
      s.(rows := Written(s.rows, s.workers[w], Stored(s.workers[w].upload.size), at), workers := s.workers[w := Idle])
    case Settle(w, outcome, at) =>
      s.(rows := Written(s.rows, s.workers[w], outcome, at), workers := s.workers[w := Idle])
    case Release(w) =>
      var h := s.workers[w];
      s.(workers := s.workers[w := Idle],
         strays := if h.upload.Sending? then s.strays + {(h.key, h.upload.response)} else s.strays)
    case StrayArrives(k, r) => s.(objects := s.objects[k := r], strays := s.strays - {(k, r)})
    case StrayIsLost(k, r) => s.(strays := s.strays - {(k, r)})
    case Insert(rows) => s.(rows := s.rows.(tasks := Inserted(s.rows.tasks, rows)))
    case InsertOrReset(rows) => s.(rows := s.rows.(tasks := InsertedOrReset(s.rows.tasks, rows)))
    case Reset(ids, resources) => s.(rows := s.rows.(tasks := ResetIn(s.rows.tasks, ids, resources)))
  }

  // --- what holds in every reachable state --------------------------------------------------------

  /** No task is held twice, and a held task is still what its worker read. */
  ghost predicate LocksHold(s: State) {
    (forall v, w | IsHolding(s, v) && IsHolding(s, w) && s.workers[v].key == s.workers[w].key :: v == w) &&
    (forall w | IsHolding(s, w) ::
      s.workers[w].key in s.rows.tasks && s.rows.tasks[s.workers[w].key] == s.workers[w].task &&
      Unfinished(s.workers[w].task))
  }

  /** An upload that was waited for is the stored object. */
  ghost predicate UploadsAreThere(s: State, sizeOf: Response -> nat) {
    forall w | IsHolding(s, w) && s.workers[w].upload.Sent? ::
      s.workers[w].key in s.objects && sizeOf(s.objects[s.workers[w].key]) == s.workers[w].upload.size
  }

  ghost predicate InStep(s: State, sizeOf: Response -> nat) {
    LocksHold(s) && AllWellFormed(s.rows.tasks) && DataIsThere(s.rows, s.objects, sizeOf) && UploadsAreThere(s, sizeOf)
  }

  /** The task of every upload nobody waits for is unfinished, and no worker holds it. */
  predicate Parked(s: State) {
    forall z | z in s.strays :: z.0 in s.rows.tasks && Unfinished(s.rows.tasks[z.0]) && z.0 !in Held(s)
  }

  /** The guard the code lacks: a task is not claimed while an earlier upload of it may still arrive. */
  predicate Waits(s: State, m: Move)
    requires Possible(s, m)
  {
    m.Claim? ==> forall z | z in s.strays :: z.0 != ClaimNext(s.rows.tasks, Held(s), m.now).value
  }

  /** Writing from the worker's own copy is writing from the table: nothing is lost. */
  lemma CopyIsCurrent(s: State, w: int, outcome: Outcome, at: int)
    requires LocksHold(s) && IsHolding(s, w)
    ensures var e := Event(s.workers[w].key, outcome, s.workers[w].task.attempts == 0, at);
      Written(s.rows, s.workers[w], outcome, at) == Applied(s.rows, e)
  {
  }

  lemma HeldBy(s: State, k: Key)
    ensures k in Held(s) <==> exists w :: IsHolding(s, w) && s.workers[w].key == k
  {
  }

  lemma ClaimStaysInStep(s: State, w: int, now: int, sizeOf: Response -> nat)
    requires InStep(s, sizeOf) && Possible(s, Claim(w, now))
    ensures InStep(After(s, Claim(w, now), sizeOf), sizeOf)
  {
    ClaimIsFirst(s.rows.tasks, Held(s), now);
    var key := ClaimNext(s.rows.tasks, Held(s), now).value;
    HeldBy(s, key);
  }

  lemma UploadStaysInStep(s: State, m: Move, sizeOf: Response -> nat)
    requires InStep(s, sizeOf) && Possible(s, m) && (m.Send? || m.Arrive? || m.Release?)
    ensures InStep(After(s, m, sizeOf), sizeOf)
  {
    if m.Arrive? {
      PutIsHarmless(s.rows, s.objects, sizeOf, s.workers[m.w].key, s.workers[m.w].upload.response);
    }
  }

  /** Whatever a worker does to its own task, the others' tasks and uploads are as they were. */
  lemma OthersUndisturbed(s: State, w: int, rows: Rows, sizeOf: Response -> nat)
    requires LocksHold(s) && UploadsAreThere(s, sizeOf) && IsHolding(s, w)
    requires forall k | k in s.rows.tasks && k != s.workers[w].key ::
      k in rows.tasks && rows.tasks[k] == s.rows.tasks[k]
    ensures var s' := s.(rows := rows, workers := s.workers[w := Idle]);
      LocksHold(s') && UploadsAreThere(s', sizeOf)
  {
  }

  lemma RowsStayInStep(rows: Rows, objects: map<Key, Response>, e: Event, sizeOf: Response -> nat)
    requires AllWellFormed(rows.tasks) && DataIsThere(rows, objects, sizeOf)
    requires e.key in rows.tasks && Unfinished(rows.tasks[e.key])
    requires e.outcome.Stored? ==> e.key in objects && sizeOf(objects[e.key]) == e.outcome.size
    ensures AllWellFormed(Applied(rows, e).tasks) && DataIsThere(Applied(rows, e), objects, sizeOf)
  {
  }

  lemma WriteStaysInStep(s: State, w: int, outcome: Outcome, at: int, sizeOf: Response -> nat)
    requires InStep(s, sizeOf) && IsHolding(s, w)
    requires outcome.Stored? ==> s.workers[w].upload == Sent(outcome.size)
    ensures InStep(s.(rows := Written(s.rows, s.workers[w], outcome, at), workers := s.workers[w := Idle]), sizeOf)
  {
    var e := Event(s.workers[w].key, outcome, s.workers[w].task.attempts == 0, at);
    CopyIsCurrent(s, w, outcome, at);
    RowsStayInStep(s.rows, s.objects, e, sizeOf);
    OthersUndisturbed(s, w, Applied(s.rows, e), sizeOf);
  }

  lemma DiscoveryStaysInStep(s: State, m: Move, sizeOf: Response -> nat)
    requires InStep(s, sizeOf) && Possible(s, m) && (m.Insert? || m.InsertOrReset? || m.Reset?)
    ensures InStep(After(s, m, sizeOf), sizeOf)
  {
    var s' := After(s, m, sizeOf);
    forall w | IsHolding(s, w)
      ensures s.workers[w].key in s'.rows.tasks && s'.rows.tasks[s.workers[w].key] == s.workers[w].task
    {
      HeldBy(s, s.workers[w].key);
    }
  }

  lemma StrayStaysInStep(s: State, k: Key, r: Response, sizeOf: Response -> nat)
    requires InStep(s, sizeOf) && Parked(s) && (k, r) in s.strays
    ensures InStep(After(s, StrayArrives(k, r), sizeOf), sizeOf)
  {
    PutIsHarmless(s.rows, s.objects, sizeOf, k, r);
    forall w | IsHolding(s, w) ensures s.workers[w].key != k {
      HeldBy(s, s.workers[w].key);
    }
  }

  lemma MoveStaysInStep(s: State, m: Move, sizeOf: Response -> nat)
    requires InStep(s, sizeOf) && Parked(s) && Possible(s, m)
    ensures InStep(After(s, m, sizeOf), sizeOf) && Absorbs(s.rows.tasks, After(s, m, sizeOf).rows.tasks)
  {
    match m
    case Claim(w, now) => ClaimStaysInStep(s, w, now, sizeOf);
    case StoreDone(w, at) => WriteStaysInStep(s, w, Stored(s.workers[w].upload.size), at, sizeOf);
    case Settle(w, outcome, at) => WriteStaysInStep(s, w, outcome, at, sizeOf);
    case StrayArrives(k, r) => StrayStaysInStep(s, k, r, sizeOf);
    case StrayIsLost(_, _) =>
    case Send(_, _) => UploadStaysInStep(s, m, sizeOf);
    case Arrive(_) => UploadStaysInStep(s, m, sizeOf);
    case Release(_) => UploadStaysInStep(s, m, sizeOf);
    case _ => DiscoveryStaysInStep(s, m, sizeOf);
  }

  // --- stray uploads stay parked ------------------------------------------------------------------

  lemma ClaimStaysParked(s: State, w: int, now: int, sizeOf: Response -> nat)
    requires Parked(s) && Possible(s, Claim(w, now)) && Waits(s, Claim(w, now))
    ensures Parked(After(s, Claim(w, now), sizeOf))
  {
    var s' := After(s, Claim(w, now), sizeOf);
    forall z | z in s.strays ensures z.0 !in Held(s') {
      HeldBy(s, z.0);
      HeldBy(s', z.0);
    }
  }

  /** A worker that lets go, or goes on with its upload, frees at most its own task. */
  lemma HolderStaysParked(s: State, w: int, worker: Worker, rows: Rows)
    requires LocksHold(s) && Parked(s) && IsHolding(s, w)
    requires worker.Holding? ==> worker.key == s.workers[w].key
    requires forall k | k in s.rows.tasks && k != s.workers[w].key ::
      k in rows.tasks && rows.tasks[k] == s.rows.tasks[k]
    ensures Parked(s.(rows := rows, workers := s.workers[w := worker]))
  {
    var s' := s.(rows := rows, workers := s.workers[w := worker]);
    HeldBy(s, s.workers[w].key);
    forall z | z in s.strays ensures z.0 !in Held(s') {
      HeldBy(s, z.0);
      HeldBy(s', z.0);
    }
  }

  /** Other workers hold other tasks, so the task of an interrupted worker is free again. */
  lemma ReleaseStaysParked(s: State, w: int, sizeOf: Response -> nat)
    requires LocksHold(s) && Parked(s) && Possible(s, Release(w))
    ensures Parked(After(s, Release(w), sizeOf))
  {
    var s', key := After(s, Release(w), sizeOf), s.workers[w].key;
    HolderStaysParked(s, w, Idle, s.rows);
    HeldBy(s', key);
    assert Held(s') == Held(s.(workers := s.workers[w := Idle]));
  }

  lemma DiscoveryStaysParked(s: State, m: Move, sizeOf: Response -> nat)
    requires Parked(s) && Possible(s, m) && (m.Insert? || m.InsertOrReset? || m.Reset?)
    ensures Parked(After(s, m, sizeOf))
  {
    assert Held(After(s, m, sizeOf)) == Held(s);
  }

  lemma WriteStaysParked(s: State, w: int, outcome: Outcome, at: int)
    requires LocksHold(s) && Parked(s) && IsHolding(s, w)
    ensures Parked(s.(rows := Written(s.rows, s.workers[w], outcome, at), workers := s.workers[w := Idle]))
  {
    HolderStaysParked(s, w, Idle, Written(s.rows, s.workers[w], outcome, at));
  }

  lemma UploadStaysParked(s: State, m: Move, sizeOf: Response -> nat)
    requires LocksHold(s) && Parked(s) && Possible(s, m) && (m.Send? || m.Arrive?)
    ensures Parked(After(s, m, sizeOf))
  {
    var s' := After(s, m, sizeOf);
    HolderStaysParked(s, m.w, s'.workers[m.w], s.rows);
    assert Held(s') == Held(s.(workers := s'.workers));
  }

  lemma MoveStaysParked(s: State, m: Move, sizeOf: Response -> nat)
    requires LocksHold(s) && Parked(s) && Possible(s, m) && Waits(s, m)
    ensures Parked(After(s, m, sizeOf))
  {
    match m
    case Claim(w, now) => ClaimStaysParked(s, w, now, sizeOf);
    case StoreDone(w, at) => WriteStaysParked(s, w, Stored(s.workers[w].upload.size), at);
    case Settle(w, outcome, at) => WriteStaysParked(s, w, outcome, at);
    case StrayArrives(_, _) => assert Held(After(s, m, sizeOf)) == Held(s);
    case StrayIsLost(_, _) => assert Held(After(s, m, sizeOf)) == Held(s);
    case Send(_, _) => UploadStaysParked(s, m, sizeOf);
    case Arrive(_) => UploadStaysParked(s, m, sizeOf);
    case Release(w) => ReleaseStaysParked(s, w, sizeOf);
    case _ => DiscoveryStaysParked(s, m, sizeOf);
  }

  // --- whole runs -----------------------------------------------------------------------------------

  /** The state after a run; None if it cannot happen. */
  function Run(s: State, moves: seq<Move>, sizeOf: Response -> nat): Option<State> {
    if moves == [] then Some(s)
    else
      match Run(s, moves[..|moves| - 1], sizeOf)
      case Some(before) =>
        if Possible(before, moves[|moves| - 1]) then Some(After(before, moves[|moves| - 1], sizeOf)) else None
      case None => None
  }

  /** No claim of the run picks a task whose earlier upload may still arrive. */
  predicate AllWait(s: State, moves: seq<Move>, sizeOf: Response -> nat) {
    moves == [] ||
    (AllWait(s, moves[..|moves| - 1], sizeOf) &&
     match Run(s, moves[..|moves| - 1], sizeOf)
     case Some(before) => Possible(before, moves[|moves| - 1]) ==> Waits(before, moves[|moves| - 1])
     case None => true)
  }

  /** In every reachable state a done task has an index row with the size of its object, every index
      row has an object, no task is held twice, and dead and gone tasks stay what they are. */
  lemma {:induction false} EveryRunStaysInStep(s: State, moves: seq<Move>, sizeOf: Response -> nat)
    requires InStep(s, sizeOf) && Parked(s) && Run(s, moves, sizeOf).Some? && AllWait(s, moves, sizeOf)
    ensures InStep(Run(s, moves, sizeOf).value, sizeOf) && Parked(Run(s, moves, sizeOf).value)
    ensures Absorbs(s.rows.tasks, Run(s, moves, sizeOf).value.rows.tasks)
  {
    if moves != [] {
      var init, m := moves[..|moves| - 1], moves[|moves| - 1];
      EveryRunStaysInStep(s, init, sizeOf);
      MoveStaysInStep(Run(s, init, sizeOf).value, m, sizeOf);
      MoveStaysParked(Run(s, init, sizeOf).value, m, sizeOf);
    }
  }

  lemma Then(s0: State, moves: seq<Move>, s: State, m: Move, sizeOf: Response -> nat)
    requires Run(s0, moves, sizeOf) == Some(s) && Possible(s, m)
    ensures Run(s0, moves + [m], sizeOf) == Some(After(s, m, sizeOf))
  {
  }

  // --- the guard is needed ----------------------------------------------------------------------------

  /** The states on the way from a claim to a stored object. */
  lemma StoredAgain(s: State, w: int, now: int, early: Response, at: int, sizeOf: Response -> nat)
    requires Possible(s, Claim(w, now))
    ensures var k := ClaimNext(s.rows.tasks, Held(s), now).value;
      var after := Run(s, [Claim(w, now)] + [Send(w, early)] + [Arrive(w)] + [StoreDone(w, at)], sizeOf);
      after.Some? && after.value.strays == s.strays && k in after.value.rows.tasks &&
      after.value.rows.tasks[k].status.Done? && k in after.value.rows.index &&
      after.value.rows.index[k].sizeBytes == sizeOf(early)
  {
    var k := ClaimNext(s.rows.tasks, Held(s), now).value;
    ClaimIsFirst(s.rows.tasks, Held(s), now);
    var claimed := After(s, Claim(w, now), sizeOf);
    var sending := After(claimed, Send(w, early), sizeOf);
    var sent := After(sending, Arrive(w), sizeOf);
    Then(s, [], s, Claim(w, now), sizeOf);
    assert [] + [Claim(w, now)] == [Claim(w, now)];
    Then(s, [Claim(w, now)], claimed, Send(w, early), sizeOf);
    Then(s, [Claim(w, now)] + [Send(w, early)], sending, Arrive(w), sizeOf);
    Then(s, [Claim(w, now)] + [Send(w, early)] + [Arrive(w)], sent, StoreDone(w, at), sizeOf);
  }

  /** Whenever a task is claimed while an upload of it may still arrive, the run can go on to a done
      task whose index row does not have the size of its object: any answer of another size will do. */
  lemma HastyClaimHarms(s: State, w: int, now: int, late: Response, early: Response, at: int, sizeOf: Response -> nat)
    requires Possible(s, Claim(w, now)) && (ClaimNext(s.rows.tasks, Held(s), now).value, late) in s.strays
    requires sizeOf(early) != sizeOf(late)
    ensures var k := ClaimNext(s.rows.tasks, Held(s), now).value;
      var moves := [Claim(w, now)] + [Send(w, early)] + [Arrive(w)] + [StoreDone(w, at)] + [StrayArrives(k, late)];
      var after := Run(s, moves, sizeOf);
      after.Some? && !DataIsThere(after.value.rows, after.value.objects, sizeOf)
  {
    var k := ClaimNext(s.rows.tasks, Held(s), now).value;
    var moves := [Claim(w, now)] + [Send(w, early)] + [Arrive(w)] + [StoreDone(w, at)];
    StoredAgain(s, w, now, early, at, sizeOf);
    var stored := Run(s, moves, sizeOf).value;
    Then(s, moves, stored, StrayArrives(k, late), sizeOf);
    assert After(stored, StrayArrives(k, late), sizeOf).objects[k] == late;
  }

  // --- without the guard --------------------------------------------------------------------------

  const TASK := Key(1, Details)

  function OneTask(): State {
    State(Rows(map[TASK := NEW_TASK], map[]), map[], map[1 := Idle, 2 := Idle], {})
  }

  function BeforeInterrupt(late: Response): seq<Move> { [Claim(1, 0), Send(1, late), Release(1)] }

  function AfterInterrupt(late: Response): State { OneTask().(strays := {(TASK, late)}) }

  lemma ClaimsTheTask(s: State, w: int, sizeOf: Response -> nat)
    requires s.rows.tasks == map[TASK := NEW_TASK] && w in s.workers && s.workers[w].Idle? && Held(s) == {}
    ensures Possible(s, Claim(w, 0))
    ensures ClaimNext(s.rows.tasks, Held(s), 0) == Some(TASK)
    ensures After(s, Claim(w, 0), sizeOf) == s.(workers := s.workers[w := Holding(TASK, NEW_TASK, NotYet)])
  {
    ClaimIsFirst(s.rows.tasks, {}, 0);
    assert Claimable(s.rows.tasks[TASK], 0);
  }

  /** The moves of one worker, from its claim on. */
  lemma SendsAndStops(s: State, late: Response, sizeOf: Response -> nat)
    requires s == OneTask().(workers := map[1 := Holding(TASK, NEW_TASK, NotYet), 2 := Idle])
    ensures Possible(s, Send(1, late)) && Possible(After(s, Send(1, late), sizeOf), Release(1))
    ensures After(After(s, Send(1, late), sizeOf), Release(1), sizeOf) == AfterInterrupt(late)
  {
  }

  lemma Interrupted(late: Response, sizeOf: Response -> nat)
    ensures Run(OneTask(), BeforeInterrupt(late), sizeOf) == Some(AfterInterrupt(late))
  {
    var s := OneTask();
    ClaimsTheTask(s, 1, sizeOf);
    var claimed := After(s, Claim(1, 0), sizeOf);
    assert claimed.workers == map[1 := Holding(TASK, NEW_TASK, NotYet), 2 := Idle];
    SendsAndStops(claimed, late, sizeOf);
    Then(s, [], s, Claim(1, 0), sizeOf);
    Then(s, [] + [Claim(1, 0)], claimed, Send(1, late), sizeOf);
    Then(s, [] + [Claim(1, 0)] + [Send(1, late)], After(claimed, Send(1, late), sizeOf), Release(1), sizeOf);
    assert [] + [Claim(1, 0)] + [Send(1, late)] + [Release(1)] == BeforeInterrupt(late);
  }

  /** A worker is interrupted while it sends; its task is free again although the upload goes on. From
      there the task can be claimed and stored, and the first upload can still arrive. */
  lemma LateUploadDisagrees(early: Response, late: Response, sizeOf: Response -> nat)
    requires sizeOf(early) != sizeOf(late)
    ensures InStep(OneTask(), sizeOf) && Parked(OneTask())
    ensures Run(OneTask(), BeforeInterrupt(late), sizeOf) == Some(AfterInterrupt(late))
    ensures var moves :=
      [Claim(2, 0)] + [Send(2, early)] + [Arrive(2)] + [StoreDone(2, 0)] + [StrayArrives(TASK, late)];
      var s := Run(AfterInterrupt(late), moves, sizeOf);
      s.Some? && !DataIsThere(s.value.rows, s.value.objects, sizeOf)
  {
    Interrupted(late, sizeOf);
    var s := AfterInterrupt(late);
    ClaimsTheTask(s, 2, sizeOf);
    HastyClaimHarms(s, 2, 0, late, early, 0, sizeOf);
  }
}
