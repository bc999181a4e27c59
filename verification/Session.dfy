/** What the ingestion jobs work on: one database session shared by the repositories, the object
    store and the adapter. app/ingestion/repository, app/ingestion/storage/raw_store.py. */
module Session {
  import opened Base
  import opened Ledger
  import opened RawIndex

  /** The rows of the two tables the fetch job writes. */
  datatype Rows = Rows(tasks: Tasks, index: Index)

  /** How a commit can go wrong; after either the session is rolled back. An unanswered commit took
      effect although the caller sees an error. */
  datatype CommitFault = NoFault | CommitRefused | CommitUnanswered

  /** One answer of the source: a page, or what the adapter raises instead. */
  datatype Answer =
    | Page(body: string, hasNext: bool)
    | GoneError
    | PermanentError(message: string)
    | AccessDenied(message: string)
    | TransientError(message: string)
    | Unexpected(message: string)
    | CircuitOpen
    | Interrupted

  /** What is stored: one response, or all the pages of one. */
  datatype Response = One(body: string) | Pages(bodies: seq<string>)

  /** Committed rows, and the transaction's own view of them. */
  class DbSession {
    var saved: Rows
    var work: Rows

    constructor (rows: Rows)
      ensures saved == rows && work == rows
    {
      saved, work := rows, rows;
    }

    method Commit(fault: CommitFault) returns (ok: bool)
      modifies this
      ensures ok == fault.NoFault?
      ensures saved == if fault.CommitRefused? then old(saved) else old(work)
      ensures work == saved
    {
      if !fault.CommitRefused? { saved := work; }
      work := saved;
      ok := fault.NoFault?;
    }

    method Rollback()
      modifies this
      ensures saved == old(saved) && work == saved
    {
      work := saved;
    }
  }

  class TaskRepository {
    const db: DbSession

    constructor (db: DbSession)
      ensures this.db == db
    {
      this.db := db;
    }

    /** The rows other sessions have locked are skipped. */
    method Claim(now: int, locked: set<Key>) returns (key: Option<Key>)
      ensures key == ClaimNext(db.work.tasks, locked, now)
    {
      key := ClaimNext(db.work.tasks, locked, now);
    }

    method Set(key: Key, task: Task)
      modifies db
      ensures db.saved == old(db.saved)
      ensures db.work
           == if key in old(db.work.tasks) then old(db.work).(tasks := old(db.work.tasks)[key := task])
             else old(db.work)
    {
      if key in db.work.tasks {
        db.work := db.work.(tasks := db.work.tasks[key := task]);
      }
    }

    /** `insert_tasks`: how many rows were missing. */
    method InsertTasks(rows: set<Key>) returns (inserted: nat)
      modifies db
      ensures db.saved == old(db.saved) && inserted == |Missing(old(db.work.tasks), rows)|
      ensures db.work == old(db.work).(tasks := Inserted(old(db.work.tasks), rows))
    {
      inserted := |Missing(db.work.tasks, rows)|;
      db.work := db.work.(tasks := Inserted(db.work.tasks, rows));
    }

    /** `insert_or_reset_tasks`. */
    method InsertOrResetTasks(rows: set<Key>) returns (inserted: nat, reset: nat)
      modifies db
      ensures db.saved == old(db.saved)
      ensures inserted == |Missing(old(db.work.tasks), rows)| && reset == |ToReset(old(db.work.tasks), rows)|
      ensures db.work == old(db.work).(tasks := InsertedOrReset(old(db.work.tasks), rows))
    {
      inserted, reset := |Missing(db.work.tasks, rows)|, |ToReset(db.work.tasks, rows)|;
      db.work := db.work.(tasks := InsertedOrReset(db.work.tasks, rows));
    }
  }

  class RawTenraiRepository {
    const db: DbSession

    constructor (db: DbSession)
      ensures this.db == db
    {
      this.db := db;
    }

    /** `upsert`: size and time of the newest response. */
    method Upsert(key: Key, sizeBytes: nat, now: int)
      modifies db
      ensures db.saved == old(db.saved)
      ensures db.work == old(db.work).(index := old(db.work.index)[key := IndexRow(sizeBytes, now)])
    {
      db.work := db.work.(index := db.work.index[key := IndexRow(sizeBytes, now)]);
    }
  }

  /** Objects are overwritten one by one and never rolled back. Compression is a parameter. */
  class RawStore {
    const sizeOf: Response -> nat
    var objects: map<Key, Response>

    constructor (sizeOf: Response -> nat)
      ensures this.sizeOf == sizeOf && objects == map[]
    {
      this.sizeOf := sizeOf;
      objects := map[];
    }

    method Put(key: Key, response: Response, fails: bool) returns (ok: bool, size: nat)
      modifies this
      ensures ok == !fails && size == sizeOf(response)
      ensures objects == if fails then old(objects) else old(objects)[key := response]
    {
      if !fails { objects := objects[key := response]; }
      ok, size := !fails, sizeOf(response);
    }
  }

  /** The source answers the n-th call with `answers(n)`. */
  class Adapter {
    const answers: nat -> Answer
    var calls: nat

    constructor (answers: nat -> Answer)
      ensures this.answers == answers && calls == 0
    {
      this.answers := answers;
      calls := 0;
    }

    method Get() returns (a: Answer)
      modifies this
      ensures a == answers(old(calls)) && calls == old(calls) + 1
    {
      a := answers(calls);
      calls := calls + 1;
    }
  }
}
