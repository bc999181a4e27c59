/** Keyset paging over the index of stored responses: app/ingestion/repository/raw_tenrai_repository.py. */
module RawIndex {
  import opened Base

  datatype IndexRow = IndexRow(sizeBytes: nat, fetchedAt: int)
  type Index = map<Key, IndexRow>

  /** The rows fetched at or after the cut-off; all of them without one. */
  function Matching(index: Index, since: Option<int>): set<Key> {
    set k | k in index && (since.None? || since.value <= index[k].fetchedAt)
  }

  /** A response that is recorded again is in the next incremental run, and in none that begins
      later; the other rows are where they were. */
  lemma RecordedIsRecent(index: Index, key: Key, sizeBytes: nat, now: int, since: int)
    ensures Matching(index[key := IndexRow(sizeBytes, now)], Some(since))
         == if since <= now then Matching(index, Some(since)) + {key} else Matching(index, Some(since)) - {key}
  {
  }

  function Beyond(keys: set<Key>, after: Option<Key>): set<Key> {
    set k | k in keys && (after.None? || Less(after.value, k))
  }

  function Slice(rows: seq<Key>, p: nat, limit: nat): seq<Key>
    requires p <= |rows|
  {
    rows[p..if |rows| - p <= limit then |rows| else p + limit]
  }

  /** The matching rows after the cursor, in key order. */
  function Pending(index: Index, since: Option<int>, after: Option<Key>): seq<Key> {
    Ordered(Beyond(Matching(index, since), after))
  }

  /** `get_batch`: the first `limit` of them. */
  function GetBatch(index: Index, since: Option<int>, after: Option<Key>, limit: nat): seq<Key> {
    Slice(Pending(index, since, after), 0, limit)
  }

  /** How many of the sorted rows the cursor has passed. */
  function Position(rows: seq<Key>, after: Option<Key>): (p: nat)
    ensures p <= |rows|
  {
    if rows == [] || after.None? || Less(after.value, rows[0]) then 0 else 1 + Position(rows[1..], after)
  }

  lemma {:induction false} PositionSplits(rows: seq<Key>, after: Option<Key>)
    requires SortedKeys(rows)
    ensures var p := Position(rows, after);
      (forall i | 0 <= i < p :: after.Some? && !Less(after.value, rows[i])) &&
      (forall i | p <= i < |rows| :: after.None? || Less(after.value, rows[i]))
  {
    if !(rows == [] || after.None? || Less(after.value, rows[0])) {
      PositionSplits(rows[1..], after);
      var p := Position(rows[1..], after);
      assert forall i | 1 <= i < |rows| :: rows[i] == rows[1..][i - 1];
    }
  }

  lemma SuffixMember(rows: seq<Key>, p: nat, k: Key)
    requires p <= |rows|
    ensures k in rows[p..] <==> exists i :: p <= i < |rows| && rows[i] == k
  {
  }

  /** The rows after a cursor are a suffix of all of them. */
  lemma BeyondIsSuffix(keys: set<Key>, after: Option<Key>)
    ensures Ordered(Beyond(keys, after)) == Ordered(keys)[Position(Ordered(keys), after)..]
  {
    var rows := Ordered(keys);
    var p := Position(rows, after);
    PositionSplits(rows, after);
    forall k ensures k in Beyond(keys, after) <==> k in rows[p..] {
      SuffixMember(rows, p, k);
      assert k in keys <==> k in rows;
    }
    SortedUnique(Ordered(Beyond(keys, after)), rows[p..]);
  }

  lemma {:induction false} PositionIs(rows: seq<Key>, after: Key, p: nat)
    requires p <= |rows|
    requires forall i | 0 <= i < p :: !Less(after, rows[i])
    requires forall i | p <= i < |rows| :: Less(after, rows[i])
    ensures Position(rows, Some(after)) == p
  {
    if p > 0 {
      PositionIs(rows[1..], after, p - 1);
    }
  }

  lemma PositionOfRow(rows: seq<Key>, p: nat)
    requires SortedKeys(rows) && 0 < p <= |rows|
    ensures Position(rows, Some(rows[p - 1])) == p
  {
    forall i | 0 <= i < p ensures !Less(rows[p - 1], rows[i]) {
      assert i < p - 1 ==> Less(rows[i], rows[p - 1]);
    }
    PositionIs(rows, rows[p - 1], p);
  }

  /** The cursor that stands just after the first `p` rows. */
  function CursorAt(rows: seq<Key>, p: nat, start: Option<Key>): Option<Key>
    requires p <= |rows|
  {
    if p == Position(rows, start) then start else if p == 0 then None else Some(rows[p - 1])
  }

  lemma CursorIsAt(rows: seq<Key>, p: nat, start: Option<Key>)
    requires SortedKeys(rows) && Position(rows, start) <= p <= |rows|
    ensures Position(rows, CursorAt(rows, p, start)) == p
  {
    if p != Position(rows, start) {
      PositionOfRow(rows, p);
    }
  }

  lemma SliceOfSuffix(rows: seq<Key>, p: nat, limit: nat)
    requires p <= |rows|
    ensures Slice(rows[p..], 0, limit) == Slice(rows, p, limit)
  {
  }

  /** From such a cursor a batch is the next slice of all the matching rows. */
  lemma BatchIsSlice(index: Index, since: Option<int>, rows: seq<Key>, start: Option<Key>, p: nat, limit: nat)
    requires rows == Pending(index, since, None)
    requires Position(rows, start) <= p <= |rows|
    ensures GetBatch(index, since, CursorAt(rows, p, start), limit) == Slice(rows, p, limit)
  {
    assert Beyond(Matching(index, since), None) == Matching(index, since);
    CursorIsAt(rows, p, start);
    BeyondIsSuffix(Matching(index, since), CursorAt(rows, p, start));
    SliceOfSuffix(rows, p, limit);
  }

  /** All the rows a caller sees who passes the last row of each batch back as the cursor. */
  function ReadAll(index: Index, since: Option<int>, after: Option<Key>, limit: nat): seq<Key>
    requires limit > 0
    decreases |Pending(index, since, after)|
  {
    var batch := GetBatch(index, since, after, limit);
    if batch == [] then []
    else
      NextPage(index, since, after, limit);
      batch + ReadAll(index, since, Some(batch[|batch| - 1]), limit)
  }

  lemma BeyondTwice(keys: set<Key>, after: Option<Key>, last: Key)
    requires last in Beyond(keys, after)
    ensures Beyond(Beyond(keys, after), Some(last)) == Beyond(keys, Some(last))
  {
  }

  lemma AfterTheFirst(keys: set<Key>, n: nat)
    requires 0 < n <= |Ordered(keys)|
    ensures Ordered(Beyond(keys, Some(Ordered(keys)[n - 1]))) == Ordered(keys)[n..]
  {
    BeyondIsSuffix(keys, Some(Ordered(keys)[n - 1]));
    PositionOfRow(Ordered(keys), n);
  }

  lemma CutAt<T>(s: seq<T>, n: nat)
    requires n <= |s|
    ensures s == s[..n] + s[n..]
  {
  }

  lemma PageAndRest(keys: set<Key>, after: Option<Key>, rows: seq<Key>, n: nat)
    requires rows == Ordered(Beyond(keys, after)) && 0 < n <= |rows|
    ensures rows == rows[..n] + Ordered(Beyond(keys, Some(rows[n - 1])))
  {
    var last := rows[n - 1];
    assert last in Beyond(keys, after) by { assert last in rows; }
    BeyondTwice(keys, after, last);
    AfterTheFirst(Beyond(keys, after), n);
    CutAt(rows, n);
  }

  /** The rows after a batch are the rows before it without the batch. */
  lemma NextPage(index: Index, since: Option<int>, after: Option<Key>, limit: nat)
    requires GetBatch(index, since, after, limit) != []
    ensures var batch := GetBatch(index, since, after, limit);
      Pending(index, since, after) == batch + Pending(index, since, Some(batch[|batch| - 1]))
  {
    var rows := Pending(index, since, after);
    PageAndRest(Matching(index, since), after, rows, |GetBatch(index, since, after, limit)|);
  }

  /** Paging ends, and reads every matching row exactly once, in key order, for every page size. */
  lemma {:induction false} PagingReadsEveryRowOnce(index: Index, since: Option<int>, after: Option<Key>, limit: nat)
    requires limit > 0
    ensures ReadAll(index, since, after, limit) == Pending(index, since, after)
    decreases |Pending(index, since, after)|
  {
    var batch := GetBatch(index, since, after, limit);
    if batch != [] {
      NextPage(index, since, after, limit);
      PagingReadsEveryRowOnce(index, since, Some(batch[|batch| - 1]), limit);
    }
  }
}
