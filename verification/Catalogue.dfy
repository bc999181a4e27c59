/** Idempotent writes for the catalogue tables: app/catalogue/repository.py. */
module Catalogue {
  import opened Base

  /** The catalogue columns the pipelines write, apart from primary keys and timestamps. */
  datatype Column =
    // anime
    | Title | TitleEnglish | TitleJapanese | Kind | Status | Rating | SourceMaterial | Season
    | Year | EpisodeTotal | DurationMinutes | AiredFrom | AiredTo | ScoredByMal | MembersMal
    | FavoritesMal | RankMal | PopularityMal | Background | ImageUrl
    // anime and episode; each score belongs to one pipeline
    | MalScore | AnilistScore | ImdbScore | Synopsis | SynopsisHash
    // episode
    | TitleRomanji | Aired | DurationSeconds | Filler | Recap
    // tag and studio
    | Name
    // review
    | AnimeId | ReviewScore | ReviewText | ReviewUrl | Username | UsernameUrl | Date | IsSpoiler
    | IsPreliminary | EpisodesWatched | Reaction(kind: nat)
    // statistics
    | Watching | Completed | OnHold | Dropped | PlanToWatch | Total | Votes(score: nat)

  /** A column value. SHA-256 is a free constructor: nothing is assumed of the digest. */
  datatype Value = Null | Number(n: int) | Text(s: string) | Sha256(of: string)

  /** A stored row or the row dict of an upsert. In a stored row a missing column reads as NULL. */
  type Row = map<Column, Value>

  function Read(row: Row, c: Column): Value {
    if c in row then row[c] else Null
  }

  function Lookup<K, V>(m: map<K, V>, k: K): Option<V> {
    if k in m then Some(m[k]) else None
  }

  // --- upserts --------------------------------------------------------------------------------

  /** How an upsert treats a row that exists: the two optional arguments of `_upsert`. */
  datatype Policy = Policy(onlyIfChanged: bool, keepWhenNewIsNull: set<Column>)

  const OVERWRITE := Policy(false, {})
  const ONLY_IF_CHANGED := Policy(true, {})
  const KEEP_SYNOPSIS := Policy(false, {Synopsis, SynopsisHash})

  /** `IS DISTINCT FROM` over the columns of the new row. */
  predicate Differs(stored: Row, incoming: Row) {
    exists c | c in incoming :: Read(stored, c) != incoming[c]
  }

  function Merge(stored: Row, incoming: Row, keep: set<Column>): Row {
    map c | c in stored.Keys + incoming.Keys ::
      if c !in incoming || (c in keep && incoming[c] == Null) then Read(stored, c) else incoming[c]
  }

  /** What one key holds after an upsert of `incoming`. */
  function Stored(stored: Option<Row>, incoming: Row, p: Policy): Row {
    match stored
    case None => incoming
    case Some(o) =>
      if p.onlyIfChanged && !Differs(o, incoming) then o else Merge(o, incoming, p.keepWhenNewIsNull)
  }

  predicate Writes(stored: Option<Row>, incoming: Row, p: Policy) {
    stored.None? || !p.onlyIfChanged || Differs(stored.value, incoming)
  }

  /** One `INSERT ... ON CONFLICT DO UPDATE`: every key at once, each seen as it was before. */
  function Statement<K>(table: map<K, Row>, rows: map<K, Row>, p: Policy): map<K, Row> {
    map k | k in table.Keys + rows.Keys ::
      if k in rows then Stored(Lookup(table, k), rows[k], p) else table[k]
  }

  function WrittenKeys<K>(table: map<K, Row>, rows: map<K, Row>, p: Policy): set<K> {
    set k | k in rows && Writes(Lookup(table, k), rows[k], p)
  }

  /** The reference: rows applied one after the other, in list order. */
  function RowByRow<K>(table: map<K, Row>, rows: seq<(K, Row)>, p: Policy): map<K, Row> {
    if rows == [] then table
    else
      var before := RowByRow(table, rows[..|rows| - 1], p);
      var last := rows[|rows| - 1];
      before[last.0 := Stored(Lookup(before, last.0), last.1, p)]
  }

  function RowByRowWrites<K>(table: map<K, Row>, rows: seq<(K, Row)>, p: Policy): nat {
    if rows == [] then 0
    else
      var before := RowByRow(table, rows[..|rows| - 1], p);
      var last := rows[|rows| - 1];
      RowByRowWrites(table, rows[..|rows| - 1], p)
        + if Writes(Lookup(before, last.0), last.1, p) then 1 else 0
  }

  predicate DistinctKeys<K(==)>(rows: seq<(K, Row)>) {
    forall i, j | 0 <= i < j < |rows| :: rows[i].0 != rows[j].0
  }

  /** The rows by key; the last row of a key counts. */
  function AsMap<K>(rows: seq<(K, Row)>): map<K, Row> {
    if rows == [] then map[]
    else AsMap(rows[..|rows| - 1])[rows[|rows| - 1].0 := rows[|rows| - 1].1]
  }

  lemma {:induction false} KeyOfAsMap<K>(rows: seq<(K, Row)>, k: K)
    ensures k in AsMap(rows) <==> exists i :: 0 <= i < |rows| && rows[i].0 == k
  {
    if rows != [] {
      var init := rows[..|rows| - 1];
      KeyOfAsMap(init, k);
      assert forall i | 0 <= i < |init| :: init[i] == rows[i];
      assert rows[|rows| - 1].0 == k ==> exists i :: 0 <= i < |rows| && rows[i].0 == k;
    }
  }

  lemma StatementOfOneMore<K>(table: map<K, Row>, rows: map<K, Row>, k: K, row: Row, p: Policy)
    requires k !in rows
    ensures Lookup(Statement(table, rows, p), k) == Lookup(table, k)
    ensures Statement(table, rows[k := row], p)
         == Statement(table, rows, p)[k := Stored(Lookup(table, k), row, p)]
  {
    var s, s' := Statement(table, rows, p), Statement(table, rows[k := row], p);
    assert s'.Keys == s.Keys + {k};
    forall x | x in s' && x != k ensures s'[x] == s[x] {
      assert x in rows <==> x in rows[k := row];
    }
  }

  lemma WritesOfOneMore<K>(table: map<K, Row>, rows: map<K, Row>, k: K, row: Row, p: Policy)
    requires k !in rows
    ensures |WrittenKeys(table, rows[k := row], p)|
         == |WrittenKeys(table, rows, p)| + if Writes(Lookup(table, k), row, p) then 1 else 0
  {
    var before, after := WrittenKeys(table, rows, p), WrittenKeys(table, rows[k := row], p);
    assert k !in before;
    forall x ensures x in after <==> x in before || (x == k && Writes(Lookup(table, k), row, p)) {
      if x != k { assert x in rows <==> x in rows[k := row]; }
    }
    assert after == if Writes(Lookup(table, k), row, p) then before + {k} else before;
  }

  /** On distinct keys a statement is the row-by-row fold, in effect and in rows written. */
  lemma {:induction false} StatementIsRowByRow<K>(table: map<K, Row>, rows: seq<(K, Row)>, p: Policy)
    requires DistinctKeys(rows)
    ensures Statement(table, AsMap(rows), p) == RowByRow(table, rows, p)
    ensures |WrittenKeys(table, AsMap(rows), p)| == RowByRowWrites(table, rows, p)
  {
    if rows != [] {
      var init, last := rows[..|rows| - 1], rows[|rows| - 1];
      StatementIsRowByRow(table, init, p);
      KeyOfAsMap(init, last.0);
      StatementOfOneMore(table, AsMap(init), last.0, last.1, p);
      WritesOfOneMore(table, AsMap(init), last.0, last.1, p);
    } else {
      assert WrittenKeys(table, AsMap(rows), p) == {};
    }
  }

  lemma {:induction false} RowByRowConcat<K>(table: map<K, Row>, a: seq<(K, Row)>, b: seq<(K, Row)>, p: Policy)
    ensures RowByRow(table, a + b, p) == RowByRow(RowByRow(table, a, p), b, p)
    ensures RowByRowWrites(table, a + b, p)
         == RowByRowWrites(table, a, p) + RowByRowWrites(RowByRow(table, a, p), b, p)
  {
    if b == [] {
      assert a + b == a;
    } else {
      var init := b[..|b| - 1];
      RowByRowConcat(table, a, init, p);
      assert (a + b)[..|a + b| - 1] == a + init;
      assert (a + b)[|a + b| - 1] == b[|b| - 1];
    }
  }

  /** Postgres refuses a statement that would touch one row twice; a refused call writes nothing
      that survives, because the caller's transaction can only be rolled back. */
  datatype Written<T> = Refused | Ok(table: T, count: nat)

  /** No statement of the call touches a row twice. */
  predicate EveryChunkDistinct<K(==)>(rows: seq<(K, Row)>, chunk: nat)
    requires chunk > 0
    decreases |rows|
  {
    rows == [] ||
    (DistinctKeys(rows[..Min(chunk, |rows|)]) && EveryChunkDistinct(rows[Min(chunk, |rows|)..], chunk))
  }

  lemma {:induction false} DistinctInEveryChunk<K>(rows: seq<(K, Row)>, chunk: nat)
    requires chunk > 0 && DistinctKeys(rows)
    ensures EveryChunkDistinct(rows, chunk)
    decreases |rows|
  {
    if rows != [] {
      DistinctInEveryChunk(rows[Min(chunk, |rows|)..], chunk);
    }
  }

  lemma NextStatement<K>(table: map<K, Row>, rows: seq<(K, Row)>, start: nat, end: nat, p: Policy)
    requires start <= end <= |rows| && DistinctKeys(rows[start..end])
    ensures RowByRow(table, rows[..end], p)
         == Statement(RowByRow(table, rows[..start], p), AsMap(rows[start..end]), p)
    ensures RowByRowWrites(table, rows[..end], p) == RowByRowWrites(table, rows[..start], p)
         + |WrittenKeys(RowByRow(table, rows[..start], p), AsMap(rows[start..end]), p)|
  {
    var t := RowByRow(table, rows[..start], p);
    StatementIsRowByRow(t, rows[start..end], p);
    RowByRowConcat(table, rows[..start], rows[start..end], p);
    assert rows[..start] + rows[start..end] == rows[..end];
  }

  lemma NextChunk<K>(rows: seq<(K, Row)>, start: nat, end: nat, chunk: nat)
    requires chunk > 0 && start < |rows| && end == Min(start + chunk, |rows|)
    ensures EveryChunkDistinct(rows[start..], chunk) <==>
      DistinctKeys(rows[start..end]) && EveryChunkDistinct(rows[end..], chunk)
  {
    var n := Min(chunk, |rows[start..]|);
    assert rows[start..][..n] == rows[start..end] && rows[start..][n..] == rows[end..];
  }

  /** `_upsert`: the rows go out in statements of `chunk` rows. */
  method Upsert<K(==)>(table: map<K, Row>, rows: seq<(K, Row)>, p: Policy, chunk: nat)
    returns (r: Written<map<K, Row>>)
    requires chunk > 0
    ensures r.Ok? <==> EveryChunkDistinct(rows, chunk)
    ensures r.Ok? ==> r.table == RowByRow(table, rows, p) && r.count == RowByRowWrites(table, rows, p)
    ensures DistinctKeys(rows) ==>
      r == Ok(Statement(table, AsMap(rows), p), |WrittenKeys(table, AsMap(rows), p)|)
  {
    var t, written, start := table, 0, 0;
    while start < |rows|
      invariant 0 <= start <= |rows|
      invariant t == RowByRow(table, rows[..start], p)
      invariant written == RowByRowWrites(table, rows[..start], p)
      invariant EveryChunkDistinct(rows, chunk) <==> EveryChunkDistinct(rows[start..], chunk)
    {
      var end := Min(start + chunk, |rows|);
      var statement := rows[start..end];
      NextChunk(rows, start, end, chunk);
      if !DistinctKeys(statement) {
        UpsertIsStatement(table, rows, p, chunk);
        return Refused;
      }
      NextStatement(table, rows, start, end, p);
      written := written + |WrittenKeys(t, AsMap(statement), p)|;
      t := Statement(t, AsMap(statement), p);
      start := end;
    }
    assert rows[..|rows|] == rows;
    UpsertIsStatement(table, rows, p, chunk);
    return Ok(t, written);
  }

  lemma UpsertIsStatement<K>(table: map<K, Row>, rows: seq<(K, Row)>, p: Policy, chunk: nat)
    requires chunk > 0
    ensures DistinctKeys(rows) ==>
      EveryChunkDistinct(rows, chunk) && Statement(table, AsMap(rows), p) == RowByRow(table, rows, p) &&
      |WrittenKeys(table, AsMap(rows), p)| == RowByRowWrites(table, rows, p)
  {
    if DistinctKeys(rows) {
      DistinctInEveryChunk(rows, chunk);
      StatementIsRowByRow(table, rows, p);
    }
  }

  // --- what an upsert leaves in the table ---------------------------------------------------------

  /** A column of a row that is written reads the new value; but the stored one where the new row does
      not have the column, or where NULL may not replace it. No other row changes. */
  lemma StatementReads<K>(table: map<K, Row>, rows: map<K, Row>, p: Policy, k: K, c: Column)
    ensures k in Statement(table, rows, p) <==> k in table || k in rows
    ensures k in table && k !in rows ==> Statement(table, rows, p)[k] == table[k]
    ensures k in rows ==>
      var was := if k in table then Read(table[k], c) else Null;
      Read(Statement(table, rows, p)[k], c)
        == if c !in rows[k] then was
           else if rows[k][c] == Null && c in p.keepWhenNewIsNull then was
           else rows[k][c]
  {
    if k in rows && k in table && p.onlyIfChanged && !Differs(table[k], rows[k]) {
      assert c in rows[k] ==> Read(table[k], c) == rows[k][c];
    }
  }

  /** `only_if_changed`: the rows counted are those that are new or read differently afterwards. The
      other upserts count every row. */
  lemma CountedRows<K>(table: map<K, Row>, rows: map<K, Row>, p: Policy, k: K)
    requires p.onlyIfChanged ==> p.keepWhenNewIsNull == {}
    ensures k in WrittenKeys(table, rows, p) <==>
      k in rows &&
      (!p.onlyIfChanged || k !in table ||
       exists c :: Read(Statement(table, rows, p)[k], c) != Read(table[k], c))
  {
    if k in rows && k in table && p.onlyIfChanged {
      if Differs(table[k], rows[k]) {
        var c :| c in rows[k] && Read(table[k], c) != rows[k][c];
        StatementReads(table, rows, p, k, c);
      } else {
        assert Statement(table, rows, p)[k] == table[k];
      }
    }
  }

  // --- the algebra of upserts -----------------------------------------------------------------

  predicate Agree<K(==), V(==)>(a: map<K, V>, b: map<K, V>) {
    forall k | k in a && k in b :: a[k] == b[k]
  }

  /** Upserting a row again leaves what the first time stored. */
  lemma StoredTwice(stored: Option<Row>, row: Row, p: Policy)
    ensures Stored(Some(Stored(stored, row, p)), row, p) == Stored(stored, row, p)
  {
  }

  /** Two statements that agree where they overlap are one statement of their union. */
  lemma StatementCompose<K>(table: map<K, Row>, a: map<K, Row>, b: map<K, Row>, p: Policy)
    requires Agree(a, b)
    ensures Statement(Statement(table, a, p), b, p) == Statement(table, a + b, p)
  {
    var s := Statement(table, a, p);
    var l, r := Statement(s, b, p), Statement(table, a + b, p);
    assert l.Keys == r.Keys;
    forall k | k in l ensures l[k] == r[k] {
      if k in a && k in b {
        StoredTwice(Lookup(table, k), a[k], p);
      } else if k in b {
        assert Lookup(s, k) == Lookup(table, k);
      }
    }
  }

  lemma WrittenCompose<K>(table: map<K, Row>, a: map<K, Row>, b: map<K, Row>, p: Policy)
    requires a.Keys !! b.Keys
    ensures |WrittenKeys(table, a + b, p)|
         == |WrittenKeys(table, a, p)| + |WrittenKeys(Statement(table, a, p), b, p)|
  {
    var s := Statement(table, a, p);
    var wa, wb, w := WrittenKeys(table, a, p), WrittenKeys(s, b, p), WrittenKeys(table, a + b, p);
    forall k ensures k in w <==> k in wa || k in wb {
      if k in b { assert Lookup(s, k) == Lookup(table, k); }
    }
    assert w == wa + wb && wa !! wb;
  }

  /** A repeated `only_if_changed` upsert writes no row. */
  lemma RepeatWritesNothing<K>(table: map<K, Row>, rows: map<K, Row>)
    ensures Statement(Statement(table, rows, ONLY_IF_CHANGED), rows, ONLY_IF_CHANGED)
         == Statement(table, rows, ONLY_IF_CHANGED)
    ensures WrittenKeys(Statement(table, rows, ONLY_IF_CHANGED), rows, ONLY_IF_CHANGED) == {}
  {
  }

  // --- link tables ----------------------------------------------------------------------------

  function LinksOf<L>(table: set<(int, L)>, anime: int): set<L> {
    set p | p in table && p.0 == anime :: p.1
  }

  /** The anime whose stored links are not the wanted ones. */
  function Changed<L>(table: set<(int, L)>, wanted: map<int, set<L>>): set<int> {
    set a | a in wanted && LinksOf(table, a) != wanted[a]
  }

  function Pairs<L>(wanted: map<int, set<L>>, animes: set<int>): set<(int, L)> {
    set a, l | a in animes && a in wanted && l in wanted[a] :: (a, l)
  }

  /** Exactly the wanted links for the wanted anime, and every other anime's links as they were. */
  function Replaced<L>(table: set<(int, L)>, wanted: map<int, set<L>>): set<(int, L)> {
    (set p | p in table && p.0 !in wanted) + Pairs(wanted, wanted.Keys)
  }

  /** No foreign key is broken by the rows that would be inserted. */
  predicate ParentsExist<L>(table: set<(int, L)>, wanted: map<int, set<L>>, parents: (int, L) -> bool) {
    forall p | p in Pairs(wanted, Changed(table, wanted)) :: parents(p.0, p.1)
  }

  method Listed<T(==)>(s: set<T>) returns (list: seq<T>)
    ensures |list| == |s|
    ensures forall x :: x in list <==> x in s
    ensures NoRepeats(list)
  {
    list := [];
    var rest := s;
    while rest != {}
      invariant rest <= s
      invariant forall x :: x in list <==> x in s && x !in rest
      invariant NoRepeats(list)
      invariant |list| + |rest| == |s|
      decreases |rest|
    {
      var x :| x in rest;
      list := list + [x];
      rest := rest - {x};
    }
  }

  predicate NoRepeats<T(==)>(s: seq<T>) {
    forall i, j | 0 <= i < j < |s| :: s[i] != s[j]
  }

  lemma OneMoreElement<T>(s: seq<T>, init: seq<T>, last: T)
    requires NoRepeats(s) && s == init + [last]
    ensures last !in SetOf(init) && SetOf(s) == SetOf(init) + {last}
  {
    forall x | x in init ensures x != last {
      var i :| 0 <= i < |init| && init[i] == x;
      assert s[i] == x && s[|init|] == last;
    }
  }

  lemma {:induction false} DistinctCount<T>(s: seq<T>)
    requires NoRepeats(s)
    ensures |SetOf(s)| == |s|
  {
    if s != [] {
      var init := s[..|s| - 1];
      DistinctCount(init);
      OneMoreElement(s, init, s[|s| - 1]);
    }
  }

  /** The next statement repeats no row, and none that is stored. */
  lemma NextInsert<T>(table: set<T>, rows: seq<T>, start: nat, end: nat)
    requires start <= end <= |rows| && NoRepeats(rows) && SetOf(rows) !! table
    ensures SetOf(rows[..end]) == SetOf(rows[..start]) + SetOf(rows[start..end])
    ensures |SetOf(rows[start..end])| == |rows[start..end]|
    ensures SetOf(rows[start..end]) !! table + SetOf(rows[..start])
    ensures SetOf(rows[start..end]) <= SetOf(rows)
  {
    DistinctCount(rows[start..end]);
    assert rows[..end] == rows[..start] + rows[start..end];
    forall p | p in rows[start..end] ensures p in SetOf(rows) && p !in rows[..start] {
    }
  }

  predicate Accepted<L(==)>(rows: set<(int, L)>, parents: (int, L) -> bool) {
    forall p | p in rows :: parents(p.0, p.1)
  }

  lemma AcceptedInParts<L>(a: set<(int, L)>, b: set<(int, L)>, parents: (int, L) -> bool)
    ensures Accepted(a + b, parents) <==> Accepted(a, parents) && Accepted(b, parents)
  {
  }

  lemma AllOrNothing<L>(part: set<(int, L)>, all: set<(int, L)>, parents: (int, L) -> bool)
    requires part <= all && Accepted(all, parents)
    ensures Accepted(part, parents)
  {
  }

  lemma Regroup<T>(a: set<T>, b: set<T>, c: set<T>)
    ensures (a + b) + c == a + (b + c)
  {
  }

  /** The insert loop of `_replace_links`. A statement that names a missing parent is refused. */
  method InsertLinks<L(==)>(table: set<(int, L)>, rows: seq<(int, L)>, parents: (int, L) -> bool, chunk: nat)
    returns (ok: bool, after: set<(int, L)>)
    requires chunk > 0 && NoRepeats(rows) && SetOf(rows) !! table
    ensures ok <==> Accepted(SetOf(rows), parents)
    ensures ok ==> after == table + SetOf(rows)
  {
    after := table;
    var start := 0;
    ghost var done: set<(int, L)> := {};
    while start < |rows|
      invariant 0 <= start <= |rows| && done == SetOf(rows[..start])
      invariant after == table + done && Accepted(done, parents)
    {
      var end := Min(start + chunk, |rows|);
      var statement := SetOf(rows[start..end]);
      NextInsert(table, rows, start, end);
      // No row comes twice or is stored already: the primary key has nothing to refuse.
      assert |statement| == end - start && statement !! after;
      if !Accepted(statement, parents) {
        if Accepted(SetOf(rows), parents) { AllOrNothing(statement, SetOf(rows), parents); }
        return false, table;
      }
      AcceptedInParts(done, statement, parents);
      Regroup(table, done, statement);
      done, after, start := done + statement, after + statement, end;
    }
    assert rows[..|rows|] == rows;
    ok := true;
  }

  /** `_replace_links`: read, compare in memory, delete the changed anime's rows, insert theirs. */
  method ReplaceLinks<L(==)>(table: set<(int, L)>, wanted: map<int, set<L>>, parents: (int, L) -> bool, chunk: nat)
    returns (r: Written<set<(int, L)>>)
    requires chunk > 0
    ensures r.Ok? <==> ParentsExist(table, wanted, parents)
    ensures r.Ok? ==> r == Ok(Replaced(table, wanted), |Changed(table, wanted)|)
  {
    var changed := Changed(table, wanted);
    if changed == {} {
      UnchangedLinks(table, wanted);
      return Ok(table, 0);
    }
    ReplacedIsDeleteInsert(table, wanted);
    var kept := set p | p in table && p.0 !in changed;
    var rows := Listed(Pairs(wanted, changed));
    assert SetOf(rows) == Pairs(wanted, changed);
    var ok, after := InsertLinks(kept, rows, parents, chunk);
    return if ok then Ok(after, |changed|) else Refused;
  }

  lemma UnchangedLinks<L>(table: set<(int, L)>, wanted: map<int, set<L>>)
    requires Changed(table, wanted) == {}
    ensures Replaced(table, wanted) == table
  {
    forall p ensures p in Replaced(table, wanted) <==> p in table {
      if p.0 in wanted {
        assert p.0 !in Changed(table, wanted);
        assert p.1 in wanted[p.0] <==> p.1 in LinksOf(table, p.0);
        assert p == (p.0, p.1);
      }
    }
  }

  lemma ReplacedIsDeleteInsert<L>(table: set<(int, L)>, wanted: map<int, set<L>>)
    ensures Replaced(table, wanted)
         == (set p | p in table && p.0 !in Changed(table, wanted)) + Pairs(wanted, Changed(table, wanted))
  {
  }

  /** Each wanted anime ends with its wanted set, every other anime keeps its links, and doing it
      again finds nothing to change. */
  lemma LinksReplacedExactly<L>(table: set<(int, L)>, wanted: map<int, set<L>>)
    ensures forall a :: LinksOf(Replaced(table, wanted), a) == if a in wanted then wanted[a] else LinksOf(table, a)
    ensures Changed(Replaced(table, wanted), wanted) == {}
  {
  }

  lemma ReplacedCompose<L>(table: set<(int, L)>, a: map<int, set<L>>, b: map<int, set<L>>)
    requires Agree(a, b)
    ensures Replaced(Replaced(table, a), b) == Replaced(table, a + b)
  {
  }

  lemma ChangedCompose<L>(table: set<(int, L)>, a: map<int, set<L>>, b: map<int, set<L>>)
    requires a.Keys !! b.Keys
    ensures |Changed(table, a + b)| == |Changed(table, a)| + |Changed(Replaced(table, a), b)|
  {
    LinksReplacedExactly(table, a);
    var ca, cb, c := Changed(table, a), Changed(Replaced(table, a), b), Changed(table, a + b);
    assert c == ca + cb && ca !! cb;
  }
}
