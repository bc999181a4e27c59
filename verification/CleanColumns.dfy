/** Which columns a clean run may touch, and what becomes of a renamed tag. */
module CleanColumns {
  import opened Base
  import opened Catalogue
  import opened Parsers
  import opened CleanSpec
  import opened CleanBatch

  // --- column ownership ---------------------------------------------------------------------------

  /** The scores other pipelines write. */
  const FOREIGN: set<Column> := { ImdbScore, AnilistScore }

  predicate Untouched<K(==)>(before: map<K, Row>, after: map<K, Row>) {
    forall k | k in before :: k in after && forall c | c in FOREIGN :: Read(after[k], c) == Read(before[k], c)
  }

  /** The hash is the synopsis's own, and absent when there is no synopsis. */
  predicate Paired(row: Row) {
    Read(row, SynopsisHash) == HashFor(Read(row, Synopsis))
  }

  predicate AllPaired(episodes: map<(int, int), Row>) {
    forall k | k in episodes :: Paired(episodes[k])
  }

  predicate OwnColumns(row: Row) {
    forall c | c in FOREIGN :: c !in row
  }

  /** An episode row as the parser builds it: both synopsis columns are set, or neither. */
  predicate ParsedEpisode(row: Row) {
    OwnColumns(row) && Paired(row) && Synopsis in row && SynopsisHash in row &&
    (row[Synopsis] == Null <==> row[SynopsisHash] == Null)
  }

  predicate AllOwn<K(==)>(rows: map<K, Row>) {
    forall k | k in rows :: OwnColumns(rows[k])
  }

  predicate Shaped(d: Delta) {
    AllOwn(d.anime) && AllOwn(d.episodes) && forall k | k in d.episodes :: ParsedEpisode(d.episodes[k])
  }

  lemma {:induction false} EpisodeRowsShaped(items: seq<EpisodeItem>, animeId: int)
    ensures forall k | k in EpisodeRows(items, animeId) :: ParsedEpisode(EpisodeRows(items, animeId)[k])
  {
    if items != [] {
      EpisodeRowsShaped(items[..|items| - 1], animeId);
    }
  }

  lemma AnimeRowShaped(p: Payload)
    ensures CleanFull(p).Some? ==> OwnColumns(CleanFull(p).value.1)
  {
  }

  lemma ParseShaped(doc: RawDoc)
    ensures Shaped(Parse(doc))
  {
    if doc.key.resource.Episodes? {
      if doc.payload.EpisodesData? {
        EpisodeRowsShaped(Flatten(doc.payload.pages), doc.key.malId);
      }
    } else if doc.key.resource.Details? {
      AnimeRowShaped(doc.payload);
    }
  }

  lemma NewShaped(doc: RawDoc, present: set<int>, tags: Names, studios: Names)
    ensures Shaped(OnlyNew(Contribution(doc, present), tags, studios))
  {
    ParseShaped(doc);
  }

  lemma OwnSum<K>(a: map<K, Row>, b: map<K, Row>)
    requires AllOwn(a) && AllOwn(b)
    ensures AllOwn(a + b)
  {
  }

  lemma SumShaped(a: Delta, b: Delta)
    requires Shaped(a) && Shaped(b)
    ensures Shaped(Plus(a, b))
  {
    OwnSum(a.anime, b.anime);
    OwnSum(a.episodes, b.episodes);
  }

  lemma {:induction false} BatchShaped(docs: seq<RawDoc>, present: set<int>, tags: Names, studios: Names)
    ensures Shaped(BatchDelta(docs, present, tags, studios))
  {
    if docs != [] {
      BatchShaped(docs[..|docs| - 1], present, tags, studios);
      NewShaped(docs[|docs| - 1], present, tags, studios);
      SumShaped(BatchDelta(docs[..|docs| - 1], present, tags, studios),
        OnlyNew(Contribution(docs[|docs| - 1], present), tags, studios));
    }
  }

  lemma StatementOwnsItsColumns<K>(table: map<K, Row>, rows: map<K, Row>, p: Policy)
    requires AllOwn(rows)
    ensures Untouched(table, Statement(table, rows, p))
  {
  }

  lemma PairSurvives(stored: Option<Row>, row: Row)
    requires ParsedEpisode(row) && (stored.Some? ==> Paired(stored.value))
    ensures Paired(Stored(stored, row, KEEP_SYNOPSIS))
  {
  }

  lemma EpisodesStayPaired(t: Tables, d: Delta)
    requires Shaped(d) && AllPaired(t.episodes)
    ensures AllPaired(Apply(t, d).episodes)
  {
  }

  /** One committed batch, whatever its rows, sizes and caches. */
  datatype Batch = Batch(docs: seq<RawDoc>, tags: Names, studios: Names)

  function CleanBatchOf(t: Tables, b: Batch): Tables {
    CleanRows(t, b.docs, b.tags, b.studios)
  }

  lemma ApplyOwnsItsColumns(t: Tables, d: Delta)
    requires Shaped(d)
    ensures Untouched(t.anime, Apply(t, d).anime) && Untouched(t.episodes, Apply(t, d).episodes)
  {
    StatementOwnsItsColumns(t.anime, d.anime, ONLY_IF_CHANGED);
    StatementOwnsItsColumns(t.episodes, d.episodes, KEEP_SYNOPSIS);
  }

  lemma BatchOwnsItsColumns(t: Tables, b: Batch)
    ensures Untouched(t.anime, CleanBatchOf(t, b).anime) && Untouched(t.episodes, CleanBatchOf(t, b).episodes)
    ensures AllPaired(t.episodes) ==> AllPaired(CleanBatchOf(t, b).episodes)
  {
    var d := BatchDelta(b.docs, Present(t, b.docs), b.tags, b.studios);
    BatchShaped(b.docs, Present(t, b.docs), b.tags, b.studios);
    ApplyOwnsItsColumns(t, d);
    if AllPaired(t.episodes) {
      EpisodesStayPaired(t, d);
    }
  }

  lemma UntouchedTwice<K>(a: map<K, Row>, b: map<K, Row>, c: map<K, Row>)
    requires Untouched(a, b) && Untouched(b, c)
    ensures Untouched(a, c)
  {
  }

  /** No sequence of clean batches changes a score that belongs to another pipeline, and every
      synopsis keeps its own hash although the two columns are protected separately. */
  lemma {:induction false} RunsOwnTheirColumns(t: Tables, batches: seq<Batch>)
    ensures var after := FoldLeft(CleanBatchOf, t, batches);
      Untouched(t.anime, after.anime) && Untouched(t.episodes, after.episodes) &&
      (AllPaired(t.episodes) ==> AllPaired(after.episodes))
  {
    if batches != [] {
      var b := batches[|batches| - 1];
      var before := FoldLeft(CleanBatchOf, t, batches[..|batches| - 1]);
      RunsOwnTheirColumns(t, batches[..|batches| - 1]);
      BatchOwnsItsColumns(before, b);
      UntouchedTwice(t.anime, before.anime, CleanBatchOf(before, b).anime);
      UntouchedTwice(t.episodes, before.episodes, CleanBatchOf(before, b).episodes);
    }
  }

  // --- synopses ------------------------------------------------------------------------------------

  type EpisodeTable = map<(int, int), Row>

  function SynopsisIn(episodes: EpisodeTable, k: (int, int)): Value {
    if k in episodes then Read(episodes[k], Synopsis) else Null
  }

  /** The episode table upsert after upsert. */
  predicate UpsertsOf(tables: seq<EpisodeTable>, writes: seq<EpisodeTable>) {
    |tables| == |writes| + 1 &&
    forall j | 0 <= j < |writes| :: tables[j + 1] == Statement(tables[j], writes[j], KEEP_SYNOPSIS)
  }

  /** To the episode table a batch is one upsert. */
  lemma BatchUpsertsEpisodes(t: Tables, batches: seq<Batch>, n: nat)
    requires n < |batches|
    ensures var before := FoldLeft(CleanBatchOf, t, batches[..n]);
      var d := BatchDelta(batches[n].docs, Present(before, batches[n].docs), batches[n].tags, batches[n].studios);
      FoldLeft(CleanBatchOf, t, batches[..n + 1]).episodes == Statement(before.episodes, d.episodes, KEEP_SYNOPSIS)
  {
    assert batches[..n + 1][..n] == batches[..n];
  }

  lemma NextSynopsis(before: EpisodeTable, writes: EpisodeTable, after: EpisodeTable, k: (int, int))
    requires after == Statement(before, writes, KEEP_SYNOPSIS)
    ensures SynopsisIn(after, k)
         == if SynopsisIn(writes, k) != Null then SynopsisIn(writes, k) else SynopsisIn(before, k)
  {
    StatementReads(before, writes, KEEP_SYNOPSIS, k, Synopsis);
  }

  lemma {:induction false} NoneBrought(tables: seq<EpisodeTable>, writes: seq<EpisodeTable>, k: (int, int), i: nat,
                                       n: nat)
    requires UpsertsOf(tables, writes) && i <= n <= |writes|
    requires forall j | i <= j < n :: SynopsisIn(writes[j], k) == Null
    ensures SynopsisIn(tables[n], k) == SynopsisIn(tables[i], k)
  {
    if i < n {
      NoneBrought(tables, writes, k, i, n - 1);
      NextSynopsis(tables[n - 1], writes[n - 1], tables[n], k);
    }
  }

  /** After any number of upserts an episode has the synopsis that the last upsert with one for it
      brought, here the `i`-th, and the one it had before when none did: no response without a synopsis
      ever removes one. */
  lemma LastSynopsisStays(tables: seq<EpisodeTable>, writes: seq<EpisodeTable>, k: (int, int), i: nat)
    requires UpsertsOf(tables, writes) && i <= |writes| && (i > 0 ==> SynopsisIn(writes[i - 1], k) != Null)
    requires forall j | i <= j < |writes| :: SynopsisIn(writes[j], k) == Null
    ensures SynopsisIn(tables[|writes|], k) == if i == 0 then SynopsisIn(tables[0], k) else SynopsisIn(writes[i - 1], k)
  {
    NoneBrought(tables, writes, k, i, |writes|);
    if i > 0 { NextSynopsis(tables[i - 1], writes[i - 1], tables[i], k); }
  }

  lemma BatchKeepsSynopsis(t: Tables, b: Batch, k: (int, int))
    requires SynopsisIn(t.episodes, k) != Null
    ensures SynopsisIn(CleanBatchOf(t, b).episodes, k) != Null
  {
    var d := BatchDelta(b.docs, Present(t, b.docs), b.tags, b.studios);
    NextSynopsis(t.episodes, d.episodes, CleanBatchOf(t, b).episodes, k);
  }

  /** So no sequence of batches loses a stored synopsis. */
  lemma {:induction false} RunsKeepSynopses(t: Tables, batches: seq<Batch>, k: (int, int))
    requires SynopsisIn(t.episodes, k) != Null
    ensures SynopsisIn(FoldLeft(CleanBatchOf, t, batches).episodes, k) != Null
  {
    if batches != [] {
      RunsKeepSynopses(t, batches[..|batches| - 1], k);
      BatchKeepsSynopsis(FoldLeft(CleanBatchOf, t, batches[..|batches| - 1]), batches[|batches| - 1], k);
    }
  }

  // --- renamed tags -------------------------------------------------------------------------------

  /** The name a batch gives an id: the last one that differs from the cache. */
  function BatchName(docs: seq<RawDoc>, cache: Names, id: int): Option<string> {
    if docs == [] then None
    else
      var names := Parse(docs[|docs| - 1]).tagNames;
      if id in names && !(id in cache && cache[id] == names[id]) then Some(names[id])
      else BatchName(docs[..|docs| - 1], cache, id)
  }

  /** The last name the responses give an id. */
  function LastName(docs: seq<RawDoc>, id: int): Option<string> {
    BatchName(docs, map[], id)
  }

  predicate Renames(doc: RawDoc, cache: Names, id: int) {
    id in Parse(doc).tagNames && !(id in cache && cache[id] == Parse(doc).tagNames[id])
  }

  /** A tag is renamed by one response and given its stored name back by a later one. */
  predicate RenamedAndBack(docs: seq<RawDoc>, cache: Names, id: int) {
    id in cache && LastName(docs, id) == Some(cache[id]) && !NoneRenames(docs, cache, id)
  }

  lemma ContributedNames(doc: RawDoc, present: set<int>)
    ensures Contribution(doc, present).tagNames == Parse(doc).tagNames
  {
  }

  lemma NameOfSum(a: Names, b: Names, id: int)
    ensures Lookup(a + b, id) == if id in b then Some(b[id]) else Lookup(a, id)
  {
  }

  lemma {:induction false} BatchNameOf(docs: seq<RawDoc>, present: set<int>, tags: Names, studios: Names, id: int)
    ensures Lookup(BatchDelta(docs, present, tags, studios).tagNames, id) == BatchName(docs, tags, id)
  {
    if docs != [] {
      var init, last := docs[..|docs| - 1], docs[|docs| - 1];
      BatchNameOf(init, present, tags, studios, id);
      ContributedNames(last, present);
      NameOfSum(BatchDelta(init, present, tags, studios).tagNames, New(Parse(last).tagNames, tags), id);
    }
  }

  predicate NoneRenames(docs: seq<RawDoc>, cache: Names, id: int) {
    forall i | 0 <= i < |docs| :: !Renames(docs[i], cache, id)
  }

  lemma {:induction false} NothingRenamed(docs: seq<RawDoc>, cache: Names, id: int)
    ensures BatchName(docs, cache, id) == None <==> NoneRenames(docs, cache, id)
  {
    if docs != [] {
      var init := docs[..|docs| - 1];
      NothingRenamed(init, cache, id);
      assert forall i | 0 <= i < |init| :: docs[i] == init[i];
    }
  }

  /** `batch` is a name that differs from the cache, and differs from `last` only where the cache
      has `last`. */
  predicate SameUnlessStored(batch: Option<string>, last: Option<string>, cache: Names, id: int) {
    (id in cache ==> batch != Some(cache[id])) && (batch == last || (id in cache && last == Some(cache[id])))
  }

  lemma {:induction false} LastUnlessStored(docs: seq<RawDoc>, cache: Names, id: int)
    ensures SameUnlessStored(BatchName(docs, cache, id), LastName(docs, id), cache, id)
  {
    if docs != [] {
      LastUnlessStored(docs[..|docs| - 1], cache, id);
    }
  }

  lemma NamesAfterOne(t: Tables, doc: RawDoc)
    ensures NamesIn(CleanOne(t, doc).tags) == NamesIn(t.tags) + Parse(doc).tagNames
  {
    NamesAfterUpsert(t.tags, Given(t, doc).tagNames);
    assert Given(t, doc).tagNames == Parse(doc).tagNames;
  }

  lemma {:induction false} FoldNameOf(t: Tables, docs: seq<RawDoc>, id: int)
    ensures Lookup(NamesIn(Fold(t, docs).tags), id)
         == if LastName(docs, id).Some? then LastName(docs, id) else Lookup(NamesIn(t.tags), id)
  {
    if docs != [] {
      var init, last := docs[..|docs| - 1], docs[|docs| - 1];
      FoldNameOf(t, init, id);
      NamesAfterOne(Fold(t, init), last);
      assert Fold(t, docs) == CleanOne(Fold(t, init), last);
    }
  }

  /** The names a batch stores are those of cleaning the responses one by one exactly when it does
      not rename a tag and name it back: such a batch keeps the name in between, because every name
      is compared with the cache as it was when the batch began. */
  lemma TagNamesDependOnBatch(t: Tables, docs: seq<RawDoc>, id: int)
    ensures Lookup(NamesIn(CleanRows(t, docs, NamesIn(t.tags), NamesIn(t.studios)).tags), id)
            == Lookup(NamesIn(Fold(t, docs).tags), id)
       <==> !RenamedAndBack(docs, NamesIn(t.tags), id)
  {
    var tags, studios := NamesIn(t.tags), NamesIn(t.studios);
    var d := BatchDelta(docs, Present(t, docs), tags, studios);
    BatchNameOf(docs, Present(t, docs), tags, studios, id);
    NamesAfterUpsert(t.tags, d.tagNames);
    FoldNameOf(t, docs, id);
    NothingRenamed(docs, tags, id);
    LastUnlessStored(docs, tags, id);
  }

  lemma RenamedAndBackExample(docs: seq<RawDoc>, cache: Names)
    requires docs == [NamedTag(1, "B"), NamedTag(2, "A")] && cache == map[7 := "A"]
    ensures RenamedAndBack(docs, cache, 7)
  {
    NamedTagNames(1, "B");
    NamedTagNames(2, "A");
    assert Renames(docs[0], cache, 7);
    assert LastName(docs, 7) == Some("A");
  }

  const ONLY_TAG_A :=
    Tables(map[], map[7 := map[Name := Text("A")]], map[], {}, {}, {}, map[], map[], map[])

  lemma OnlyTagANames(t: Tables)
    requires t == ONLY_TAG_A
    ensures NamesIn(t.tags) == map[7 := "A"]
  {
  }

  /** Tag 7 is stored as "A"; one response names it "B" and the next "A". In one batch the tag ends
      as "B", one by one as "A". */
  lemma RenamedAndBackHappens(t: Tables, docs: seq<RawDoc>)
    requires t == ONLY_TAG_A && docs == [NamedTag(1, "B"), NamedTag(2, "A")]
    ensures Lookup(NamesIn(CleanRows(t, docs, NamesIn(t.tags), NamesIn(t.studios)).tags), 7)
         != Lookup(NamesIn(Fold(t, docs).tags), 7)
  {
    OnlyTagANames(t);
    RenamedAndBackExample(docs, NamesIn(t.tags));
    TagNamesDependOnBatch(t, docs, 7);
  }

  function NamedTag(id: int, name: string): RawDoc {
    RawDoc(Key(id, Details), DetailsData(Some(id), map[Title := Text("t")], [[NamedItem(Some(7), Some(name))]], [], []))
  }

  lemma NamedTagNames(id: int, name: string)
    requires id != 0
    ensures Parse(NamedTag(id, name)).tagNames == map[7 := name]
  {
    var items := [NamedItem(Some(7), Some(name))];
    var lists := [items];
    assert lists[..0] == [] && items[..0] == [];
    assert Flatten(lists) == [] + items == items;
    assert Parsers.Names(items) == map[7 := name];
    assert CleanFull(NamedTag(id, name).payload).Some?;
  }
}
