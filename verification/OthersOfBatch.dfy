/** The other half of a batch, as the loop of `_clean_others` in app/ingestion/jobs/clean_raw_job.py:
    statistics, episodes and reviews, for the anime that have a row. */
module OthersOfBatch {
  import opened Base
  import opened Catalogue
  import opened Parsers
  import opened CleanSpec
  import opened CleanBatch
  import opened CleanCounts
  import opened DetailsOfBatch

  /** The lists the loop fills, and its counts. */
  datatype Lists = Lists(
    statistics: seq<(int, Row)>, episodes: seq<((int, int), Row)>, reviews: seq<(int, Row)>,
    parseFailed: nat, skippedNoAnime: nat, skippedUnsupported: nat)

  function WritesOf(l: Lists): Delta {
    NOTHING.(statistics := AsMap(l.statistics), episodes := AsMap(l.episodes), reviews := AsMap(l.reviews))
  }

  predicate Distinct(l: Lists) {
    DistinctKeys(l.statistics) && DistinctKeys(l.episodes) && DistinctKeys(l.reviews)
  }

  /** The foreign keys of the three tables. */
  predicate ParentsOf(l: Lists, anime: set<int>) {
    (forall i | 0 <= i < |l.statistics| :: l.statistics[i].0 in anime) &&
    (forall i | 0 <= i < |l.episodes| :: l.episodes[i].0.0 in anime) &&
    (forall i | 0 <= i < |l.reviews| ::
      Read(l.reviews[i].1, AnimeId).Number? && Read(l.reviews[i].1, AnimeId).n in anime)
  }

  /** A list grows by rows with new keys. */
  lemma Extended<K>(a: seq<(K, Row)>, b: seq<(K, Row)>, m: map<K, Row>)
    requires AsMap(b) == m && DistinctKeys(b)
    ensures AsMap(a + b) == AsMap(a) + m
    ensures DistinctKeys(a) && AsMap(a).Keys !! m.Keys ==> DistinctKeys(a + b)
  {
    AsMapConcat(a, b);
    if DistinctKeys(a) && AsMap(a).Keys !! m.Keys {
      DistinctConcat(a, b);
    }
  }

  lemma RowOfAsMap<K>(rows: seq<(K, Row)>, i: nat)
    requires i < |rows| && DistinctKeys(rows)
    ensures rows[i].0 in AsMap(rows) && AsMap(rows)[rows[i].0] == rows[i].1
    decreases |rows|
  {
  }

  method AddStatistics(l: Lists, p: Payload, id: int, anime: set<int>) returns (l': Lists)
    requires ParentsOf(l, anime) && id in anime
    ensures ParentsOf(l', anime)
    ensures WritesOf(l') == WritesOf(l).(statistics := AsMap(l.statistics)
      + match CleanStatistics(p) case None => map[] case Some(row) => map[id := row])
    ensures l' ==
      l.(statistics := l'.statistics, parseFailed := l.parseFailed + if CleanStatistics(p).None? then 1 else 0)
    ensures DistinctKeys(l.statistics) && (CleanStatistics(p).Some? ==> id !in AsMap(l.statistics)) ==>
      DistinctKeys(l'.statistics)
  {
    match CleanStatistics(p) {
      case None => l' := l.(parseFailed := l.parseFailed + 1);
      case Some(row) =>
        l' := l.(statistics := l.statistics + [(id, row)]);
        AsMapAppend(l.statistics, (id, row));
        KeyOfAsMap(l.statistics, id);
    }
  }

  method AddEpisodeRows(l: Lists, p: Payload, id: int, anime: set<int>) returns (l': Lists)
    requires ParentsOf(l, anime) && id in anime
    ensures ParentsOf(l', anime)
    ensures l' == l.(episodes := l'.episodes) && AsMap(l'.episodes) == AsMap(l.episodes) + EpisodesOf(p, id)
    ensures DistinctKeys(l.episodes) && AsMap(l.episodes).Keys !! EpisodesOf(p, id).Keys ==> DistinctKeys(l'.episodes)
  {
    var episodes := CleanEpisodes(p, id);
    var rows := Items(episodes);
    Extended(l.episodes, rows, episodes);
    forall i | 0 <= i < |rows| ensures rows[i].0.0 == id {
      RowOfAsMap(rows, i);
      EpisodesNameTheirAnime(Flatten(p.pages), id, rows[i].0);
    }
    l' := l.(episodes := l.episodes + rows);
  }

  method AddReviewRows(l: Lists, p: Payload, id: int, anime: set<int>) returns (l': Lists)
    requires ParentsOf(l, anime) && id in anime
    ensures ParentsOf(l', anime)
    ensures l' == l.(reviews := l'.reviews) && AsMap(l'.reviews) == AsMap(l.reviews) + ReviewsOf(p, id)
    ensures DistinctKeys(l.reviews) && AsMap(l.reviews).Keys !! ReviewsOf(p, id).Keys ==> DistinctKeys(l'.reviews)
  {
    var reviews := CleanReviews(p, id);
    var rows := Items(reviews);
    Extended(l.reviews, rows, reviews);
    forall i | 0 <= i < |rows| ensures Read(rows[i].1, AnimeId) == Number(id) {
      RowOfAsMap(rows, i);
      ReviewsNameTheirAnime(p.items, id, rows[i].0);
    }
    l' := l.(reviews := l.reviews + rows);
  }

  // --- one more response is one more contribution --------------------------------------------------

  lemma PlusEmpty(d: Delta)
    ensures Plus(d, NOTHING) == d
  {
    PlusNothing(d, map[], map[]);
    NoNewNames(map[]);
    assert OnlyNew(NOTHING, map[], map[]) == NOTHING;
  }

  lemma PlusStatistics(d: Delta, m: map<int, Row>)
    ensures Plus(d, NOTHING.(statistics := m)) == d.(statistics := d.statistics + m)
  {
    PlusEmpty(d);
  }

  lemma PlusEpisodes(d: Delta, m: map<(int, int), Row>)
    ensures Plus(d, NOTHING.(episodes := m)) == d.(episodes := d.episodes + m)
  {
    PlusEmpty(d);
  }

  lemma PlusReviews(d: Delta, m: map<int, Row>)
    ensures Plus(d, NOTHING.(reviews := m)) == d.(reviews := d.reviews + m)
  {
    PlusEmpty(d);
  }

  lemma ContributedStatistics(doc: RawDoc, present: set<int>)
    requires doc.key.resource.Statistics? && doc.key.malId in present
    ensures Contribution(doc, present) == NOTHING.(statistics :=
      match CleanStatistics(doc.payload) case None => map[] case Some(row) => map[doc.key.malId := row])
  {
  }

  lemma ContributedEpisodes(doc: RawDoc, present: set<int>)
    requires doc.key.resource.Episodes? && doc.key.malId in present
    ensures Contribution(doc, present) == NOTHING.(episodes := EpisodesOf(doc.payload, doc.key.malId))
  {
  }

  lemma ContributedReviews(doc: RawDoc, present: set<int>)
    requires doc.key.resource.Reviews? && doc.key.malId in present
    ensures Contribution(doc, present) == NOTHING.(reviews := ReviewsOf(doc.payload, doc.key.malId))
  {
  }

  lemma ContributedNothing(doc: RawDoc, present: set<int>)
    requires !IsDetails(doc) && (doc.key.malId !in present || doc.key.resource.Characters?)
    ensures Contribution(doc, present) == NOTHING
  {
  }

  method SortStatistics(l: Lists, doc: RawDoc, present: set<int>) returns (l': Lists)
    requires doc.key.resource.Statistics? && doc.key.malId in present && ParentsOf(l, present)
    ensures ParentsOf(l', present)
    ensures WritesOf(l') == Plus(WritesOf(l), Contribution(doc, present))
    ensures l' == l.(statistics := l'.statistics, parseFailed := l.parseFailed + DocCount(ParseFailed, doc, present))
    ensures Distinct(l) && WritesOf(l).statistics.Keys !! Contribution(doc, present).statistics.Keys ==> Distinct(l')
  {
    ContributedStatistics(doc, present);
    var m := Contribution(doc, present).statistics;
    l' := AddStatistics(l, doc.payload, doc.key.malId, present);
    PlusStatistics(WritesOf(l), m);
  }

  method SortEpisodes(l: Lists, doc: RawDoc, present: set<int>) returns (l': Lists)
    requires doc.key.resource.Episodes? && doc.key.malId in present && ParentsOf(l, present)
    ensures ParentsOf(l', present)
    ensures WritesOf(l') == Plus(WritesOf(l), Contribution(doc, present))
    ensures l' == l.(episodes := l'.episodes)
    ensures Distinct(l) && WritesOf(l).episodes.Keys !! Contribution(doc, present).episodes.Keys ==> Distinct(l')
  {
    ContributedEpisodes(doc, present);
    l' := AddEpisodeRows(l, doc.payload, doc.key.malId, present);
    PlusEpisodes(WritesOf(l), EpisodesOf(doc.payload, doc.key.malId));
  }

  method SortReviews(l: Lists, doc: RawDoc, present: set<int>) returns (l': Lists)
    requires doc.key.resource.Reviews? && doc.key.malId in present && ParentsOf(l, present)
    ensures ParentsOf(l', present)
    ensures WritesOf(l') == Plus(WritesOf(l), Contribution(doc, present))
    ensures l' == l.(reviews := l'.reviews)
    ensures Distinct(l) && WritesOf(l).reviews.Keys !! Contribution(doc, present).reviews.Keys ==> Distinct(l')
  {
    ContributedReviews(doc, present);
    l' := AddReviewRows(l, doc.payload, doc.key.malId, present);
    PlusReviews(WritesOf(l), ReviewsOf(doc.payload, doc.key.malId));
  }

  predicate Counted(l: Lists, l': Lists, doc: RawDoc, present: set<int>) {
    l'.parseFailed == l.parseFailed + DocCount(ParseFailed, doc, present) &&
    l'.skippedNoAnime == l.skippedNoAnime + DocCount(SkippedNoAnime, doc, present) &&
    l'.skippedUnsupported == l.skippedUnsupported + DocCount(SkippedUnsupported, doc, present)
  }

  /** One turn of the loop. */
  method Sort(l: Lists, doc: RawDoc, present: set<int>) returns (l': Lists)
    requires !IsDetails(doc) && ParentsOf(l, present)
    ensures ParentsOf(l', present) && Counted(l, l', doc, present)
    ensures WritesOf(l') == Plus(WritesOf(l), Contribution(doc, present))
    ensures Distinct(l) && Compatible(WritesOf(l), Contribution(doc, present)) ==> Distinct(l')
  {
    if doc.key.malId !in present {
      l' := l.(skippedNoAnime := l.skippedNoAnime + 1);
      Skipped(l, l', doc, present);
    } else {
      match doc.key.resource {
        case Statistics => l' := SortStatistics(l, doc, present);
        case Episodes => l' := SortEpisodes(l, doc, present);
        case Reviews => l' := SortReviews(l, doc, present);
        case Characters =>
          l' := l.(skippedUnsupported := l.skippedUnsupported + 1);
          Skipped(l, l', doc, present);
      }
    }
  }

  lemma Skipped(l: Lists, l': Lists, doc: RawDoc, present: set<int>)
    requires !IsDetails(doc) && (doc.key.malId !in present || doc.key.resource.Characters?)
    requires l' == l.(skippedNoAnime := l'.skippedNoAnime, skippedUnsupported := l'.skippedUnsupported)
    ensures WritesOf(l') == Plus(WritesOf(l), Contribution(doc, present))
  {
    ContributedNothing(doc, present);
    PlusEmpty(WritesOf(l));
  }

  lemma OthersOneMore(others: seq<RawDoc>, i: nat, present: set<int>)
    requires i < |others|
    ensures FullDelta(others[..i + 1], present)
         == Plus(FullDelta(others[..i], present), Contribution(others[i], present))
  {
    assert others[..i + 1][..i] == others[..i];
  }

  lemma TotalOneMore(key: CountKey, others: seq<RawDoc>, i: nat, present: set<int>)
    requires i < |others|
    ensures DocTotal(key, others[..i + 1], present)
         == DocTotal(key, others[..i], present) + DocCount(key, others[i], present)
  {
    assert others[..i + 1][..i] == others[..i];
  }

  predicate CountedAll(l: Lists, others: seq<RawDoc>, present: set<int>) {
    l.parseFailed == DocTotal(ParseFailed, others, present) &&
    l.skippedNoAnime == DocTotal(SkippedNoAnime, others, present) &&
    l.skippedUnsupported == DocTotal(SkippedUnsupported, others, present)
  }

  lemma EarlierIsCompatible(docs: seq<RawDoc>, j: nat, i: nat)
    requires Good(docs) && j < i < |docs|
    ensures Compatible(Parse(docs[j]), Parse(docs[i]))
  {
    assert Less(docs[j].key, docs[i].key) && Consistent(docs[j], docs[i]);
    ParsedCompatible(docs[j], docs[i]);
  }

  lemma NextIsCompatible(docs: seq<RawDoc>, i: nat, present: set<int>)
    requires Good(docs) && i < |docs|
    ensures Compatible(FullDelta(docs[..i], present), Contribution(docs[i], present))
  {
    forall j | 0 <= j < i ensures Compatible(Parse(docs[..i][j]), Parse(docs[i])) {
      EarlierIsCompatible(docs, j, i);
    }
    FullDeltaCompatible(docs[..i], present, docs[i]);
  }

  lemma CountedMore(l: Lists, l': Lists, others: seq<RawDoc>, i: nat, present: set<int>)
    requires i < |others| && CountedAll(l, others[..i], present) && Counted(l, l', others[i], present)
    ensures CountedAll(l', others[..i + 1], present)
  {
    TotalOneMore(ParseFailed, others, i, present);
    TotalOneMore(SkippedNoAnime, others, i, present);
    TotalOneMore(SkippedUnsupported, others, i, present);
  }

  method SortAll(others: seq<RawDoc>, present: set<int>) returns (l: Lists)
    requires forall i | 0 <= i < |others| :: !IsDetails(others[i])
    ensures WritesOf(l) == FullDelta(others, present) && ParentsOf(l, present) && CountedAll(l, others, present)
    ensures Good(others) ==> Distinct(l)
  {
    l := Lists([], [], [], 0, 0, 0);
    ghost var good := Good(others);
    ghost var d := NOTHING;
    for i := 0 to |others|
      invariant WritesOf(l) == d && ParentsOf(l, present)
      invariant d == FullDelta(others[..i], present)
      invariant CountedAll(l, others[..i], present)
      invariant good ==> Distinct(l)
    {
      ghost var before := l;
      l := Sort(l, others[i], present);
      if good {
        NextIsCompatible(others, i, present);
      }
      OthersOneMore(others, i, present);
      CountedMore(before, l, others, i, present);
      d := Plus(d, Contribution(others[i], present));
    }
    assert others[..|others|] == others;
  }

  // --- the writes ---------------------------------------------------------------------------------

  datatype OthersResult =
    | OthersRefused
    | OthersWritten(tables: Tables, statisticsWritten: nat, episodesWritten: nat, reviewsWritten: nat,
        parseFailed: nat, skippedNoAnime: nat, skippedUnsupported: nat)

  lemma OthersTables(work: Tables, l: Lists)
    ensures Apply(work, WritesOf(l)) == work.(
      statistics := Statement(work.statistics, AsMap(l.statistics), OVERWRITE),
      episodes := Statement(work.episodes, AsMap(l.episodes), KEEP_SYNOPSIS),
      reviews := Statement(work.reviews, AsMap(l.reviews), OVERWRITE))
  {
    ApplyNothing(work);
  }

  /** The three upserts, after the parents have been checked as the foreign keys would. */
  method WriteLists(work: Tables, l: Lists) returns (r: OthersResult)
    ensures Distinct(l) && ParentsOf(l, work.anime.Keys) ==> r.OthersWritten?
    ensures r.OthersWritten? ==> r.tables.tags == work.tags && r.tables.studios == work.studios
    ensures Distinct(l) && r.OthersWritten? ==>
      r == OthersWritten(Apply(work, WritesOf(l)), |AsMap(l.statistics)|, |AsMap(l.episodes)|, |AsMap(l.reviews)|,
             l.parseFailed, l.skippedNoAnime, l.skippedUnsupported)
  {
    var statistics := Upsert(work.statistics, l.statistics, OVERWRITE, ROWS_PER_STATEMENT);
    var episodes := Upsert(work.episodes, l.episodes, KEEP_SYNOPSIS, ROWS_PER_STATEMENT);
    var reviews := Upsert(work.reviews, l.reviews, OVERWRITE, ROWS_PER_STATEMENT);
    if statistics.Refused? || episodes.Refused? || reviews.Refused? || !ParentsOf(l, work.anime.Keys) {
      return OthersRefused;
    }
    OthersTables(work, l);
    AllWritten(work.statistics, AsMap(l.statistics), OVERWRITE);
    AllWritten(work.episodes, AsMap(l.episodes), KEEP_SYNOPSIS);
    AllWritten(work.reviews, AsMap(l.reviews), OVERWRITE);
    r := OthersWritten(
      work.(statistics := statistics.table, episodes := episodes.table, reviews := reviews.table),
      statistics.count, episodes.count, reviews.count, l.parseFailed, l.skippedNoAnime, l.skippedUnsupported);
  }

  lemma MoreParents(l: Lists, few: set<int>, all: set<int>)
    requires ParentsOf(l, few) && few <= all
    ensures ParentsOf(l, all)
  {
  }

  /** The catalogue after the writes `d`, and the counts. */
  function OthersAnswer(work: Tables, d: Delta, others: seq<RawDoc>): OthersResult {
    OthersWritten(Apply(work, d), |d.statistics|, |d.episodes|, |d.reviews|,
      DocTotal(ParseFailed, others, work.anime.Keys), DocTotal(SkippedNoAnime, others, work.anime.Keys),
      DocTotal(SkippedUnsupported, others, work.anime.Keys))
  }

  /** `_clean_others`: one look at which anime exist, then statistics, episodes and reviews. */
  method CleanOthers(work: Tables, others: seq<RawDoc>) returns (r: OthersResult)
    requires forall i | 0 <= i < |others| :: !IsDetails(others[i])
    ensures r.OthersWritten? ==> r.tables.tags == work.tags && r.tables.studios == work.studios
    ensures Good(others) ==>
      r == OthersAnswer(work, FullDelta(others, work.anime.Keys), others)
  {
    var present := ExistingAnimeIds(work, others);
    var l := SortAll(others, present);
    PresentIsEnough(others, present, work.anime.Keys);
    SameCounts(l, others, present, work.anime.Keys);
    MoreParents(l, present, work.anime.Keys);
    r := WriteLists(work, l);
  }

  /** `existing_anime_ids`: which of the ids the rows name have an anime row. */
  method ExistingAnimeIds(work: Tables, others: seq<RawDoc>) returns (present: set<int>)
    ensures present == set i | 0 <= i < |others| && others[i].key.malId in work.anime :: others[i].key.malId
  {
    present := set i | 0 <= i < |others| && others[i].key.malId in work.anime :: others[i].key.malId;
  }

  predicate SameForAll(others: seq<RawDoc>, few: set<int>, all: set<int>) {
    forall i | 0 <= i < |others| :: others[i].key.malId in few <==> others[i].key.malId in all
  }

  lemma SameForOne(doc: RawDoc, few: set<int>, all: set<int>)
    requires doc.key.malId in few <==> doc.key.malId in all
    ensures Contribution(doc, few) == Contribution(doc, all)
  {
  }

  lemma CountedAlike(key: CountKey, doc: RawDoc, few: set<int>, all: set<int>)
    requires doc.key.malId in few <==> doc.key.malId in all
    ensures DocCount(key, doc, few) == DocCount(key, doc, all)
  {
  }

  /** Anime that no row names make no difference to what is read of the rows. */
  lemma {:induction false} PresentIsEnough(others: seq<RawDoc>, few: set<int>, all: set<int>)
    requires SameForAll(others, few, all)
    ensures FullDelta(others, few) == FullDelta(others, all)
  {
    if others != [] {
      PresentIsEnough(others[..|others| - 1], few, all);
      SameForOne(others[|others| - 1], few, all);
    }
  }

  lemma {:induction false} PresentIsCounted(key: CountKey, others: seq<RawDoc>, few: set<int>, all: set<int>)
    requires SameForAll(others, few, all)
    ensures DocTotal(key, others, few) == DocTotal(key, others, all)
  {
    if others != [] {
      PresentIsCounted(key, others[..|others| - 1], few, all);
      CountedAlike(key, others[|others| - 1], few, all);
    }
  }

  lemma SameCounts(l: Lists, others: seq<RawDoc>, few: set<int>, all: set<int>)
    requires SameForAll(others, few, all) && CountedAll(l, others, few)
    ensures CountedAll(l, others, all)
  {
    PresentIsCounted(ParseFailed, others, few, all);
    PresentIsCounted(SkippedNoAnime, others, few, all);
    PresentIsCounted(SkippedUnsupported, others, few, all);
  }
}
