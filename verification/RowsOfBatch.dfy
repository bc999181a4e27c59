/** A whole batch, `_clean_rows` of app/ingestion/jobs/clean_raw_job.py: split into details and the
    rest, written in that order, and yet what cleaning its responses one by one in key order gives. */
module RowsOfBatch {
  import opened Base
  import opened Catalogue
  import opened Parsers
  import opened CleanSpec
  import opened CleanBatch
  import opened CleanCounts
  import opened DetailsOfBatch
  import opened OthersOfBatch

  // --- the split ----------------------------------------------------------------------------------

  function Pick(docs: seq<RawDoc>, details: bool): seq<RawDoc> {
    if docs == [] then []
    else
      var rest, last := Pick(docs[..|docs| - 1], details), docs[|docs| - 1];
      if IsDetails(last) == details then rest + [last] else rest
  }

  lemma {:induction false} PickedFrom(docs: seq<RawDoc>, details: bool)
    ensures forall doc | doc in Pick(docs, details) :: doc in docs && IsDetails(doc) == details
  {
    if docs != [] {
      PickedFrom(docs[..|docs| - 1], details);
    }
  }

  lemma PrefixIsGood(docs: seq<RawDoc>)
    requires Good(docs) && docs != []
    ensures Good(docs[..|docs| - 1])
    ensures forall doc | doc in docs[..|docs| - 1] ::
      Less(doc.key, docs[|docs| - 1].key) && Consistent(doc, docs[|docs| - 1])
  {
  }

  lemma AppendIsGood(docs: seq<RawDoc>, doc: RawDoc)
    requires Good(docs) && PayloadIdMatches(doc)
    requires forall d | d in docs :: Less(d.key, doc.key) && Consistent(d, doc)
    ensures Good(docs + [doc])
  {
    var all := docs + [doc];
    forall i, j | 0 <= i < j < |all| ensures Less(all[i].key, all[j].key) && Consistent(all[i], all[j]) {
      if j == |docs| {
        assert all[i] in docs;
      } else {
        assert all[i] == docs[i] && all[j] == docs[j];
      }
    }
  }

  lemma {:induction false} PickedIsGood(docs: seq<RawDoc>, details: bool)
    requires Good(docs)
    ensures Good(Pick(docs, details))
  {
    if docs != [] {
      var init, last := docs[..|docs| - 1], docs[|docs| - 1];
      PrefixIsGood(docs);
      PickedIsGood(init, details);
      PickedFrom(init, details);
      if IsDetails(last) == details {
        AppendIsGood(Pick(init, details), last);
      }
    }
  }

  method Split(rows: seq<RawDoc>) returns (details: seq<RawDoc>, others: seq<RawDoc>)
    ensures details == Pick(rows, true) && others == Pick(rows, false)
  {
    details, others := [], [];
    for i := 0 to |rows|
      invariant details == Pick(rows[..i], true) && others == Pick(rows[..i], false)
    {
      assert rows[..i + 1][..i] == rows[..i];
      if IsDetails(rows[i]) {
        details := details + [rows[i]];
      } else {
        others := others + [rows[i]];
      }
    }
    assert rows[..|rows|] == rows;
  }

  // --- the two halves write different tables ------------------------------------------------------

  predicate DetailsOnly(d: Delta) {
    d.statistics == map[] && d.episodes == map[] && d.reviews == map[]
  }

  predicate OthersOnly(d: Delta) {
    d == NOTHING.(statistics := d.statistics, episodes := d.episodes, reviews := d.reviews)
  }

  lemma ContributedHalf(doc: RawDoc, present: set<int>)
    ensures if IsDetails(doc) then DetailsOnly(Contribution(doc, present)) else OthersOnly(Contribution(doc, present))
  {
  }

  function Joined(a: Delta, b: Delta): Delta {
    a.(statistics := b.statistics, episodes := b.episodes, reviews := b.reviews)
  }

  lemma HalvesJoin(a: Delta, b: Delta)
    requires DetailsOnly(a) && OthersOnly(b)
    ensures Plus(a, b) == Joined(a, b)
  {
    SumNone(a.anime);
    SumNone(a.tagNames);
    SumNone(a.studioNames);
    SumNone(a.tagLinks);
    SumNone(a.studioLinks);
    SumNone(a.relations);
    NoneSum(b.statistics);
    NoneSum(b.episodes);
    NoneSum(b.reviews);
  }

  lemma NoneSum<K, V>(m: map<K, V>)
    ensures map[] + m == m
  {
  }

  lemma DetailsPlus(a: Delta, c: Delta)
    requires DetailsOnly(a) && DetailsOnly(c)
    ensures DetailsOnly(Plus(a, c))
  {
  }

  lemma MoreDetails(a: Delta, b: Delta, c: Delta)
    requires DetailsOnly(a) && DetailsOnly(c)
    ensures Plus(Joined(a, b), c) == Joined(Plus(a, c), b)
  {
    SumNone(b.statistics);
    SumNone(b.episodes);
    SumNone(b.reviews);
  }

  lemma MoreOthers(a: Delta, b: Delta, c: Delta)
    requires OthersOnly(b) && OthersOnly(c)
    ensures OthersOnly(Plus(b, c)) && Plus(Joined(a, b), c) == Joined(a, Plus(b, c))
  {
    SumNone(a.anime);
    SumNone(a.tagNames);
    SumNone(a.studioNames);
    SumNone(a.tagLinks);
    SumNone(a.studioLinks);
    SumNone(a.relations);
    SumNone<int, Row>(map[]);
    SumNone<int, string>(map[]);
    SumNone<int, set<int>>(map[]);
    SumNone<int, set<(string, int)>>(map[]);
  }

  /** Writing details first is no different: the writes of a batch are those of its two halves. */
  lemma {:induction false} SplitDelta(docs: seq<RawDoc>, present: set<int>)
    ensures DetailsOnly(FullDelta(Pick(docs, true), {})) && OthersOnly(FullDelta(Pick(docs, false), present))
    ensures FullDelta(docs, present) == Joined(FullDelta(Pick(docs, true), {}), FullDelta(Pick(docs, false), present))
  {
    if docs != [] {
      var init, last := docs[..|docs| - 1], docs[|docs| - 1];
      SplitDelta(init, present);
      var a, b := FullDelta(Pick(init, true), {}), FullDelta(Pick(init, false), present);
      var c := Contribution(last, present);
      ContributedHalf(last, present);
      if IsDetails(last) {
        LastPicked(Pick(init, true), last, {});
        DetailsPlus(a, c);
        MoreDetails(a, b, c);
        assert Contribution(last, {}) == c;
      } else {
        LastPicked(Pick(init, false), last, present);
        MoreOthers(a, b, c);
      }
    }
  }

  lemma LastPicked(rest: seq<RawDoc>, last: RawDoc, present: set<int>)
    ensures FullDelta(rest + [last], present) == Plus(FullDelta(rest, present), Contribution(last, present))
  {
    assert (rest + [last])[..|rest|] == rest;
  }

  lemma LastPickedTotal(key: CountKey, rest: seq<RawDoc>, last: RawDoc, present: set<int>)
    ensures DocTotal(key, rest + [last], present) == DocTotal(key, rest, present) + DocCount(key, last, present)
  {
    assert (rest + [last])[..|rest|] == rest;
  }

  lemma DetailsCount(key: CountKey, doc: RawDoc, present: set<int>)
    requires IsDetails(doc)
    ensures DocCount(key, doc, {}) == DocCount(key, doc, present)
  {
  }

  lemma {:induction false} SplitTotal(key: CountKey, docs: seq<RawDoc>, present: set<int>)
    ensures DocTotal(key, docs, present)
         == DocTotal(key, Pick(docs, true), {}) + DocTotal(key, Pick(docs, false), present)
  {
    if docs != [] {
      var init, last := docs[..|docs| - 1], docs[|docs| - 1];
      SplitTotal(key, init, present);
      if IsDetails(last) {
        LastPickedTotal(key, Pick(init, true), last, {});
        DetailsCount(key, last, present);
      } else {
        LastPickedTotal(key, Pick(init, false), last, present);
      }
    }
  }

  lemma {:induction false} AllRead(docs: seq<RawDoc>, present: set<int>)
    ensures DocTotal(RowsRead, docs, present) == |docs|
  {
    if docs != [] {
      AllRead(docs[..|docs| - 1], present);
    }
  }

  lemma {:induction false} SplitAnime(docs: seq<RawDoc>)
    ensures AnimeIn(docs) == AnimeIn(Pick(docs, true))
  {
    if docs != [] {
      var init, last := docs[..|docs| - 1], docs[|docs| - 1];
      SplitAnime(init);
      var rest := Pick(init, true);
      assert (rest + [last])[..|rest|] == rest;
    }
  }

  // --- the batch ----------------------------------------------------------------------------------

  const COUNT_KEYS: set<CountKey> :=
    { RowsRead, AnimeChanged, TagsUpserted, StudiosUpserted, TagLinksChanged, StudioLinksChanged,
      RelationLinksChanged, StatisticsWritten, EpisodesWritten, ReviewsWritten, ParseFailed,
      SkippedNoAnime, SkippedUnsupported }

  lemma EveryKey(key: CountKey)
    ensures key in COUNT_KEYS
  {
  }

  type Counts = map<CountKey, nat>

  function CountIn(key: CountKey, rows: nat, d: DetailsResult, o: OthersResult): nat
    requires d.DetailsWritten? && o.OthersWritten?
  {
    match key
    case RowsRead => rows
    case AnimeChanged => d.animeChanged
    case TagsUpserted => d.tagsUpserted
    case StudiosUpserted => d.studiosUpserted
    case TagLinksChanged => d.tagLinksChanged
    case StudioLinksChanged => d.studioLinksChanged
    case RelationLinksChanged => d.relationLinksChanged
    case StatisticsWritten => o.statisticsWritten
    case EpisodesWritten => o.episodesWritten
    case ReviewsWritten => o.reviewsWritten
    case ParseFailed => d.parseFailed + o.parseFailed
    case SkippedNoAnime => o.skippedNoAnime
    case SkippedUnsupported => o.skippedUnsupported
  }

  function CountsOf(rows: nat, d: DetailsResult, o: OthersResult): Counts
    requires d.DetailsWritten? && o.OthersWritten?
  {
    map key | key in COUNT_KEYS :: CountIn(key, rows, d, o)
  }

  datatype BatchOutcome =
    | BatchRefused
    | BatchWritten(tables: Tables, newTags: Names, newStudios: Names, counts: Counts)

  /** The details half of a batch, in terms of the whole batch. */
  lemma DetailsHalf(t: Tables, docs: seq<RawDoc>, tags: Names, studios: Names)
    requires Good(docs) && Trusted(t, tags, studios)
    ensures var d := FullDelta(Pick(docs, true), {});
      DetailsDelta(Pick(docs, true), tags, studios) == OnlyNew(d, tags, studios) &&
      Apply(t, OnlyNew(d, tags, studios)) == Apply(t, d) &&
      Apply(t, d).anime.Keys == Present(t, docs)
  {
    PickedIsGood(docs, true);
    BatchDeltaIsOnlyNew(Pick(docs, true), {}, tags, studios);
    ApplyOnlyNew(t, FullDelta(Pick(docs, true), {}));
    FullDeltaAnime(Pick(docs, true), {});
    SplitAnime(docs);
  }

  lemma ApplyHalves(t: Tables, a: Delta, b: Delta)
    requires DetailsOnly(a) && OthersOnly(b)
    ensures Apply(Apply(t, a), b) == Apply(t, Joined(a, b))
  {
    ApplyCompose(t, a, b);
    HalvesJoin(a, b);
  }

  lemma HalvesAreFold(t: Tables, docs: seq<RawDoc>)
    requires Good(docs)
    ensures var present := Present(t, docs);
      Apply(Apply(t, FullDelta(Pick(docs, true), {})), FullDelta(Pick(docs, false), present)) == Fold(t, docs)
  {
    var present := Present(t, docs);
    SplitDelta(docs, present);
    ApplyHalves(t, FullDelta(Pick(docs, true), {}), FullDelta(Pick(docs, false), present));
    FullDeltaIsFold(t, docs);
  }

  lemma WritesAdd(key: CountKey, t: Tables, a: Delta, b: Delta, tags: Names, studios: Names, rows: nat,
                  d: DetailsResult, o: OthersResult)
    requires d.DetailsWritten? && d == DetailsAnswer(t, OnlyNew(a, tags, studios), d.parseFailed)
    requires o.OthersWritten?
    requires o == OthersWritten(o.tables, |b.statistics|, |b.episodes|, |b.reviews|, o.parseFailed, o.skippedNoAnime,
      o.skippedUnsupported)
    requires OfWrites(key)
    ensures CountIn(key, rows, d, o) == WriteCount(key, t, OnlyNew(Joined(a, b), tags, studios))
  {
  }

  lemma NoWritesRead(key: CountKey, t: Tables, d: Delta)
    requires !OfWrites(key)
    ensures WriteCount(key, t, d) == 0
  {
  }

  lemma ReadsAdd(key: CountKey, docs: seq<RawDoc>, rows: nat, d: DetailsResult, o: OthersResult, present: set<int>)
    requires !OfWrites(key) && d.DetailsWritten? && o.OthersWritten? && rows == |docs|
    requires d.parseFailed == DocTotal(ParseFailed, Pick(docs, true), {})
    requires o.parseFailed == DocTotal(ParseFailed, Pick(docs, false), present)
    requires o.skippedNoAnime == DocTotal(SkippedNoAnime, Pick(docs, false), present)
    requires o.skippedUnsupported == DocTotal(SkippedUnsupported, Pick(docs, false), present)
    requires DocTotal(key, docs, present)
         == DocTotal(key, Pick(docs, true), {}) + DocTotal(key, Pick(docs, false), present)
    requires DocTotal(RowsRead, docs, present) == |docs|
    requires key.SkippedNoAnime? || key.SkippedUnsupported? ==> DocTotal(key, Pick(docs, true), {}) == 0
    ensures CountIn(key, rows, d, o) == DocTotal(key, docs, present)
  {
  }

  /** What the two halves of a batch return. */
  predicate Answers(t: Tables, docs: seq<RawDoc>, tags: Names, studios: Names, d: DetailsResult, o: OthersResult) {
    d == DetailsAnswer(t, OnlyNew(FullDelta(Pick(docs, true), {}), tags, studios),
      DocTotal(ParseFailed, Pick(docs, true), {})) &&
    d.tables.anime.Keys == Present(t, docs) &&
    o == OthersAnswer(d.tables, FullDelta(Pick(docs, false), Present(t, docs)), Pick(docs, false))
  }

  /** What the answers say about the rows that were not written. */
  predicate ReadAnswers(docs: seq<RawDoc>, present: set<int>, d: DetailsResult, o: OthersResult) {
    d.DetailsWritten? && o.OthersWritten? &&
    d.parseFailed == DocTotal(ParseFailed, Pick(docs, true), {}) &&
    o.parseFailed == DocTotal(ParseFailed, Pick(docs, false), present) &&
    o.skippedNoAnime == DocTotal(SkippedNoAnime, Pick(docs, false), present) &&
    o.skippedUnsupported == DocTotal(SkippedUnsupported, Pick(docs, false), present)
  }

  lemma AnswersAboutRows(t: Tables, docs: seq<RawDoc>, tags: Names, studios: Names, d: DetailsResult, o: OthersResult)
    requires Answers(t, docs, tags, studios, d, o)
    ensures ReadAnswers(docs, Present(t, docs), d, o)
  {
  }

  lemma ReadTotal(key: CountKey, docs: seq<RawDoc>, present: set<int>, d: DetailsResult, o: OthersResult)
    requires !OfWrites(key) && ReadAnswers(docs, present, d, o)
    ensures CountIn(key, |docs|, d, o) == DocTotal(key, docs, present)
  {
    SplitTotal(key, docs, present);
    AllRead(docs, present);
    PickedFrom(docs, true);
    NoSkips(key, Pick(docs, true), {});
    ReadsAdd(key, docs, |docs|, d, o, present);
  }

  lemma ReadCountsAdd(key: CountKey, t: Tables, docs: seq<RawDoc>, tags: Names, studios: Names, n: nat)
    requires !OfWrites(key) && n == DocTotal(key, docs, Present(t, docs))
    ensures n == BatchCount(key, t, docs, tags, studios)
  {
    NoWritesRead(key, t, BatchDelta(docs, Present(t, docs), tags, studios));
  }

  lemma BatchDeltaJoined(docs: seq<RawDoc>, present: set<int>, tags: Names, studios: Names)
    requires Good(docs)
    ensures BatchDelta(docs, present, tags, studios)
         == OnlyNew(Joined(FullDelta(Pick(docs, true), {}), FullDelta(Pick(docs, false), present)), tags, studios)
  {
    SplitDelta(docs, present);
    BatchDeltaIsOnlyNew(docs, present, tags, studios);
  }

  lemma OthersCounts(o: OthersResult, work: Tables, b: Delta, others: seq<RawDoc>)
    requires o == OthersAnswer(work, b, others)
    ensures o == OthersWritten(o.tables, |b.statistics|, |b.episodes|, |b.reviews|, o.parseFailed, o.skippedNoAnime,
      o.skippedUnsupported)
  {
  }

  lemma WriteCountsAdd(key: CountKey, t: Tables, docs: seq<RawDoc>, tags: Names, studios: Names, n: nat)
    requires OfWrites(key) && n == WriteCount(key, t, BatchDelta(docs, Present(t, docs), tags, studios))
    ensures n == BatchCount(key, t, docs, tags, studios)
  {
    NothingElse(key, docs, Present(t, docs));
  }

  predicate OfWrites(key: CountKey) {
    !(key in {RowsRead, ParseFailed, SkippedNoAnime, SkippedUnsupported})
  }

  lemma {:induction false} NothingElse(key: CountKey, docs: seq<RawDoc>, present: set<int>)
    ensures OfWrites(key) ==> DocTotal(key, docs, present) == 0
  {
    if docs != [] {
      NothingElse(key, docs[..|docs| - 1], present);
    }
  }

  lemma {:induction false} NoSkips(key: CountKey, docs: seq<RawDoc>, present: set<int>)
    requires forall doc | doc in docs :: IsDetails(doc)
    ensures key.SkippedNoAnime? || key.SkippedUnsupported? ==> DocTotal(key, docs, present) == 0
  {
    if docs != [] {
      NoSkips(key, docs[..|docs| - 1], present);
      assert IsDetails(docs[|docs| - 1]);
    }
  }

  lemma DetailsAnswered(t: Tables, docs: seq<RawDoc>, tags: Names, studios: Names)
    requires Good(docs) && Trusted(t, tags, studios)
    ensures Good(Pick(docs, true)) && Good(Pick(docs, false))
    ensures var a, d := FullDelta(Pick(docs, true), {}), DetailsDelta(Pick(docs, true), tags, studios);
      d == OnlyNew(a, tags, studios) && Apply(t, d).anime.Keys == Present(t, docs) && Apply(t, d) == Apply(t, a)
  {
    PickedIsGood(docs, true);
    PickedIsGood(docs, false);
    DetailsHalf(t, docs, tags, studios);
  }

  /** After the batch the table's names are the cache's and the ones to learn. */
  predicate Learnt(before: Tables, after: Tables, newTags: Names, newStudios: Names) {
    NamesIn(after.tags) == NamesIn(before.tags) + newTags &&
    NamesIn(after.studios) == NamesIn(before.studios) + newStudios
  }

  lemma NamesAreLearnt(t: Tables, after: Tables, newTags: Names, newStudios: Names)
    requires after.tags == Statement(t.tags, NameRows(newTags), OVERWRITE)
    requires after.studios == Statement(t.studios, NameRows(newStudios), OVERWRITE)
    ensures Learnt(t, after, newTags, newStudios)
  {
    NamesAfterUpsert(t.tags, newTags);
    NamesAfterUpsert(t.studios, newStudios);
  }

  /** Both halves together: the catalogue and the names to learn. */
  lemma HalvesAnswer(t: Tables, docs: seq<RawDoc>, tags: Names, studios: Names, d: DetailsResult, o: OthersResult)
    requires Good(docs) && Trusted(t, tags, studios) && Answers(t, docs, tags, studios, d, o)
    ensures o.tables == Fold(t, docs)
  {
    HalvesAreFold(t, docs);
    DetailsHalf(t, docs, tags, studios);
  }

  lemma CountAnswer(key: CountKey, t: Tables, docs: seq<RawDoc>, tags: Names, studios: Names, d: DetailsResult,
                    o: OthersResult, n: nat)
    requires Good(docs) && Answers(t, docs, tags, studios, d, o) && n == CountIn(key, |docs|, d, o)
    ensures n == BatchCount(key, t, docs, tags, studios)
  {
    if OfWrites(key) {
      var a, b := FullDelta(Pick(docs, true), {}), FullDelta(Pick(docs, false), Present(t, docs));
      BatchDeltaJoined(docs, Present(t, docs), tags, studios);
      OthersCounts(o, d.tables, b, Pick(docs, false));
      WritesAdd(key, t, a, b, tags, studios, |docs|, d, o);
      WriteCountsAdd(key, t, docs, tags, studios, n);
    } else {
      AnswersAboutRows(t, docs, tags, studios, d, o);
      ReadTotal(key, docs, Present(t, docs), d, o);
      ReadCountsAdd(key, t, docs, tags, studios, n);
    }
  }

  lemma CountRead(key: CountKey, rows: nat, d: DetailsResult, o: OthersResult)
    requires d.DetailsWritten? && o.OthersWritten?
    ensures key in CountsOf(rows, d, o) && CountsOf(rows, d, o)[key] == CountIn(key, rows, d, o)
  {
  }

  predicate CountsRight(key: CountKey, counts: Counts, t: Tables, docs: seq<RawDoc>, tags: Names, studios: Names) {
    key in counts && counts[key] == BatchCount(key, t, docs, tags, studios)
  }

  lemma CountsAnswer(key: CountKey, t: Tables, docs: seq<RawDoc>, tags: Names, studios: Names, d: DetailsResult,
                     o: OthersResult)
    requires Good(docs) && Answers(t, docs, tags, studios, d, o)
    ensures CountsRight(key, CountsOf(|docs|, d, o), t, docs, tags, studios)
  {
    CountRead(key, |docs|, d, o);
    CountAnswer(key, t, docs, tags, studios, d, o, CountIn(key, |docs|, d, o));
  }

  lemma PickedRows(docs: seq<RawDoc>, details: seq<RawDoc>, others: seq<RawDoc>)
    requires details == Pick(docs, true) && others == Pick(docs, false)
    ensures forall i | 0 <= i < |details| :: IsDetails(details[i])
    ensures forall i | 0 <= i < |others| :: !IsDetails(others[i])
  {
    PickedFrom(docs, true);
    PickedFrom(docs, false);
  }

  lemma GoodDetails(docs: seq<RawDoc>, details: seq<RawDoc>)
    requires Good(docs) && details == Pick(docs, true)
    ensures DistinctKeys(AnimeRows(details)) && EveryChunkDistinct(AnimeRows(details), ROWS_PER_STATEMENT)
  {
    PickedFrom(docs, true);
    PickedIsGood(docs, true);
    AnimeRowsDistinct(details);
    DistinctInEveryChunk(AnimeRows(details), ROWS_PER_STATEMENT);
  }

  lemma HalvesAnswered(t: Tables, docs: seq<RawDoc>, tags: Names, studios: Names, details: seq<RawDoc>,
                       others: seq<RawDoc>, d: DetailsResult, o: OthersResult)
    requires Good(docs) && Trusted(t, tags, studios) && details == Pick(docs, true) && others == Pick(docs, false)
    requires d == DetailsAnswer(t, DetailsDelta(details, tags, studios), DocTotal(ParseFailed, details, {}))
    requires o == OthersAnswer(d.tables, FullDelta(others, d.tables.anime.Keys), others)
    ensures Answers(t, docs, tags, studios, d, o)
  {
    DetailsAnswered(t, docs, tags, studios);
  }

  /** The details of a batch, then the other rows. */
  method WriteHalves(t: Tables, docs: seq<RawDoc>, tags: Names, studios: Names)
    returns (d: DetailsResult, o: OthersResult)
    ensures d.DetailsWritten? && o.OthersWritten? ==> Learnt(t, o.tables, d.newTags, d.newStudios)
    ensures Good(docs) && Trusted(t, tags, studios) ==>
      d.DetailsWritten? && o.OthersWritten? && Answers(t, docs, tags, studios, d, o)
  {
    var details, others := Split(docs);
    PickedRows(docs, details, others);
    ghost var good := Good(docs) && Trusted(t, tags, studios);
    if good {
      GoodDetails(docs, details);
      PickedIsGood(docs, false);
    }
    d := CleanDetails(t, details, tags, studios);
    if d.DetailsRefused? {
      return d, OthersRefused;
    }
    o := CleanOthers(d.tables, others);
    if o.OthersWritten? { NamesAreLearnt(t, o.tables, d.newTags, d.newStudios); }
    if good { HalvesAnswered(t, docs, tags, studios, details, others, d, o); }
  }

  /** `_clean_rows`. With true caches nothing is refused, and the catalogue, the names to learn and
      the counts are those of cleaning the rows one by one. */
  method WriteRows(t: Tables, docs: seq<RawDoc>, tags: Names, studios: Names) returns (r: BatchOutcome)
    ensures r.BatchWritten? ==> Learnt(t, r.tables, r.newTags, r.newStudios)
    ensures Good(docs) && Trusted(t, tags, studios) ==>
      r.BatchWritten? && r.tables == Fold(t, docs) &&
      forall key: CountKey :: CountsRight(key, r.counts, t, docs, tags, studios)
  {
    var d, o := WriteHalves(t, docs, tags, studios);
    if d.DetailsRefused? || o.OthersRefused? {
      return BatchRefused;
    }
    r := BatchWritten(o.tables, d.newTags, d.newStudios, CountsOf(|docs|, d, o));
    if Good(docs) && Trusted(t, tags, studios) {
      HalvesAnswer(t, docs, tags, studios, d, o);
      forall key: CountKey ensures CountsRight(key, r.counts, t, docs, tags, studios) {
        CountsAnswer(key, t, docs, tags, studios, d, o);
      }
    }
  }
}
