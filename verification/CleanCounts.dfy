/** The count totals of a clean run: BatchResult.counts of app/ingestion/jobs/clean_raw_job.py. */
module CleanCounts {
  import opened Base
  import opened Catalogue
  import opened Parsers
  import opened CleanSpec
  import opened CleanBatch

  /** COUNT_KEYS. */
  datatype CountKey =
    | RowsRead | AnimeChanged | TagsUpserted | StudiosUpserted | TagLinksChanged | StudioLinksChanged
    | RelationLinksChanged | StatisticsWritten | EpisodesWritten | ReviewsWritten | ParseFailed
    | SkippedNoAnime | SkippedUnsupported

  /** What looking at a response adds to a count, before anything is written. */
  function DocCount(key: CountKey, doc: RawDoc, present: set<int>): nat {
    var skipped := !IsDetails(doc) && doc.key.malId !in present;
    var unsupported := doc.key.resource.Characters? && !skipped;
    var unusable := match doc.key.resource
      case Details => CleanFull(doc.payload).None?
      case Statistics => !skipped && CleanStatistics(doc.payload).None?
      case _ => false;
    match key
    case RowsRead => 1
    case ParseFailed => if unusable then 1 else 0
    case SkippedNoAnime => if skipped then 1 else 0
    case SkippedUnsupported => if unsupported then 1 else 0
    case _ => 0
  }

  function DocTotal(key: CountKey, docs: seq<RawDoc>, present: set<int>): nat {
    if docs == [] then 0
    else DocTotal(key, docs[..|docs| - 1], present) + DocCount(key, docs[|docs| - 1], present)
  }

  /** What the repository calls return for the writes `d`. */
  function WriteCount(key: CountKey, t: Tables, d: Delta): nat {
    match key
    case AnimeChanged => |WrittenKeys(t.anime, d.anime, ONLY_IF_CHANGED)|
    case TagsUpserted => |d.tagNames|
    case StudiosUpserted => |d.studioNames|
    case TagLinksChanged => |Changed(t.tagLinks, d.tagLinks)|
    case StudioLinksChanged => |Changed(t.studioLinks, d.studioLinks)|
    case RelationLinksChanged => |Changed(t.relations, d.relations)|
    case StatisticsWritten => |d.statistics|
    case EpisodesWritten => |d.episodes|
    case ReviewsWritten => |d.reviews|
    case _ => 0
  }

  function BatchCount(key: CountKey, t: Tables, docs: seq<RawDoc>, tags: Names, studios: Names): nat {
    var present := Present(t, docs);
    DocTotal(key, docs, present) + WriteCount(key, t, BatchDelta(docs, present, tags, studios))
  }

  /** The write counts with true caches. */
  function NewWriteCount(key: CountKey, t: Tables, d: Delta): nat {
    WriteCount(key, t, OnlyNew(d, NamesIn(t.tags), NamesIn(t.studios)))
  }

  function CountOne(key: CountKey): (Tables, RawDoc) -> nat {
    (t: Tables, doc: RawDoc) =>
      DocCount(key, doc, t.anime.Keys + Parse(doc).anime.Keys) + NewWriteCount(key, t, Given(t, doc))
  }

  function SumLeft<S, D>(step: (S, D) -> S, count: (S, D) -> nat, s: S, inputs: seq<D>): nat {
    if inputs == [] then 0
    else
      var init := inputs[..|inputs| - 1];
      SumLeft(step, count, s, init) + count(FoldLeft(step, s, init), inputs[|inputs| - 1])
  }

  lemma {:induction false} SumLeftConcat<S, D>(step: (S, D) -> S, count: (S, D) -> nat, s: S, a: seq<D>, b: seq<D>)
    ensures SumLeft(step, count, s, a + b)
         == SumLeft(step, count, s, a) + SumLeft(step, count, FoldLeft(step, s, a), b)
  {
    if b == [] {
      assert a + b == a;
    } else {
      var init, last := b[..|b| - 1], b[|b| - 1];
      SumLeftConcat(step, count, s, a, init);
      FoldLeftConcat(step, s, a, init);
      assert (a + b)[..|a + b| - 1] == a + init && (a + b)[|a + b| - 1] == last;
    }
  }

  /** The count over the responses one by one, each on the catalogue the earlier ones leave. */
  function FoldCount(key: CountKey, t: Tables, docs: seq<RawDoc>): nat {
    SumLeft(CleanOne, CountOne(key), t, docs)
  }

  lemma FoldCountConcat(key: CountKey, t: Tables, a: seq<RawDoc>, b: seq<RawDoc>)
    ensures FoldCount(key, t, a + b) == FoldCount(key, t, a) + FoldCount(key, Fold(t, a), b)
  {
    SumLeftConcat(CleanOne, CountOne(key), t, a, b);
  }

  /** How a skipped characters row is counted depends on whether its anime is there yet. */
  predicate DependsOnBatch(key: CountKey, docs: seq<RawDoc>) {
    (key.SkippedNoAnime? || key.SkippedUnsupported?) &&
    exists i :: 0 <= i < |docs| && docs[i].key.resource.Characters?
  }

  // --- counts add up ------------------------------------------------------------------------------

  lemma DisjointSum<K, V>(a: map<K, V>, b: map<K, V>)
    requires forall k | k in a :: k !in b
    ensures |a + b| == |a| + |b|
  {
  }

  lemma NewOnTop(a: Names, b: Names, cache: Names, k: int)
    requires Agree(a, b)
    ensures k in New(b, cache + a) <==> k in New(b, cache) && k !in a
    ensures k in New(a + b, cache) <==> k in New(a, cache) || k in New(b, cache)
  {
  }

  lemma NewSum(a: Names, b: Names, cache: Names)
    requires Agree(a, b)
    ensures |New(a + b, cache)| == |New(a, cache)| + |New(b, cache + a)|
  {
    var na, nb, n := New(a, cache), New(b, cache + a), New(a + b, cache);
    forall k ensures k in n <==> k in na || k in nb {
      NewOnTop(a, b, cache, k);
    }
    forall k | k in na ensures k !in nb {
      NewOnTop(a, b, cache, k);
    }
    KeyUnion(n, na, nb);
  }

  lemma KeyUnion<K(!new), V>(n: map<K, V>, a: map<K, V>, b: map<K, V>)
    requires forall k :: k in n <==> k in a || k in b
    requires forall k | k in a :: k !in b
    ensures |n| == |a| + |b|
  {
    DisjointSum(a, b);
    assert n.Keys == (a + b).Keys;
  }

  lemma NamesSum(table: map<int, Row>, a: Names, b: Names)
    requires Agree(a, b)
    ensures |New(a + b, NamesIn(table))|
         == |New(a, NamesIn(table))| + |New(b, NamesIn(Statement(table, NameRows(a), OVERWRITE)))|
  {
    NewSum(a, b, NamesIn(table));
    NamesAfterUpsert(table, a);
  }

  lemma TagCountSum(t: Tables, a: Delta, b: Delta)
    requires Compatible(a, b)
    ensures NewWriteCount(TagsUpserted, t, Plus(a, b))
         == NewWriteCount(TagsUpserted, t, a) + NewWriteCount(TagsUpserted, Apply(t, a), b)
  {
    NamesSum(t.tags, a.tagNames, b.tagNames);
  }

  lemma StudioCountSum(t: Tables, a: Delta, b: Delta)
    requires Compatible(a, b)
    ensures NewWriteCount(StudiosUpserted, t, Plus(a, b))
         == NewWriteCount(StudiosUpserted, t, a) + NewWriteCount(StudiosUpserted, Apply(t, a), b)
  {
    NamesSum(t.studios, a.studioNames, b.studioNames);
  }

  /** The rows the repository is given and counts, whatever the tables hold. */
  function RowsGiven(key: CountKey, d: Delta): nat {
    match key
    case StatisticsWritten => |d.statistics|
    case EpisodesWritten => |d.episodes|
    case ReviewsWritten => |d.reviews|
    case _ => 0
  }

  predicate OfRows(key: CountKey) { key.StatisticsWritten? || key.EpisodesWritten? || key.ReviewsWritten? }

  lemma RowsAreCounted(key: CountKey, t: Tables, d: Delta)
    requires OfRows(key)
    ensures NewWriteCount(key, t, d) == RowsGiven(key, d)
  {
  }

  lemma StatisticsOfSum(a: Delta, b: Delta)
    requires a.statistics.Keys !! b.statistics.Keys
    ensures |Plus(a, b).statistics| == |a.statistics| + |b.statistics|
  {
    DisjointSum(a.statistics, b.statistics);
  }

  lemma EpisodesOfSum(a: Delta, b: Delta)
    requires a.episodes.Keys !! b.episodes.Keys
    ensures |Plus(a, b).episodes| == |a.episodes| + |b.episodes|
  {
    DisjointSum(a.episodes, b.episodes);
  }

  lemma ReviewsOfSum(a: Delta, b: Delta)
    requires a.reviews.Keys !! b.reviews.Keys
    ensures |Plus(a, b).reviews| == |a.reviews| + |b.reviews|
  {
    DisjointSum(a.reviews, b.reviews);
  }

  lemma RowsOfSum(key: CountKey, a: Delta, b: Delta, sum: Delta)
    requires OfRows(key)
    requires |sum.statistics| == |a.statistics| + |b.statistics|
    requires |sum.episodes| == |a.episodes| + |b.episodes|
    requires |sum.reviews| == |a.reviews| + |b.reviews|
    ensures RowsGiven(key, sum) == RowsGiven(key, a) + RowsGiven(key, b)
  {
  }

  lemma RowCountSum(key: CountKey, t: Tables, after: Tables, a: Delta, b: Delta)
    requires Compatible(a, b) && OfRows(key)
    ensures NewWriteCount(key, t, Plus(a, b)) == NewWriteCount(key, t, a) + NewWriteCount(key, after, b)
  {
    RowsAreCounted(key, t, Plus(a, b));
    RowsAreCounted(key, t, a);
    RowsAreCounted(key, after, b);
    StatisticsOfSum(a, b);
    EpisodesOfSum(a, b);
    ReviewsOfSum(a, b);
    RowsOfSum(key, a, b, Plus(a, b));
  }

  lemma AnimeCountSum(t: Tables, a: Delta, b: Delta)
    requires Compatible(a, b)
    ensures NewWriteCount(AnimeChanged, t, Plus(a, b))
         == NewWriteCount(AnimeChanged, t, a) + NewWriteCount(AnimeChanged, Apply(t, a), b)
  {
    WrittenCompose(t.anime, a.anime, b.anime, ONLY_IF_CHANGED);
  }

  lemma LinkCountSum(key: CountKey, t: Tables, a: Delta, b: Delta)
    requires Compatible(a, b)
    requires key.TagLinksChanged? || key.StudioLinksChanged? || key.RelationLinksChanged?
    ensures NewWriteCount(key, t, Plus(a, b)) == NewWriteCount(key, t, a) + NewWriteCount(key, Apply(t, a), b)
  {
    match key
    case TagLinksChanged => ChangedCompose(t.tagLinks, a.tagLinks, b.tagLinks);
    case StudioLinksChanged => ChangedCompose(t.studioLinks, a.studioLinks, b.studioLinks);
    case RelationLinksChanged => ChangedCompose(t.relations, a.relations, b.relations);
  }

  lemma WriteCountSum(key: CountKey, t: Tables, a: Delta, b: Delta)
    requires Compatible(a, b)
    ensures NewWriteCount(key, t, Plus(a, b)) == NewWriteCount(key, t, a) + NewWriteCount(key, Apply(t, a), b)
  {
    match key
    case AnimeChanged => AnimeCountSum(t, a, b);
    case TagsUpserted => TagCountSum(t, a, b);
    case StudiosUpserted => StudioCountSum(t, a, b);
    case TagLinksChanged => LinkCountSum(key, t, a, b);
    case StudioLinksChanged => LinkCountSum(key, t, a, b);
    case RelationLinksChanged => LinkCountSum(key, t, a, b);
    case StatisticsWritten => RowCountSum(key, t, Apply(t, a), a, b);
    case EpisodesWritten => RowCountSum(key, t, Apply(t, a), a, b);
    case ReviewsWritten => RowCountSum(key, t, Apply(t, a), a, b);
    case _ =>
  }

  lemma NoWrites(key: CountKey, t: Tables)
    ensures NewWriteCount(key, t, NOTHING) == 0
  {
  }

  lemma {:induction false} TotalElsewhere(key: CountKey, docs: seq<RawDoc>, present: set<int>, more: set<int>)
    requires !DependsOnBatch(key, docs)
    requires forall i | 0 <= i < |docs| && docs[i].key.malId in more - present ::
      docs[i].key.resource == Details || docs[i].key.resource == Characters
    ensures DocTotal(key, docs, present) == DocTotal(key, docs, present + more)
  {
    if docs != [] {
      TotalElsewhere(key, docs[..|docs| - 1], present, more);
    }
  }

  lemma TotalBeforeLast(key: CountKey, docs: seq<RawDoc>, present: set<int>)
    requires Good(docs) && docs != [] && !DependsOnBatch(key, docs)
    ensures DocTotal(key, docs[..|docs| - 1], present)
         == DocTotal(key, docs[..|docs| - 1], present + Parse(docs[|docs| - 1]).anime.Keys)
  {
    var init, last := docs[..|docs| - 1], docs[|docs| - 1];
    BroughtAnime(last);
    assert forall i | 0 <= i < |init| :: Less(init[i].key, last.key);
    TotalElsewhere(key, init, present, Parse(last).anime.Keys);
  }

  lemma CountOneIs(key: CountKey, t: Tables, doc: RawDoc, present: set<int>)
    requires present == t.anime.Keys + Parse(doc).anime.Keys
    ensures CountOne(key)(t, doc) == DocCount(key, doc, present) + NewWriteCount(key, t, Contribution(doc, present))
  {
  }

  lemma AnimeApplied(t: Tables, d: Delta)
    ensures Apply(t, d).anime.Keys == t.anime.Keys + d.anime.Keys
  {
  }

  /** One more response: its count, taken on the catalogue the earlier ones leave. */
  lemma CountStep(key: CountKey, t: Tables, d: Delta, doc: RawDoc, present: set<int>)
    requires present == t.anime.Keys + d.anime.Keys + Parse(doc).anime.Keys
    requires Compatible(d, Contribution(doc, present))
    ensures NewWriteCount(key, t, Plus(d, Contribution(doc, present))) + DocCount(key, doc, present)
         == NewWriteCount(key, t, d) + CountOne(key)(Apply(t, d), doc)
  {
    AnimeApplied(t, d);
    CountOneIs(key, Apply(t, d), doc, present);
    WriteCountSum(key, t, d, Contribution(doc, present));
  }

  lemma FullCountStep(key: CountKey, t: Tables, docs: seq<RawDoc>)
    requires Good(docs) && docs != [] && !DependsOnBatch(key, docs)
    ensures var init, last, present := docs[..|docs| - 1], docs[|docs| - 1], Present(t, docs);
      FullDelta(init, present) == FullDelta(init, Present(t, init)) &&
      DocTotal(key, init, present) == DocTotal(key, init, Present(t, init)) &&
      NewWriteCount(key, t, FullDelta(docs, present)) + DocCount(key, last, present)
        == NewWriteCount(key, t, FullDelta(init, present)) + CountOne(key)(Apply(t, FullDelta(init, present)), last)
  {
    var init, last := docs[..|docs| - 1], docs[|docs| - 1];
    var present := Present(t, docs);
    assert present == Present(t, init) + Parse(last).anime.Keys;
    LastBringsNothingBack(docs, Present(t, init));
    TotalBeforeLast(key, docs, Present(t, init));
    FullDeltaAnime(init, present);
    LastIsCompatible(docs, present);
    CountStep(key, t, FullDelta(init, present), last, present);
  }

  lemma InitCounts(key: CountKey, docs: seq<RawDoc>)
    requires Good(docs) && docs != [] && !DependsOnBatch(key, docs)
    ensures Good(docs[..|docs| - 1]) && !DependsOnBatch(key, docs[..|docs| - 1])
  {
  }

  lemma LastTotals(key: CountKey, t: Tables, docs: seq<RawDoc>, present: set<int>)
    requires docs != []
    ensures DocTotal(key, docs, present)
         == DocTotal(key, docs[..|docs| - 1], present) + DocCount(key, docs[|docs| - 1], present)
    ensures FoldCount(key, t, docs)
         == FoldCount(key, t, docs[..|docs| - 1]) + CountOne(key)(Fold(t, docs[..|docs| - 1]), docs[|docs| - 1])
  {
  }

  lemma {:induction false} FullCountIsSum(key: CountKey, t: Tables, docs: seq<RawDoc>)
    requires Good(docs) && !DependsOnBatch(key, docs)
    ensures DocTotal(key, docs, Present(t, docs)) + NewWriteCount(key, t, FullDelta(docs, Present(t, docs)))
         == FoldCount(key, t, docs)
  {
    if docs == [] {
      NoWrites(key, t);
    } else {
      var init := docs[..|docs| - 1];
      InitCounts(key, docs);
      FullCountIsSum(key, t, init);
      FullCountStep(key, t, docs);
      FullDeltaIsFold(t, init);
      LastTotals(key, t, docs, Present(t, docs));
    }
  }

  /** The counts of a batch are the sums over its responses. */
  lemma BatchCountIsSum(key: CountKey, t: Tables, docs: seq<RawDoc>)
    requires Good(docs) && !DependsOnBatch(key, docs)
    ensures BatchCount(key, t, docs, NamesIn(t.tags), NamesIn(t.studios)) == FoldCount(key, t, docs)
  {
    BatchDeltaIsOnlyNew(docs, Present(t, docs), NamesIn(t.tags), NamesIn(t.studios));
    FullCountIsSum(key, t, docs);
  }
}
