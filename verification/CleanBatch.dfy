/** Cleaning a batch of stored responses, and why the size of the batch does not matter:
    `_clean_rows`, `_clean_details` and `_clean_others` of app/ingestion/jobs/clean_raw_job.py. */
module CleanBatch {
  import opened Base
  import opened Catalogue
  import opened Parsers
  import opened CleanSpec

  predicate IsDetails(doc: RawDoc) { doc.key.resource == Details }

  /** Everything one response asks for, were its anime present. The anime id of a details response
      is the payload's own; the other resources use the id of the index row. */
  function Parse(doc: RawDoc): Delta {
    var id := doc.key.malId;
    match doc.key.resource
    case Characters => NOTHING
    case Details =>
      (match CleanFull(doc.payload)
       case None => NOTHING
       case Some(anime) =>
         var tags := Parsers.Names(Flatten(doc.payload.tagLists));
         var studios := Parsers.Names(Flatten(doc.payload.studioLists));
         NOTHING.(anime := map[anime.0 := anime.1], tagNames := tags, studioNames := studios,
                  tagLinks := map[anime.0 := tags.Keys], studioLinks := map[anime.0 := studios.Keys],
                  relations := map[anime.0 := RelationPairs(doc.payload.relations)]))
    case Episodes => NOTHING.(episodes := EpisodesOf(doc.payload, id))
    case Reviews => NOTHING.(reviews := ReviewsOf(doc.payload, id))
    case Statistics =>
      (match CleanStatistics(doc.payload)
       case None => NOTHING
       case Some(row) => NOTHING.(statistics := map[id := row]))
  }

  /** What a response writes when the anime in `present` have a row. */
  function Contribution(doc: RawDoc, present: set<int>): Delta {
    if IsDetails(doc) || doc.key.malId in present then Parse(doc) else NOTHING
  }

  function BatchDelta(docs: seq<RawDoc>, present: set<int>, tags: Names, studios: Names): Delta {
    if docs == [] then NOTHING
    else Plus(BatchDelta(docs[..|docs| - 1], present, tags, studios),
              OnlyNew(Contribution(docs[|docs| - 1], present), tags, studios))
  }

  /** The anime ids the details responses of a batch upsert. */
  function AnimeIn(docs: seq<RawDoc>): set<int> {
    if docs == [] then {} else AnimeIn(docs[..|docs| - 1]) + Parse(docs[|docs| - 1]).anime.Keys
  }

  function Present(t: Tables, docs: seq<RawDoc>): set<int> {
    t.anime.Keys + AnimeIn(docs)
  }

  /** One batch: details first, then the rest for the anime that exist by then. Names are compared
      with the caches as they were when the batch began. */
  function CleanRows(t: Tables, docs: seq<RawDoc>, tags: Names, studios: Names): Tables {
    Apply(t, BatchDelta(docs, Present(t, docs), tags, studios))
  }

  /** What one response writes, given the anime that have a row once its own is upserted. */
  function Given(t: Tables, doc: RawDoc): Delta {
    Contribution(doc, t.anime.Keys + Parse(doc).anime.Keys)
  }

  function CleanOne(t: Tables, doc: RawDoc): Tables {
    Apply(t, Given(t, doc))
  }

  /** The reference: one response after the other. */
  function Fold(t: Tables, docs: seq<RawDoc>): Tables {
    FoldLeft(CleanOne, t, docs)
  }

  // --- when the result of a batch is well defined -------------------------------------------------

  predicate PayloadIdMatches(doc: RawDoc) {
    IsDetails(doc) && CleanFull(doc.payload).Some? ==> CleanFull(doc.payload).value.0 == doc.key.malId
  }

  /** Two responses name a tag or studio alike, and share no review id. */
  predicate Consistent(a: RawDoc, b: RawDoc) {
    Agree(Parse(a).tagNames, Parse(b).tagNames) && Agree(Parse(a).studioNames, Parse(b).studioNames) &&
    Parse(a).reviews.Keys !! Parse(b).reviews.Keys
  }

  /** Strictly ascending keys; every details payload carries its row's id; one name per tag and
      studio id; no review id under two anime. */
  predicate Good(docs: seq<RawDoc>) {
    (forall i, j | 0 <= i < j < |docs| :: Less(docs[i].key, docs[j].key)) &&
    (forall i | 0 <= i < |docs| :: PayloadIdMatches(docs[i])) &&
    (forall i, j | 0 <= i < j < |docs| :: Consistent(docs[i], docs[j]))
  }

  lemma ParsedEpisodeKeys(doc: RawDoc, key: (int, int))
    requires key in Parse(doc).episodes
    ensures doc.key == Key(key.0, Episodes)
  {
    if doc.payload.EpisodesData? {
      EpisodesNameTheirAnime(Flatten(doc.payload.pages), doc.key.malId, key);
    }
  }

  /** Details are keyed by the row's anime; so are statistics. */
  lemma ParsedKeys(doc: RawDoc)
    requires PayloadIdMatches(doc)
    ensures forall k | k in Parse(doc).anime || k in Parse(doc).tagLinks || k in Parse(doc).studioLinks ||
      k in Parse(doc).relations :: doc.key == Key(k, Details)
    ensures forall k | k in Parse(doc).statistics :: doc.key == Key(k, Statistics)
  {
  }

  lemma NoSharedEpisodes(a: RawDoc, b: RawDoc)
    requires a.key != b.key
    ensures Parse(a).episodes.Keys !! Parse(b).episodes.Keys
  {
    forall k | k in Parse(a).episodes && k in Parse(b).episodes ensures false {
      ParsedEpisodeKeys(a, k);
      ParsedEpisodeKeys(b, k);
    }
  }

  lemma ParsedCompatible(a: RawDoc, b: RawDoc)
    requires a.key != b.key && PayloadIdMatches(a) && PayloadIdMatches(b) && Consistent(a, b)
    ensures Compatible(Parse(a), Parse(b))
  {
    ParsedKeys(a);
    ParsedKeys(b);
    NoSharedEpisodes(a, b);
  }

  /** All the writes of a batch, names included whatever the caches say. */
  function FullDelta(docs: seq<RawDoc>, present: set<int>): Delta {
    if docs == [] then NOTHING
    else Plus(FullDelta(docs[..|docs| - 1], present), Contribution(docs[|docs| - 1], present))
  }

  lemma SumIsCompatible(a: Delta, b: Delta, c: Delta)
    requires Compatible(a, c) && Compatible(b, c)
    ensures Compatible(Plus(a, b), c)
  {
  }

  lemma ContributionIsCompatible(doc: RawDoc, present: set<int>, c: Delta)
    requires Compatible(Parse(doc), c)
    ensures Compatible(Contribution(doc, present), c)
  {
  }

  lemma {:induction false} FullDeltaCompatible(docs: seq<RawDoc>, present: set<int>, doc: RawDoc)
    requires forall i | 0 <= i < |docs| :: Compatible(Parse(docs[i]), Parse(doc))
    ensures Compatible(FullDelta(docs, present), Parse(doc))
  {
    if docs != [] {
      var init, last := docs[..|docs| - 1], docs[|docs| - 1];
      FullDeltaCompatible(init, present, doc);
      ContributionIsCompatible(last, present, Parse(doc));
      SumIsCompatible(FullDelta(init, present), Contribution(last, present), Parse(doc));
    }
  }

  lemma {:induction false} LastIsCompatible(docs: seq<RawDoc>, present: set<int>)
    requires Good(docs) && docs != []
    ensures Compatible(FullDelta(docs[..|docs| - 1], present), Contribution(docs[|docs| - 1], present))
  {
    var init, last := docs[..|docs| - 1], docs[|docs| - 1];
    forall i | 0 <= i < |init| ensures Compatible(Parse(init[i]), Parse(last)) {
      assert init[i] == docs[i];
      ParsedCompatible(docs[i], last);
    }
    FullDeltaCompatible(init, present, last);
  }

  // --- a batch is its responses, one by one -------------------------------------------------------

  /** Comparing names with the batch-start caches or not at all gives the same writes. */
  lemma {:induction false} BatchDeltaIsOnlyNew(docs: seq<RawDoc>, present: set<int>, tags: Names, studios: Names)
    requires Good(docs)
    ensures BatchDelta(docs, present, tags, studios) == OnlyNew(FullDelta(docs, present), tags, studios)
  {
    if docs != [] {
      var init, last := docs[..|docs| - 1], docs[|docs| - 1];
      BatchDeltaIsOnlyNew(init, present, tags, studios);
      LastIsCompatible(docs, present);
      NewOfSum(FullDelta(init, present).tagNames, Contribution(last, present).tagNames, tags);
      NewOfSum(FullDelta(init, present).studioNames, Contribution(last, present).studioNames, studios);
    }
  }

  /** With true caches a batch does what its full delta says. */
  lemma CleanRowsIsApply(t: Tables, docs: seq<RawDoc>)
    requires Good(docs)
    ensures CleanRows(t, docs, NamesIn(t.tags), NamesIn(t.studios)) == Apply(t, FullDelta(docs, Present(t, docs)))
  {
    BatchDeltaIsOnlyNew(docs, Present(t, docs), NamesIn(t.tags), NamesIn(t.studios));
    ApplyOnlyNew(t, FullDelta(docs, Present(t, docs)));
  }

  lemma {:induction false} FullDeltaAnime(docs: seq<RawDoc>, present: set<int>)
    ensures FullDelta(docs, present).anime.Keys == AnimeIn(docs)
  {
    if docs != [] {
      FullDeltaAnime(docs[..|docs| - 1], present);
    }
  }

  /** Anime that no response is about, other than details, do not matter. */
  lemma {:induction false} PresenceElsewhere(docs: seq<RawDoc>, present: set<int>, more: set<int>)
    requires forall i | 0 <= i < |docs| && docs[i].key.malId in more - present ::
      docs[i].key.resource == Details || docs[i].key.resource == Characters
    ensures FullDelta(docs, present) == FullDelta(docs, present + more)
  {
    if docs != [] {
      PresenceElsewhere(docs[..|docs| - 1], present, more);
    }
  }

  lemma BroughtAnime(doc: RawDoc)
    requires PayloadIdMatches(doc)
    ensures forall k | k in Parse(doc).anime :: IsDetails(doc) && k == doc.key.malId
  {
  }

  /** Details precede the rows that depend on them, so the last response of a batch brings no
      anime to an earlier one. */
  lemma LastBringsNothingBack(docs: seq<RawDoc>, present: set<int>)
    requires Good(docs) && docs != []
    ensures FullDelta(docs[..|docs| - 1], present)
         == FullDelta(docs[..|docs| - 1], present + Parse(docs[|docs| - 1]).anime.Keys)
  {
    var init, last := docs[..|docs| - 1], docs[|docs| - 1];
    var more := Parse(last).anime.Keys;
    BroughtAnime(last);
    assert forall i | 0 <= i < |init| :: Less(init[i].key, last.key);
    PresenceElsewhere(init, present, more);
  }

  lemma FoldStep(t: Tables, d: Delta, doc: RawDoc, present: set<int>)
    requires present == t.anime.Keys + d.anime.Keys + Parse(doc).anime.Keys
    requires Compatible(d, Contribution(doc, present))
    ensures CleanOne(Apply(t, d), doc) == Apply(t, Plus(d, Contribution(doc, present)))
  {
    assert Given(Apply(t, d), doc) == Contribution(doc, present);
    ApplyCompose(t, d, Contribution(doc, present));
  }

  lemma {:induction false} FullDeltaIsFold(t: Tables, docs: seq<RawDoc>)
    requires Good(docs)
    ensures Apply(t, FullDelta(docs, Present(t, docs))) == Fold(t, docs)
  {
    if docs == [] {
      ApplyNothing(t);
    } else {
      var init, last := docs[..|docs| - 1], docs[|docs| - 1];
      var present := Present(t, docs);
      assert present == Present(t, init) + Parse(last).anime.Keys;
      FullDeltaIsFold(t, init);
      LastBringsNothingBack(docs, Present(t, init));
      FullDeltaAnime(init, present);
      LastIsCompatible(docs, present);
      FoldStep(t, FullDelta(init, present), last, present);
    }
  }

  /** Cleaning a batch is cleaning its responses one after the other. */
  lemma BatchIsFold(t: Tables, docs: seq<RawDoc>)
    requires Good(docs)
    ensures CleanRows(t, docs, NamesIn(t.tags), NamesIn(t.studios)) == Fold(t, docs)
  {
    CleanRowsIsApply(t, docs);
    FullDeltaIsFold(t, docs);
  }

  lemma FoldConcat(t: Tables, a: seq<RawDoc>, b: seq<RawDoc>)
    ensures Fold(t, a + b) == Fold(Fold(t, a), b)
  {
    FoldLeftConcat(CleanOne, t, a, b);
  }

  lemma PrefixGood(docs: seq<RawDoc>, n: nat)
    requires Good(docs) && n <= |docs|
    ensures Good(docs[..n])
  {
    forall i, j | 0 <= i < j < n
      ensures Less(docs[..n][i].key, docs[..n][j].key) && Consistent(docs[..n][i], docs[..n][j])
    {
      assert docs[..n][i] == docs[i] && docs[..n][j] == docs[j];
    }
  }

  lemma GivenAnime(t: Tables, doc: RawDoc)
    ensures Given(t, doc).anime == Parse(doc).anime
  {
  }

  lemma AnimeOfOne(t: Tables, doc: RawDoc)
    ensures CleanOne(t, doc).anime.Keys == t.anime.Keys + Parse(doc).anime.Keys
  {
    GivenAnime(t, doc);
  }

  lemma {:induction false} FoldAnime(t: Tables, docs: seq<RawDoc>)
    ensures Fold(t, docs).anime.Keys == t.anime.Keys + AnimeIn(docs)
  {
    if docs != [] {
      var init, last := docs[..|docs| - 1], docs[|docs| - 1];
      FoldAnime(t, init);
      AnimeOfOne(Fold(t, init), last);
    }
  }
}
