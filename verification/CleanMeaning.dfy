/** What cleaning one response does to the catalogue, column by column and link by link, in terms of
    the response alone: app/ingestion/parsers and app/catalogue/repository.py together. */
module CleanMeaning {
  import opened Base
  import opened Catalogue
  import opened Parsers
  import opened CleanSpec
  import opened CleanBatch

  predicate IsBlank(v: Value) { v == Null || v == Text("") }

  predicate IsSynopsis(v: Value) { v.Text? && v.s != "" }

  /** A scalar as it is stored: a blank one as NULL. */
  function Scalar(fields: Fields, c: Column): Value {
    if c !in fields || IsBlank(fields[c]) then Null else fields[c]
  }

  function Was<K>(table: map<K, Row>, k: K, c: Column): Value {
    if k in table then Read(table[k], c) else Null
  }

  // --- details: the anime ---------------------------------------------------------------------------

  /** There is an id, and one of the three titles. */
  predicate HasAnime(p: Payload) {
    p.DetailsData? && p.malId.Some? && p.malId.value != 0 &&
    !(IsBlank(Read(p.fields, Title)) && IsBlank(Read(p.fields, TitleEnglish)) &&
      IsBlank(Read(p.fields, Column.TitleJapanese)))
  }

  /** What a column of the anime's row reads after a details response, `was` being what it read before:
      the columns of other pipelines keep their value. */
  function AnimeReads(fields: Fields, c: Column, was: Value): Value {
    if c == Title then
      if !IsBlank(Read(fields, Title)) then Read(fields, Title)
      else if !IsBlank(Read(fields, TitleEnglish)) then Read(fields, TitleEnglish)
      else Read(fields, Column.TitleJapanese)
    else if c == Synopsis then if IsSynopsis(Read(fields, Synopsis)) then Read(fields, Synopsis) else Null
    else if c == SynopsisHash then if IsSynopsis(Read(fields, Synopsis)) then Sha256(Read(fields, Synopsis).s) else Null
    else if c in ANIME_COLUMNS then Scalar(fields, c)
    else was
  }

  lemma AnimeIsUsable(p: Payload)
    ensures CleanFull(p).Some? <==> HasAnime(p)
    ensures HasAnime(p) ==> CleanFull(p).value.0 == p.malId.value
  {
  }

  lemma PlainColumns(fields: Fields, c: Column)
    ensures c in SetColumns(ANIME_COLUMNS, fields) <==> c in ANIME_COLUMNS
    ensures c in ANIME_COLUMNS ==> SetColumns(ANIME_COLUMNS, fields)[c] == Scalar(fields, c)
  {
  }

  lemma AnimeRowIs(p: Payload, row: Row, plain: Row)
    requires HasAnime(p) && CleanFull(p) == Some((p.malId.value, row)) && plain == SetColumns(ANIME_COLUMNS, p.fields)
    ensures row == plain[Title := AnimeReads(p.fields, Title, Null)]
      [Synopsis := AnimeReads(p.fields, Synopsis, Null)][SynopsisHash := AnimeReads(p.fields, SynopsisHash, Null)]
  {
  }

  lemma AnimeRowReads(p: Payload, row: Row, c: Column, was: Value)
    requires HasAnime(p) && CleanFull(p) == Some((p.malId.value, row))
    ensures (if c in row then row[c] else was) == AnimeReads(p.fields, c, was)
  {
    AnimeRowIs(p, row, SetColumns(ANIME_COLUMNS, p.fields));
    PlainColumns(p.fields, c);
  }

  lemma ParsedAnime(doc: RawDoc)
    requires IsDetails(doc)
    ensures Parse(doc).anime == if CleanFull(doc.payload).None? then map[]
      else map[CleanFull(doc.payload).value.0 := CleanFull(doc.payload).value.1]
  {
  }

  /** A usable details response writes its anime's row, and no other one. */
  lemma DetailsWriteTheAnime(t: Tables, doc: RawDoc, after: Tables, k: int, c: Column)
    requires IsDetails(doc) && HasAnime(doc.payload) && after == CleanOne(t, doc)
    ensures k in after.anime <==> k in t.anime || k == doc.payload.malId.value
    ensures k == doc.payload.malId.value ==>
      Read(after.anime[k], c) == AnimeReads(doc.payload.fields, c, Was(t.anime, k, c))
    ensures k in t.anime && k != doc.payload.malId.value ==> after.anime[k] == t.anime[k]
  {
    ParsedAnime(doc);
    AnimeIsUsable(doc.payload);
    AnimeRowReads(doc.payload, CleanFull(doc.payload).value.1, c, Was(t.anime, k, c));
    StatementReads(t.anime, Parse(doc).anime, ONLY_IF_CHANGED, k, c);
  }

  // --- details: names and links -----------------------------------------------------------------------

  /** Some item of the lists has this id, and a name. */
  predicate IsNamed(lists: seq<seq<NamedItem>>, id: int) {
    exists l, i :: 0 <= l < |lists| && 0 <= i < |lists[l]| &&
      lists[l][i].NamedItem? && lists[l][i].malId == Some(id) && lists[l][i].name.Some?
  }

  lemma {:induction false} InFlatten<T>(lists: seq<seq<T>>, x: T)
    ensures x in Flatten(lists) <==> exists l :: 0 <= l < |lists| && x in lists[l]
  {
    if lists != [] {
      var init := lists[..|lists| - 1];
      InFlatten(init, x);
      assert forall l | 0 <= l < |init| :: init[l] == lists[l];
    }
  }

  lemma NamedIds(lists: seq<seq<NamedItem>>, id: int)
    ensures id in Parsers.Names(Flatten(lists)) <==> IsNamed(lists, id)
  {
    var items := Flatten(lists);
    FirstNameWins(items, id);
    if id in Parsers.Names(items) {
      var i: nat :| FirstFor(items, i, id);
      InFlatten(lists, items[i]);
    }
    if IsNamed(lists, id) {
      var l, i :| 0 <= l < |lists| && 0 <= i < |lists[l]| &&
        lists[l][i].NamedItem? && lists[l][i].malId == Some(id) && lists[l][i].name.Some?;
      InFlatten(lists, lists[l][i]);
      if forall j: nat :: !FirstFor(items, j, id) { NoneNamed(items, id); }
    }
  }

  predicate IsRelated(groups: seq<RelationGroup>, pair: (string, int)) {
    exists g, i :: 0 <= g < |groups| && 0 <= i < |groups[g].entries| && groups[g].relation == Some(pair.0) &&
      groups[g].entries[i].isAnime && groups[g].entries[i].malId == Some(pair.1)
  }

  lemma RelatedPairs(groups: seq<RelationGroup>, pair: (string, int))
    ensures pair in RelationPairs(groups) <==> IsRelated(groups, pair)
  {
    if pair in RelationPairs(groups) {
      var group, e :| group in groups && e in group.entries && group.relation.Some? && e.isAnime && e.malId.Some? &&
        pair == (group.relation.value, e.malId.value);
      var g :| 0 <= g < |groups| && groups[g] == group;
      var i :| 0 <= i < |group.entries| && group.entries[i] == e;
    }
  }

  lemma ParsedLinks(doc: RawDoc, id: int)
    requires IsDetails(doc) && HasAnime(doc.payload) && id == doc.payload.malId.value
    ensures Parse(doc).tagLinks == map[id := Parsers.Names(Flatten(doc.payload.tagLists)).Keys]
    ensures Parse(doc).studioLinks == map[id := Parsers.Names(Flatten(doc.payload.studioLists)).Keys]
    ensures Parse(doc).relations == map[id := RelationPairs(doc.payload.relations)]
  {
    AnimeIsUsable(doc.payload);
  }

  lemma LinksAfter<L>(table: set<(int, L)>, id: int, links: set<L>, a: int, x: L)
    ensures (a, x) in Replaced(table, map[id := links]) <==> if a == id then x in links else (a, x) in table
  {
    LinksReplacedExactly(table, map[id := links]);
    assert a != id ==> (LinksOf(Replaced(table, map[id := links]), a) == LinksOf(table, a));
    assert x in LinksOf(table, a) <==> (a, x) in table;
    assert x in LinksOf(Replaced(table, map[id := links]), a) <==> (a, x) in Replaced(table, map[id := links]);
  }

  /** A usable details response leaves its anime exactly the links it names, and no other anime's links
      change. */
  lemma DetailsReplaceTheLinks(t: Tables, doc: RawDoc, after: Tables, a: int, x: int, pair: (string, int))
    requires IsDetails(doc) && HasAnime(doc.payload) && after == CleanOne(t, doc)
    ensures (a, x) in after.tagLinks <==>
      if a == doc.payload.malId.value then IsNamed(doc.payload.tagLists, x) else (a, x) in t.tagLinks
    ensures (a, x) in after.studioLinks <==>
      if a == doc.payload.malId.value then IsNamed(doc.payload.studioLists, x) else (a, x) in t.studioLinks
    ensures (a, pair) in after.relations <==>
      if a == doc.payload.malId.value then IsRelated(doc.payload.relations, pair) else (a, pair) in t.relations
  {
    var id := doc.payload.malId.value;
    ParsedLinks(doc, id);
    NamedIds(doc.payload.tagLists, x);
    NamedIds(doc.payload.studioLists, x);
    RelatedPairs(doc.payload.relations, pair);
    LinksAfter(t.tagLinks, id, Parsers.Names(Flatten(doc.payload.tagLists)).Keys, a, x);
    LinksAfter(t.studioLinks, id, Parsers.Names(Flatten(doc.payload.studioLists)).Keys, a, x);
    LinksAfter(t.relations, id, RelationPairs(doc.payload.relations), a, pair);
  }

  lemma ParsedNames(doc: RawDoc)
    requires IsDetails(doc) && HasAnime(doc.payload)
    ensures Parse(doc).tagNames == Parsers.Names(Flatten(doc.payload.tagLists))
    ensures Parse(doc).studioNames == Parsers.Names(Flatten(doc.payload.studioLists))
  {
    AnimeIsUsable(doc.payload);
  }

  lemma NameStored(table: map<int, Row>, items: seq<NamedItem>, x: int, i: nat)
    ensures var after := Statement(table, NameRows(Parsers.Names(items)), OVERWRITE);
      (FirstFor(items, i, x) ==> x in after && Read(after[x], Name) == Text(items[i].name.value)) &&
      ((forall j: nat :: !FirstFor(items, j, x)) ==>
        (x in after <==> x in table) && (x in table ==> after[x] == table[x]))
  {
    FirstNameWins(items, x);
    NameRowStored(table, Parsers.Names(items), x, Statement(table, NameRows(Parsers.Names(items)), OVERWRITE));
  }

  /** A usable details response names each tag and studio by the first item that has its id and a name;
      the others keep their rows. */
  lemma DetailsNameTagsAndStudios(t: Tables, doc: RawDoc, after: Tables, x: int, i: nat)
    requires IsDetails(doc) && HasAnime(doc.payload) && after == CleanOne(t, doc)
    ensures var items := Flatten(doc.payload.tagLists);
      (FirstFor(items, i, x) ==> x in after.tags && Read(after.tags[x], Name) == Text(items[i].name.value)) &&
      ((forall j: nat :: !FirstFor(items, j, x)) ==>
        (x in after.tags <==> x in t.tags) && (x in t.tags ==> after.tags[x] == t.tags[x]))
    ensures var items := Flatten(doc.payload.studioLists);
      (FirstFor(items, i, x) ==> x in after.studios && Read(after.studios[x], Name) == Text(items[i].name.value)) &&
      ((forall j: nat :: !FirstFor(items, j, x)) ==>
        (x in after.studios <==> x in t.studios) && (x in t.studios ==> after.studios[x] == t.studios[x]))
  {
    ParsedNames(doc);
    NameStored(t.tags, Flatten(doc.payload.tagLists), x, i);
    NameStored(t.studios, Flatten(doc.payload.studioLists), x, i);
  }

  // --- statistics, episodes, reviews -----------------------------------------------------------------

  /** Statistics are usable when all six list counts are numbers. */
  predicate HasStatistics(p: Payload) {
    p.StatisticsData? &&
    Read(p.fields, Watching).Number? && Read(p.fields, Completed).Number? && Read(p.fields, OnHold).Number? &&
    Read(p.fields, Dropped).Number? && Read(p.fields, PlanToWatch).Number? && Read(p.fields, Total).Number?
  }

  lemma StatisticsAreUsable(p: Payload)
    ensures CleanStatistics(p).Some? <==> HasStatistics(p)
  {
  }

  lemma StatisticsRowReads(p: Payload, row: Row, c: Column, was: Value)
    requires CleanStatistics(p) == Some(row)
    ensures (if c in row then row[c] else was) == if c in STATISTICS_COLUMNS then Scalar(p.fields, c) else was
  {
  }

  lemma ParsedStatistics(doc: RawDoc)
    requires doc.key.resource.Statistics?
    ensures Parse(doc).statistics == if CleanStatistics(doc.payload).None? then map[]
      else map[doc.key.malId := CleanStatistics(doc.payload).value]
  {
  }

  /** Usable statistics write the row of an anime that is there; no other row changes. */
  lemma StatisticsWriteTheirRow(t: Tables, doc: RawDoc, after: Tables, k: int, c: Column)
    requires doc.key.resource.Statistics? && doc.key.malId in t.anime && after == CleanOne(t, doc)
    ensures k in after.statistics <==> k in t.statistics || (k == doc.key.malId && HasStatistics(doc.payload))
    ensures k == doc.key.malId && HasStatistics(doc.payload) ==>
      Read(after.statistics[k], c)
        == if c in STATISTICS_COLUMNS then Scalar(doc.payload.fields, c) else Was(t.statistics, k, c)
    ensures k in t.statistics && (k != doc.key.malId || !HasStatistics(doc.payload)) ==>
      after.statistics[k] == t.statistics[k]
  {
    ParsedStatistics(doc);
    StatisticsAreUsable(doc.payload);
    if HasStatistics(doc.payload) {
      StatisticsRowReads(doc.payload, CleanStatistics(doc.payload).value, c, Was(t.statistics, k, c));
    }
    StatementReads(t.statistics, Parse(doc).statistics, OVERWRITE, k, c);
  }

  /** What a column of an episode's row reads afterwards: a missing synopsis leaves the stored one, and
      its hash, alone. */
  function EpisodeReads(fields: Fields, c: Column, was: Value): Value {
    if c == Synopsis then if IsSynopsis(Read(fields, Synopsis)) then Read(fields, Synopsis) else was
    else if c == SynopsisHash then if IsSynopsis(Read(fields, Synopsis)) then Sha256(Read(fields, Synopsis).s) else was
    else if c in EPISODE_COLUMNS then Scalar(fields, c)
    else was
  }

  lemma EpisodeRowReads(fields: Fields, c: Column)
    ensures var row := EpisodeRow(fields);
      if c in {Synopsis, SynopsisHash}
      then c in row && row[c] == EpisodeReads(fields, c, Null)
      else (c in row <==> c in EPISODE_COLUMNS) && (c in row ==> row[c] == Scalar(fields, c))
  {
  }

  lemma ParsedEpisodes(doc: RawDoc)
    requires doc.key.resource.Episodes? && doc.payload.EpisodesData?
    ensures Parse(doc).episodes == EpisodeRows(Flatten(doc.payload.pages), doc.key.malId)
  {
  }

  lemma EpisodeStored(table: map<(int, int), Row>, rows: map<(int, int), Row>, k: (int, int), fields: Fields, c: Column)
    requires k in rows && rows[k] == EpisodeRow(fields)
    ensures var after := Statement(table, rows, KEEP_SYNOPSIS);
      k in after && Read(after[k], c) == EpisodeReads(fields, c, Was(table, k, c))
  {
    EpisodeRowReads(fields, c);
    StatementReads(table, rows, KEEP_SYNOPSIS, k, c);
  }

  /** Each episode of an anime that is there gets the fields of the last item with its number, over all
      pages; the others stay as they were. */
  lemma EpisodesWriteTheirRows(t: Tables, doc: RawDoc, after: Tables, k: (int, int), i: nat, c: Column)
    requires doc.key.resource.Episodes? && doc.payload.EpisodesData? && doc.key.malId in t.anime
    requires after == CleanOne(t, doc)
    ensures k.0 == doc.key.malId && LastOf(Flatten(doc.payload.pages), i, k.1) ==>
      k in after.episodes &&
      Read(after.episodes[k], c) == EpisodeReads(Flatten(doc.payload.pages)[i].fields, c, Was(t.episodes, k, c))
    ensures k.0 != doc.key.malId || (forall j: nat :: !LastOf(Flatten(doc.payload.pages), j, k.1)) ==>
      (k in after.episodes <==> k in t.episodes) && (k in t.episodes ==> after.episodes[k] == t.episodes[k])
  {
    var items := Flatten(doc.payload.pages);
    ParsedEpisodes(doc);
    LastEpisodeWins(items, doc.key.malId, k.1);
    StatementReads(t.episodes, Parse(doc).episodes, KEEP_SYNOPSIS, k, c);
    if k.0 == doc.key.malId && LastOf(items, i, k.1) {
      EpisodeStored(t.episodes, Parse(doc).episodes, k, items[i].fields, c);
    } else if k in Parse(doc).episodes {
      EpisodesNameTheirAnime(items, doc.key.malId, k);
    }
  }

  /** What a column of a review's row reads: the review names its anime. */
  function ReviewReads(fields: Fields, animeId: int, c: Column, was: Value): Value {
    if c == AnimeId then Number(animeId) else if c in REVIEW_COLUMNS then Scalar(fields, c) else was
  }

  predicate HasReview(item: ReviewItem, id: int) {
    item.ReviewItem? && item.malId == Some(id) && !IsBlank(Read(item.fields, ReviewText))
  }

  lemma ReviewRowReads(fields: Fields, animeId: int, c: Column, was: Value)
    ensures var row := ReviewRow(fields, animeId);
      (if c in row then row[c] else was) == ReviewReads(fields, animeId, c, was)
  {
  }

  lemma ParsedReviews(doc: RawDoc)
    requires doc.key.resource.Reviews? && doc.payload.ReviewsData?
    ensures Parse(doc).reviews == ReviewRows(doc.payload.items, doc.key.malId)
  {
  }

  lemma WhichReview(items: seq<ReviewItem>, id: int)
    ensures forall i: nat :: LastReviewOf(items, i, id) <==>
      i < |items| && HasReview(items[i], id) && forall j | i < j < |items| :: !HasReview(items[j], id)
  {
    assert forall i | 0 <= i < |items| :: IsReviewOf(items[i], id) <==> HasReview(items[i], id);
  }

  /** Each review of an anime that is there gets the fields of the last item with its id and a text. */
  lemma ReviewsWriteTheirRows(t: Tables, doc: RawDoc, after: Tables, k: int, i: nat, c: Column)
    requires doc.key.resource.Reviews? && doc.payload.ReviewsData? && doc.key.malId in t.anime
    requires after == CleanOne(t, doc)
    requires i < |doc.payload.items| && HasReview(doc.payload.items[i], k)
    requires forall j | i < j < |doc.payload.items| :: !HasReview(doc.payload.items[j], k)
    ensures k in after.reviews
    ensures Read(after.reviews[k], c)
         == ReviewReads(doc.payload.items[i].fields, doc.key.malId, c, Was(t.reviews, k, c))
  {
    var items := doc.payload.items;
    ParsedReviews(doc);
    WhichReview(items, k);
    LastReviewWins(items, doc.key.malId, k);
    ReviewRowReads(items[i].fields, doc.key.malId, c, Was(t.reviews, k, c));
    StatementReads(t.reviews, Parse(doc).reviews, OVERWRITE, k, c);
  }

  /** A review that no usable item has stays as it was. */
  lemma OtherReviewsStay(t: Tables, doc: RawDoc, after: Tables, k: int)
    requires doc.key.resource.Reviews? && doc.payload.ReviewsData? && after == CleanOne(t, doc)
    requires forall j | 0 <= j < |doc.payload.items| :: !HasReview(doc.payload.items[j], k)
    ensures k in after.reviews <==> k in t.reviews
    ensures k in t.reviews ==> after.reviews[k] == t.reviews[k]
  {
    ParsedReviews(doc);
    WhichReview(doc.payload.items, k);
    LastReviewWins(doc.payload.items, doc.key.malId, k);
    StatementReads(t.reviews, Given(t, doc).reviews, OVERWRITE, k, AnimeId);
  }

  // --- what is left alone -----------------------------------------------------------------------------

  /** A response that can be used at all. */
  predicate IsUsable(doc: RawDoc) {
    match doc.key.resource
    case Details => HasAnime(doc.payload)
    case Statistics => HasStatistics(doc.payload)
    case Episodes => doc.payload.EpisodesData?
    case Reviews => doc.payload.ReviewsData?
    case Characters => false
  }

  lemma UnusableWritesNothing(doc: RawDoc)
    requires !IsUsable(doc)
    ensures Parse(doc) == NOTHING
  {
    AnimeIsUsable(doc.payload);
    StatisticsAreUsable(doc.payload);
  }

  /** What cannot be used, and what belongs to an anime that is not there, changes nothing. */
  lemma OthersChangeNothing(t: Tables, doc: RawDoc)
    requires !IsUsable(doc) || (doc.key.resource != Details && doc.key.malId !in t.anime)
    ensures CleanOne(t, doc) == t
  {
    if !IsUsable(doc) { UnusableWritesNothing(doc); } else { NoAnimeWithout(doc); }
    ApplyNothing(t);
  }

  lemma NoAnimeWithout(doc: RawDoc)
    requires doc.key.resource != Details
    ensures Parse(doc).anime == map[]
  {
  }

  lemma OwnWritesOnly(doc: RawDoc)
    ensures doc.key.resource != Statistics ==> Parse(doc).statistics == map[]
    ensures doc.key.resource != Episodes ==> Parse(doc).episodes == map[]
    ensures doc.key.resource != Reviews ==> Parse(doc).reviews == map[]
    ensures doc.key.resource != Details ==>
      Parse(doc)
        == NOTHING.(statistics := Parse(doc).statistics, episodes := Parse(doc).episodes, reviews := Parse(doc).reviews)
  {
  }

  lemma NotWritten(t: Tables, d: Delta, after: Tables)
    requires after == Apply(t, d)
    ensures d.statistics == map[] ==> after.statistics == t.statistics
    ensures d.episodes == map[] ==> after.episodes == t.episodes
    ensures d.reviews == map[] ==> after.reviews == t.reviews
    ensures d == NOTHING.(statistics := d.statistics, episodes := d.episodes, reviews := d.reviews) ==>
      after == t.(statistics := after.statistics, episodes := after.episodes, reviews := after.reviews)
  {
    ApplyNothing(t);
  }

  /** A details response writes no statistics, episodes or reviews, and the others nothing else. */
  lemma OwnTablesOnly(t: Tables, doc: RawDoc, after: Tables)
    requires after == CleanOne(t, doc)
    ensures doc.key.resource != Statistics ==> after.statistics == t.statistics
    ensures doc.key.resource != Episodes ==> after.episodes == t.episodes
    ensures doc.key.resource != Reviews ==> after.reviews == t.reviews
    ensures doc.key.resource != Details ==>
      after == t.(statistics := after.statistics, episodes := after.episodes, reviews := after.reviews)
  {
    OwnWritesOnly(doc);
    NotWritten(t, Given(t, doc), after);
  }
}
