/** The structural half of app/ingestion/parsers: what is skipped, what wins, which columns are set.
    Scalars arrive already cleaned; a blank text still counts as missing. */
module Parsers {
  import opened Base
  import opened Catalogue

  /** The scalar fields of one source object. A missing one reads as NULL. */
  type Fields = map<Column, Value>

  datatype NamedItem = NamedItem(malId: Option<int>, name: Option<string>) | NotAnItem
  datatype RelationEntry = RelationEntry(isAnime: bool, malId: Option<int>)
  datatype RelationGroup = RelationGroup(relation: Option<string>, entries: seq<RelationEntry>)
  datatype EpisodeItem = EpisodeItem(number: Option<int>, fields: Fields) | NotAnEpisode
  datatype ReviewItem = ReviewItem(malId: Option<int>, fields: Fields) | NotAReview

  /** A stored response. `Unusable` is anything that does not have its resource's shape. */
  datatype Payload =
    | DetailsData(malId: Option<int>, fields: Fields, tagLists: seq<seq<NamedItem>>,
        studioLists: seq<seq<NamedItem>>, relations: seq<RelationGroup>)
    | StatisticsData(fields: Fields)
    | EpisodesData(pages: seq<seq<EpisodeItem>>)
    | ReviewsData(items: seq<ReviewItem>)
    | Unusable

  // --- columns ----------------------------------------------------------------------------------

  const ANIME_COLUMNS: set<Column> := {
    Title, TitleEnglish, Column.TitleJapanese, Kind, Status, Rating, SourceMaterial, Season, Year,
    EpisodeTotal, DurationMinutes, AiredFrom, AiredTo, MalScore, ScoredByMal, MembersMal,
    FavoritesMal, RankMal, PopularityMal, Synopsis, SynopsisHash, Background, ImageUrl }

  const EPISODE_COLUMNS: set<Column> := {
    Title, Column.TitleJapanese, TitleRomanji, Aired, DurationSeconds, Synopsis, SynopsisHash,
    Filler, Recap, MalScore }

  const REVIEW_COLUMNS: set<Column> :=
    { AnimeId, ReviewScore, ReviewText, ReviewUrl, Username, UsernameUrl, Date, IsSpoiler,
      IsPreliminary, EpisodesWatched } + set i | 0 <= i < 8 :: Reaction(i)

  const COUNT_COLUMNS: set<Column> := { Watching, Completed, OnHold, Dropped, PlanToWatch, Total }

  const STATISTICS_COLUMNS: set<Column> := COUNT_COLUMNS + set i | 1 <= i <= 10 :: Votes(i)

  function NonBlank(v: Value): Value {
    if v == Text("") then Null else v
  }

  /** A row that sets every column of `columns`, to NULL where the source has no value. */
  function SetColumns(columns: set<Column>, fields: Fields): (row: Row)
    ensures row.Keys == columns
  {
    map c | c in columns :: NonBlank(Read(fields, c))
  }

  /** The digest that belongs to a synopsis; none for a missing one. */
  function HashFor(synopsis: Value): Value {
    match synopsis
    case Text(s) => Sha256(s)
    case _ => Null
  }

  /** Anything but a non-blank text is no synopsis. */
  function CleanText(v: Value): Value {
    if v.Text? && v.s != "" then v else Null
  }

  function WithHash(row: Row): Row {
    var synopsis := CleanText(Read(row, Synopsis));
    row[Synopsis := synopsis][SynopsisHash := HashFor(synopsis)]
  }

  // --- details ----------------------------------------------------------------------------------

  /** `clean_full`: no row without a non-zero id and a title. */
  function CleanFull(p: Payload): Option<(int, Row)> {
    if p.DetailsData? && p.malId.Some? && p.malId.value != 0 then
      var row := SetColumns(ANIME_COLUMNS, p.fields);
      var title :=
        if row[Title] != Null then row[Title]
        else if row[TitleEnglish] != Null then row[TitleEnglish]
        else row[Column.TitleJapanese];
      if title == Null then None else Some((p.malId.value, WithHash(row[Title := title])))
    else None
  }

  function Flatten<T>(lists: seq<seq<T>>): seq<T> {
    if lists == [] then [] else Flatten(lists[..|lists| - 1]) + lists[|lists| - 1]
  }

  lemma OneMore<T>(before: seq<T>, items: seq<T>, i: nat)
    requires i < |items|
    ensures (before + items[..i + 1])[..|before| + i] == before + items[..i]
    ensures (before + items[..i + 1])[|before| + i] == items[i]
    ensures before + items[..0] == before && before + items[..|items|] == before + items
  {
  }

  lemma FlattenOneMore<T>(lists: seq<seq<T>>, n: nat)
    requires n < |lists|
    ensures Flatten(lists[..n + 1]) == Flatten(lists[..n]) + lists[n]
  {
    assert lists[..n + 1][..n] == lists[..n];
  }

  predicate Usable(item: NamedItem) {
    item.NamedItem? && item.malId.Some? && item.name.Some?
  }

  /** `dict.setdefault` of one item. */
  function AddName(found: map<int, string>, item: NamedItem): map<int, string> {
    if Usable(item) && item.malId.value !in found then found[item.malId.value := item.name.value] else found
  }

  /** The dict `_named_items` fills from a list of items. */
  function Names(items: seq<NamedItem>): map<int, string> {
    if items == [] then map[] else AddName(Names(items[..|items| - 1]), items[|items| - 1])
  }

  lemma NamesOneMore(before: seq<NamedItem>, items: seq<NamedItem>, i: nat)
    requires i < |items|
    ensures Names(before + items[..i + 1]) == AddName(Names(before + items[..i]), items[i])
  {
    OneMore(before, items, i);
  }

  predicate FirstFor(items: seq<NamedItem>, i: nat, id: int) {
    i < |items| && Usable(items[i]) && items[i].malId == Some(id) &&
    forall j | 0 <= j < i :: !(Usable(items[j]) && items[j].malId == Some(id))
  }

  /** An id is named exactly when a usable item has it, and by the first such item. */
  lemma {:induction false} FirstNameWins(items: seq<NamedItem>, id: int)
    ensures id in Names(items) <==> exists i: nat :: FirstFor(items, i, id)
    ensures forall i: nat :: FirstFor(items, i, id) ==> items[i].name == Some(Names(items)[id])
  {
    if items != [] {
      var init, last := items[..|items| - 1], items[|items| - 1];
      FirstNameWins(init, id);
      forall i: nat | i < |init| ensures FirstFor(items, i, id) <==> FirstFor(init, i, id) {
        assert forall j | 0 <= j <= i :: items[j] == init[j];
      }
      if id !in Names(init) {
        assert forall i: nat :: !FirstFor(init, i, id);
        NoneNamed(init, id);
        assert FirstFor(items, |init|, id) <==> Usable(last) && last.malId == Some(id);
      } else {
        var i: nat :| FirstFor(init, i, id);
        assert FirstFor(items, i, id);
        assert !FirstFor(items, |init|, id) by {
          assert Usable(items[i]) && items[i].malId == Some(id);
        }
      }
    }
  }

  lemma {:induction false} NoneNamed(items: seq<NamedItem>, id: int)
    requires forall i: nat :: !FirstFor(items, i, id)
    ensures forall j | 0 <= j < |items| :: !(Usable(items[j]) && items[j].malId == Some(id))
  {
    for n := 0 to |items|
      invariant forall j | 0 <= j < n :: !(Usable(items[j]) && items[j].malId == Some(id))
    {
      assert !FirstFor(items, n, id);
    }
  }

  /** `_named_items`: nested loops filling one dict. */
  method NamedItems(lists: seq<seq<NamedItem>>) returns (found: map<int, string>)
    ensures found == Names(Flatten(lists))
  {
    found := map[];
    for n := 0 to |lists|
      invariant found == Names(Flatten(lists[..n]))
    {
      found := AddNames(Flatten(lists[..n]), found, lists[n]);
      FlattenOneMore(lists, n);
    }
    assert lists[..|lists|] == lists;
  }

  method AddNames(ghost before: seq<NamedItem>, known: map<int, string>, items: seq<NamedItem>)
    returns (found: map<int, string>)
    requires known == Names(before)
    ensures found == Names(before + items)
  {
    found := known;
    assert before + items[..0] == before;
    for i := 0 to |items|
      invariant found == Names(before + items[..i])
    {
      NamesOneMore(before, items, i);
      match items[i] {
        case NotAnItem =>
        case NamedItem(malId, name) =>
          if malId.Some? && name.Some? && malId.value !in found {
            found := found[malId.value := name.value];
          }
      }
    }
    assert items[..|items|] == items;
  }

  function RelationPairs(groups: seq<RelationGroup>): set<(string, int)> {
    set g, e | g in groups && e in g.entries && g.relation.Some? && e.isAnime && e.malId.Some?
      :: (g.relation.value, e.malId.value)
  }

  /** `extract_relations`: only named groups, only anime entries that have an id. */
  method ExtractRelations(groups: seq<RelationGroup>) returns (found: set<(string, int)>)
    ensures found == RelationPairs(groups)
  {
    found := {};
    for n := 0 to |groups|
      invariant found == RelationPairs(groups[..n])
    {
      var g := groups[n];
      var before := found;
      for i := 0 to |g.entries|
        invariant found == before + RelationPairs([g.(entries := g.entries[..i])])
      {
        var e := g.entries[i];
        assert g.entries[..i + 1] == g.entries[..i] + [e];
        if e.isAnime && g.relation.Some? && e.malId.Some? {
          found := found + {(g.relation.value, e.malId.value)};
        }
      }
      assert g.entries[..|g.entries|] == g.entries;
      assert groups[..n + 1] == groups[..n] + [g];
    }
    assert groups[..|groups|] == groups;
  }

  // --- statistics, episodes, reviews ------------------------------------------------------------

  /** `clean_statistics`: no row unless every list count is there. */
  function CleanStatistics(p: Payload): Option<Row> {
    if p.StatisticsData? && forall c | c in COUNT_COLUMNS :: Read(p.fields, c).Number?
    then Some(SetColumns(STATISTICS_COLUMNS, p.fields))
    else None
  }

  function EpisodeRow(fields: Fields): Row {
    WithHash(SetColumns(EPISODE_COLUMNS, fields))
  }

  /** The dict `clean_episodes` fills: the last item of a number stays. */
  function EpisodeRows(items: seq<EpisodeItem>, animeId: int): map<(int, int), Row> {
    if items == [] then map[]
    else
      var found, item := EpisodeRows(items[..|items| - 1], animeId), items[|items| - 1];
      if item.EpisodeItem? && item.number.Some?
      then found[(animeId, item.number.value) := EpisodeRow(item.fields)]
      else found
  }

  predicate IsEpisode(item: EpisodeItem, number: int) {
    item.EpisodeItem? && item.number == Some(number)
  }

  predicate LastOf(items: seq<EpisodeItem>, i: nat, number: int) {
    i < |items| && IsEpisode(items[i], number) && forall j | i < j < |items| :: !IsEpisode(items[j], number)
  }

  /** An episode is stored exactly when an item has its number, with the last such item's fields. */
  lemma {:induction false} LastEpisodeWins(items: seq<EpisodeItem>, animeId: int, number: int)
    ensures (animeId, number) in EpisodeRows(items, animeId) <==> exists i: nat :: LastOf(items, i, number)
    ensures forall i: nat :: LastOf(items, i, number) ==>
      EpisodeRows(items, animeId)[(animeId, number)] == EpisodeRow(items[i].fields)
  {
    if items != [] {
      var init, last := items[..|items| - 1], items[|items| - 1];
      LastEpisodeWins(init, animeId, number);
      if IsEpisode(last, number) {
        assert LastOf(items, |init|, number);
        assert forall i: nat :: LastOf(items, i, number) ==> i == |init|;
      } else {
        forall i: nat ensures LastOf(items, i, number) <==> LastOf(init, i, number) {
          if i < |init| {
            assert items[i] == init[i];
            assert forall j | i < j < |init| :: items[j] == init[j];
          }
        }
      }
    }
  }

  lemma {:induction false} EpisodesNameTheirAnime(items: seq<EpisodeItem>, animeId: int, key: (int, int))
    requires key in EpisodeRows(items, animeId)
    ensures key.0 == animeId && EpisodeRows(items, animeId)[key].Keys == EPISODE_COLUMNS
  {
    var item := items[|items| - 1];
    if !(item.EpisodeItem? && item.number.Some? && key == (animeId, item.number.value)) {
      EpisodesNameTheirAnime(items[..|items| - 1], animeId, key);
    }
  }

  function EpisodesOf(p: Payload, animeId: int): map<(int, int), Row> {
    if p.EpisodesData? then EpisodeRows(Flatten(p.pages), animeId) else map[]
  }

  /** `clean_episodes`: page by page, item by item, into one dict. */
  method CleanEpisodes(p: Payload, animeId: int) returns (episodes: map<(int, int), Row>)
    ensures episodes == EpisodesOf(p, animeId)
  {
    episodes := map[];
    if p.EpisodesData? {
      for n := 0 to |p.pages|
        invariant episodes == EpisodeRows(Flatten(p.pages[..n]), animeId)
      {
        episodes := AddEpisodes(Flatten(p.pages[..n]), episodes, p.pages[n], animeId);
        FlattenOneMore(p.pages, n);
      }
      assert p.pages[..|p.pages|] == p.pages;
    }
  }

  method AddEpisodes(ghost before: seq<EpisodeItem>, known: map<(int, int), Row>, items: seq<EpisodeItem>, animeId: int)
    returns (episodes: map<(int, int), Row>)
    requires known == EpisodeRows(before, animeId)
    ensures episodes == EpisodeRows(before + items, animeId)
  {
    episodes := known;
    assert before + items[..0] == before;
    for i := 0 to |items|
      invariant episodes == EpisodeRows(before + items[..i], animeId)
    {
      OneMore(before, items, i);
      match items[i] {
        case NotAnEpisode =>
        case EpisodeItem(number, fields) =>
          if number.Some? {
            episodes := episodes[(animeId, number.value) := EpisodeRow(fields)];
          }
      }
    }
    assert items[..|items|] == items;
  }

  function ReviewRow(fields: Fields, animeId: int): Row {
    SetColumns(REVIEW_COLUMNS, fields)[AnimeId := Number(animeId)]
  }

  predicate IsReview(item: ReviewItem) {
    item.ReviewItem? && item.malId.Some? && NonBlank(Read(item.fields, ReviewText)) != Null
  }

  /** The dict `clean_reviews` fills: the last usable item of a review id stays. */
  function ReviewRows(items: seq<ReviewItem>, animeId: int): map<int, Row> {
    if items == [] then map[]
    else
      var found, item := ReviewRows(items[..|items| - 1], animeId), items[|items| - 1];
      if IsReview(item) then found[item.malId.value := ReviewRow(item.fields, animeId)] else found
  }

  function ReviewsOf(p: Payload, animeId: int): map<int, Row> {
    if p.ReviewsData? then ReviewRows(p.items, animeId) else map[]
  }

  method CleanReviews(p: Payload, animeId: int) returns (reviews: map<int, Row>)
    ensures reviews == ReviewsOf(p, animeId)
  {
    reviews := map[];
    if p.ReviewsData? {
      for i := 0 to |p.items|
        invariant reviews == ReviewRows(p.items[..i], animeId)
      {
        assert p.items[..i + 1][..i] == p.items[..i];
        if IsReview(p.items[i]) {
          reviews := reviews[p.items[i].malId.value := ReviewRow(p.items[i].fields, animeId)];
        }
      }
      assert p.items[..|p.items|] == p.items;
    }
  }

  predicate IsReviewOf(item: ReviewItem, id: int) {
    IsReview(item) && item.malId.value == id
  }

  predicate LastReviewOf(items: seq<ReviewItem>, i: nat, id: int) {
    i < |items| && IsReviewOf(items[i], id) && forall j | i < j < |items| :: !IsReviewOf(items[j], id)
  }

  /** A review is stored exactly when a usable item has its id, with the last such item's fields. */
  lemma {:induction false} LastReviewWins(items: seq<ReviewItem>, animeId: int, id: int)
    ensures id in ReviewRows(items, animeId) <==> exists i: nat :: LastReviewOf(items, i, id)
    ensures forall i: nat :: LastReviewOf(items, i, id) ==>
      ReviewRows(items, animeId)[id] == ReviewRow(items[i].fields, animeId)
  {
    if items != [] {
      var init, last := items[..|items| - 1], items[|items| - 1];
      LastReviewWins(init, animeId, id);
      if IsReviewOf(last, id) {
        assert LastReviewOf(items, |init|, id);
        assert forall i: nat :: LastReviewOf(items, i, id) ==> i == |init|;
      } else {
        forall i: nat ensures LastReviewOf(items, i, id) <==> LastReviewOf(init, i, id) {
          if i < |init| {
            assert items[i] == init[i];
            assert forall j | i < j < |init| :: items[j] == init[j];
          }
        }
      }
    }
  }

  lemma {:induction false} ReviewsNameTheirAnime(items: seq<ReviewItem>, animeId: int, id: int)
    requires id in ReviewRows(items, animeId)
    ensures ReviewRows(items, animeId)[id].Keys == REVIEW_COLUMNS
    ensures Read(ReviewRows(items, animeId)[id], AnimeId) == Number(animeId)
  {
    var item := items[|items| - 1];
    if !(IsReview(item) && item.malId.value == id) {
      ReviewsNameTheirAnime(items[..|items| - 1], animeId, id);
    }
  }
}
