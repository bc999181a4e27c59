/** The details half of a batch, as the loops and dicts of `_clean_details` in
    app/ingestion/jobs/clean_raw_job.py. */
module DetailsOfBatch {
  import opened Base
  import opened Catalogue
  import opened Parsers
  import opened CleanSpec
  import opened CleanBatch
  import opened CleanCounts

  const ROWS_PER_STATEMENT := 500

  /** The caches say what the tables say. */
  predicate Trusted(t: Tables, tags: Names, studios: Names) {
    tags == NamesIn(t.tags) && studios == NamesIn(t.studios)
  }

  // --- lists of rows ------------------------------------------------------------------------------

  lemma AsMapAppend<K>(rows: seq<(K, Row)>, row: (K, Row))
    ensures AsMap(rows + [row]) == AsMap(rows)[row.0 := row.1]
  {
  }

  lemma {:induction false} AsMapConcat<K>(a: seq<(K, Row)>, b: seq<(K, Row)>)
    ensures AsMap(a + b) == AsMap(a) + AsMap(b)
  {
    if b == [] {
      assert a + b == a;
    } else {
      AsMapConcat(a, b[..|b| - 1]);
      assert (a + b)[..|a + b| - 1] == a + b[..|b| - 1];
    }
  }

  lemma DistinctConcat<K>(a: seq<(K, Row)>, b: seq<(K, Row)>)
    requires DistinctKeys(a) && DistinctKeys(b) && AsMap(a).Keys !! AsMap(b).Keys
    ensures DistinctKeys(a + b)
  {
    forall i, j | 0 <= i < |a| && 0 <= j < |b| ensures a[i].0 != b[j].0 {
      KeyOfAsMap(a, a[i].0);
      KeyOfAsMap(b, a[i].0);
    }
  }

  /** The rows listed so far: all but those of the keys in `rest`. */
  predicate ListedBut<K>(rows: seq<(K, Row)>, m: map<K, Row>, rest: set<K>) {
    DistinctKeys(rows) && AsMap(rows) == map k | k in m && k !in rest :: m[k]
  }

  lemma NextItem<K>(rows: seq<(K, Row)>, m: map<K, Row>, rest: set<K>, k: K)
    requires ListedBut(rows, m, rest) && k in rest && k in m
    ensures ListedBut(rows + [(k, m[k])], m, rest - {k})
  {
    OneItem(rows, k, m[k]);
  }

  lemma AllListed<K>(rows: seq<(K, Row)>, m: map<K, Row>)
    requires ListedBut(rows, m, {})
    ensures DistinctKeys(rows) && AsMap(rows) == m
  {
  }

  /** `list(d.values())`: the rows of a dict, one per key. */
  method Items<K(==)>(m: map<K, Row>) returns (rows: seq<(K, Row)>)
    ensures DistinctKeys(rows) && AsMap(rows) == m
  {
    rows := [];
    var rest := m.Keys;
    while rest != {}
      invariant rest <= m.Keys && ListedBut(rows, m, rest)
      decreases |rest|
    {
      var k :| k in rest;
      NextItem(rows, m, rest, k);
      rows := rows + [(k, m[k])];
      rest := rest - {k};
    }
    AllListed(rows, m);
  }

  lemma OneItem<K>(rows: seq<(K, Row)>, k: K, row: Row)
    requires DistinctKeys(rows) && k !in AsMap(rows)
    ensures DistinctKeys(rows + [(k, row)]) && AsMap(rows + [(k, row)]) == AsMap(rows)[k := row]
  {
    AsMapAppend(rows, (k, row));
    forall i | 0 <= i < |rows| ensures rows[i].0 != k {
      KeyOfAsMap(rows, rows[i].0);
    }
  }

  lemma AllWritten<K>(table: map<K, Row>, rows: map<K, Row>, p: Policy)
    requires !p.onlyIfChanged
    ensures |WrittenKeys(table, rows, p)| == |rows|
  {
    assert WrittenKeys(table, rows, p) == rows.Keys;
  }

  // --- details ------------------------------------------------------------------------------------

  function DetailsDelta(details: seq<RawDoc>, tags: Names, studios: Names): Delta {
    BatchDelta(details, {}, tags, studios)
  }

  lemma DetailsOneMore(details: seq<RawDoc>, i: nat, tags: Names, studios: Names)
    requires i < |details| && IsDetails(details[i])
    ensures DetailsDelta(details[..i + 1], tags, studios)
         == Plus(DetailsDelta(details[..i], tags, studios), OnlyNew(Parse(details[i]), tags, studios))
    ensures DocTotal(ParseFailed, details[..i + 1], {})
         == DocTotal(ParseFailed, details[..i], {}) + if CleanFull(details[i].payload).None? then 1 else 0
  {
    assert details[..i + 1][..i] == details[..i];
  }

  /** The dicts and lists `_clean_details` fills before it writes. */
  datatype Gathered = Gathered(
    animes: seq<(int, Row)>, tagIds: map<int, set<int>>, studioIds: map<int, set<int>>,
    relations: map<int, set<(string, int)>>, newTags: Names, newStudios: Names, parseFailed: nat)

  function ToDelta(g: Gathered): Delta {
    NOTHING.(anime := AsMap(g.animes), tagNames := g.newTags, studioNames := g.newStudios,
             tagLinks := g.tagIds, studioLinks := g.studioIds, relations := g.relations)
  }

  function GatherMore(g: Gathered, anime: (int, Row), tagNames: Names, studioNames: Names,
                      related: set<(string, int)>, tags: Names, studios: Names): Gathered {
    Gathered(
      g.animes + [anime], g.tagIds[anime.0 := tagNames.Keys], g.studioIds[anime.0 := studioNames.Keys],
      g.relations[anime.0 := related], g.newTags + New(tagNames, tags), g.newStudios + New(studioNames, studios),
      g.parseFailed)
  }

  lemma SumOne<K, V>(m: map<K, V>, k: K, v: V)
    ensures m[k := v] == m + map[k := v]
  {
  }

  lemma SumNone<K, V>(m: map<K, V>)
    ensures m + map[] == m
  {
  }

  lemma ParsedDetails(doc: RawDoc, anime: (int, Row))
    requires IsDetails(doc) && CleanFull(doc.payload) == Some(anime)
    ensures var x := Parse(doc);
      x.tagNames == Parsers.Names(Flatten(doc.payload.tagLists)) &&
      x.studioNames == Parsers.Names(Flatten(doc.payload.studioLists)) &&
      x == Delta(map[anime.0 := anime.1], x.tagNames, x.studioNames, map[anime.0 := x.tagNames.Keys],
                 map[anime.0 := x.studioNames.Keys], map[anime.0 := RelationPairs(doc.payload.relations)],
                 map[], map[], map[])
  {
  }

  lemma GatherMoreIsPlus(g: Gathered, anime: (int, Row), x: Delta, related: set<(string, int)>, tags: Names,
                         studios: Names)
    requires x == Delta(map[anime.0 := anime.1], x.tagNames, x.studioNames, map[anime.0 := x.tagNames.Keys],
                        map[anime.0 := x.studioNames.Keys], map[anime.0 := related], map[], map[], map[])
    ensures ToDelta(GatherMore(g, anime, x.tagNames, x.studioNames, related, tags, studios))
         == Plus(ToDelta(g), OnlyNew(x, tags, studios))
  {
    AsMapAppend(g.animes, anime);
    SumOne(AsMap(g.animes), anime.0, anime.1);
    SumOne(g.tagIds, anime.0, x.tagNames.Keys);
    SumOne(g.studioIds, anime.0, x.studioNames.Keys);
    SumOne(g.relations, anime.0, related);
    SumNone<int, Row>(map[]);
    SumNone<(int, int), Row>(map[]);
  }

  lemma PlusNothing(d: Delta, tags: Names, studios: Names)
    ensures Plus(d, OnlyNew(NOTHING, tags, studios)) == d
  {
    NoNewNames(tags);
    NoNewNames(studios);
    SumNone(d.anime);
    SumNone(d.tagNames);
    SumNone(d.studioNames);
    SumNone(d.tagLinks);
    SumNone(d.studioLinks);
    SumNone(d.relations);
    SumNone(d.statistics);
    SumNone(d.episodes);
    SumNone(d.reviews);
  }

  lemma NoNewNames(cache: Names)
    ensures New(map[], cache) == map[]
  {
  }

  function AnimeRow(doc: RawDoc): seq<(int, Row)> {
    match CleanFull(doc.payload) case None => [] case Some(a) => [a]
  }

  /** The anime rows of the details responses, in order. */
  function AnimeRows(details: seq<RawDoc>): seq<(int, Row)> {
    if details == [] then [] else AnimeRows(details[..|details| - 1]) + AnimeRow(details[|details| - 1])
  }

  /** One details response: nothing but a count when it cannot be parsed. */
  method GatherOne(g: Gathered, doc: RawDoc, tags: Names, studios: Names) returns (g': Gathered)
    requires IsDetails(doc)
    ensures ToDelta(g') == Plus(ToDelta(g), OnlyNew(Parse(doc), tags, studios))
    ensures g'.parseFailed == g.parseFailed + if CleanFull(doc.payload).None? then 1 else 0
    ensures g'.animes == g.animes + AnimeRow(doc)
  {
    match CleanFull(doc.payload) {
      case None =>
        g' := g.(parseFailed := g.parseFailed + 1);
        PlusNothing(ToDelta(g), tags, studios);
      case Some(anime) =>
        var docTags := NamedItems(doc.payload.tagLists);
        var docStudios := NamedItems(doc.payload.studioLists);
        var related := ExtractRelations(doc.payload.relations);
        ParsedDetails(doc, anime);
        GatherMoreIsPlus(g, anime, Parse(doc), related, tags, studios);
        g' := GatherMore(g, anime, docTags, docStudios, related, tags, studios);
    }
  }

  method Gather(details: seq<RawDoc>, tags: Names, studios: Names) returns (g: Gathered)
    requires forall i | 0 <= i < |details| :: IsDetails(details[i])
    ensures ToDelta(g) == DetailsDelta(details, tags, studios)
    ensures g.parseFailed == DocTotal(ParseFailed, details, {})
    ensures g.animes == AnimeRows(details)
  {
    g := Gathered([], map[], map[], map[], map[], map[], 0);
    for i := 0 to |details|
      invariant ToDelta(g) == DetailsDelta(details[..i], tags, studios)
      invariant g.parseFailed == DocTotal(ParseFailed, details[..i], {})
      invariant g.animes == AnimeRows(details[..i])
    {
      DetailsOneMore(details, i, tags, studios);
      assert details[..i + 1][..i] == details[..i];
      g := GatherOne(g, details[i], tags, studios);
    }
    assert details[..|details|] == details;
  }

  predicate IsAnimeOf(details: seq<RawDoc>, id: int) {
    exists n :: 0 <= n < |details| && details[n].key.malId == id
  }

  predicate FromDetails(rows: seq<(int, Row)>, details: seq<RawDoc>) {
    forall i | 0 <= i < |rows| :: IsAnimeOf(details, rows[i].0)
  }

  lemma OneMoreAnime(rows: seq<(int, Row)>, init: seq<RawDoc>, last: RawDoc, details: seq<RawDoc>)
    requires IsDetails(last) && PayloadIdMatches(last) && FromDetails(rows, init) && DistinctKeys(rows)
    requires details == init + [last] && !IsAnimeOf(init, last.key.malId)
    ensures DistinctKeys(rows + AnimeRow(last)) && FromDetails(rows + AnimeRow(last), details)
  {
    forall id | IsAnimeOf(init, id) ensures IsAnimeOf(details, id) {
      var n :| 0 <= n < |init| && init[n].key.malId == id;
      assert details[n] == init[n];
    }
    assert details[|init|] == last;
    assert AnimeRow(last) != [] ==> AnimeRow(last)[0].0 == last.key.malId;
  }

  lemma LastIsNew(details: seq<RawDoc>, init: seq<RawDoc>, last: RawDoc)
    requires Good(details) && details == init + [last] && IsDetails(last)
    requires forall i | 0 <= i < |init| :: IsDetails(init[i])
    ensures !IsAnimeOf(init, last.key.malId)
  {
    forall n | 0 <= n < |init| ensures init[n].key.malId != last.key.malId {
      assert details[n] == init[n] && details[|init|] == last;
      assert Less(details[n].key, last.key);
    }
  }

  /** With payload ids equal to row ids no anime row comes twice. */
  lemma {:induction false} AnimeRowsDistinct(details: seq<RawDoc>)
    requires Good(details) && forall i | 0 <= i < |details| :: IsDetails(details[i])
    ensures DistinctKeys(AnimeRows(details)) && FromDetails(AnimeRows(details), details)
  {
    if details != [] {
      var init, last := details[..|details| - 1], details[|details| - 1];
      PrefixGood(details, |details| - 1);
      AnimeRowsDistinct(init);
      LastIsNew(details, init, last);
      OneMoreAnime(AnimeRows(init), init, last, details);
    }
  }

  // --- the writes ---------------------------------------------------------------------------------

  /** The working copy after the details were written, what the caches have to learn, and counts.
      `Refused` stands for any database error; the caller then rolls back. */
  datatype DetailsResult =
    | DetailsRefused
    | DetailsWritten(tables: Tables, newTags: Names, newStudios: Names, animeChanged: nat, tagsUpserted: nat,
        studiosUpserted: nat, tagLinksChanged: nat, studioLinksChanged: nat, relationLinksChanged: nat,
        parseFailed: nat)

  /** Every linked tag or studio is new in this batch or was in the cache before it. */
  predicate Named(links: map<int, set<int>>, names: Names, cache: Names) {
    forall a | a in links :: links[a] <= names.Keys + cache.Keys
  }

  lemma NamedSum(la: map<int, set<int>>, na: Names, lb: map<int, set<int>>, nb: Names, cache: Names)
    requires Named(la, na, cache) && Named(lb, nb, cache)
    ensures Named(la + lb, na + nb, cache)
  {
  }

  predicate LinksNamed(d: Delta, tags: Names, studios: Names) {
    d.tagLinks.Keys == d.anime.Keys && d.studioLinks.Keys == d.anime.Keys && d.relations.Keys == d.anime.Keys &&
    Named(d.tagLinks, d.tagNames, tags) && Named(d.studioLinks, d.studioNames, studios)
  }

  lemma OneLinksNamed(doc: RawDoc, tags: Names, studios: Names)
    requires IsDetails(doc)
    ensures LinksNamed(OnlyNew(Parse(doc), tags, studios), tags, studios)
  {
  }

  lemma LinksNamedSum(a: Delta, b: Delta, tags: Names, studios: Names)
    requires LinksNamed(a, tags, studios) && LinksNamed(b, tags, studios)
    ensures LinksNamed(Plus(a, b), tags, studios)
  {
    NamedSum(a.tagLinks, a.tagNames, b.tagLinks, b.tagNames, tags);
    NamedSum(a.studioLinks, a.studioNames, b.studioLinks, b.studioNames, studios);
  }

  lemma NothingToName(tags: Names, studios: Names)
    ensures LinksNamed(DetailsDelta([], tags, studios), tags, studios)
  {
  }

  lemma LinksNamedNext(d: Delta, x: Delta, sum: Delta, tags: Names, studios: Names)
    requires LinksNamed(d, tags, studios) && LinksNamed(x, tags, studios) && sum == Plus(d, x)
    ensures LinksNamed(sum, tags, studios)
  {
    LinksNamedSum(d, x, tags, studios);
  }

  lemma LinksNamedOneMore(details: seq<RawDoc>, i: nat, tags: Names, studios: Names, d: Delta, sum: Delta)
    requires i < |details| && IsDetails(details[i]) && LinksNamed(d, tags, studios)
    requires d == DetailsDelta(details[..i], tags, studios) && sum == DetailsDelta(details[..i + 1], tags, studios)
    ensures LinksNamed(sum, tags, studios)
  {
    var x := OnlyNew(Parse(details[i]), tags, studios);
    OneLinksNamed(details[i], tags, studios);
    DetailsOneMore(details, i, tags, studios);
    LinksNamedNext(d, x, sum, tags, studios);
  }

  lemma BatchLinksNamed(details: seq<RawDoc>, tags: Names, studios: Names)
    requires forall i | 0 <= i < |details| :: IsDetails(details[i])
    ensures LinksNamed(DetailsDelta(details, tags, studios), tags, studios)
  {
    var d := DetailsDelta([], tags, studios);
    NothingToName(tags, studios);
    for i := 0 to |details|
      invariant d == DetailsDelta(details[..i], tags, studios) && LinksNamed(d, tags, studios)
    {
      var sum := DetailsDelta(details[..i + 1], tags, studios);
      LinksNamedOneMore(details, i, tags, studios, d, sum);
      d := sum;
    }
    assert details[..|details|] == details;
  }

  lemma {:induction false} RowByRowKeys<K>(table: map<K, Row>, rows: seq<(K, Row)>, p: Policy)
    ensures RowByRow(table, rows, p).Keys == table.Keys + AsMap(rows).Keys
  {
    if rows != [] {
      RowByRowKeys(table, rows[..|rows| - 1], p);
    }
  }

  /** When the cache is the table, every link is inserted after both its ends. */
  lemma LinkParentsExist(table: map<int, Row>, names: Names, anime: set<int>, stored: set<(int, int)>,
                         wanted: map<int, set<int>>, parents: (int, int) -> bool)
    requires wanted.Keys <= anime && Named(wanted, names, NamesIn(table))
    requires forall a, l | a in anime && l in Statement(table, NameRows(names), OVERWRITE) :: parents(a, l)
    ensures ParentsExist(stored, wanted, parents)
  {
    var after := Statement(table, NameRows(names), OVERWRITE);
    forall a, l | a in wanted && l in wanted[a] ensures parents(a, l) {
      assert l in names.Keys + NamesIn(table).Keys;
      assert a in anime;
      assert l in after;
    }
  }

  /** `upsert_tags` or `upsert_studios`, skipped when there is nothing new. */
  method UpsertNames(table: map<int, Row>, names: Names) returns (after: map<int, Row>, count: nat)
    ensures after == Statement(table, NameRows(names), OVERWRITE) && count == |names|
  {
    if names == map[] {
      NothingStored(table, OVERWRITE);
      assert NameRows(names) == map[];
      return table, 0;
    }
    var rows := Items(NameRows(names));
    var r := Upsert(table, rows, OVERWRITE, ROWS_PER_STATEMENT);
    AllWritten(table, NameRows(names), OVERWRITE);
    assert NameRows(names).Keys == names.Keys;
    SameSize(NameRows(names), names);
    return r.table, r.count;
  }

  lemma SameSize<K, V, W>(a: map<K, V>, b: map<K, W>)
    requires a.Keys == b.Keys
    ensures |a| == |b|
  {
  }

  lemma DetailsTables(work: Tables, d: Delta)
    requires d.statistics == map[] && d.episodes == map[] && d.reviews == map[]
    ensures Apply(work, d) == Tables(
      Statement(work.anime, d.anime, ONLY_IF_CHANGED), Statement(work.tags, NameRows(d.tagNames), OVERWRITE),
      Statement(work.studios, NameRows(d.studioNames), OVERWRITE), Replaced(work.tagLinks, d.tagLinks),
      Replaced(work.studioLinks, d.studioLinks), Replaced(work.relations, d.relations),
      work.statistics, work.episodes, work.reviews)
  {
    NothingStored(work.statistics, OVERWRITE);
    NothingStored(work.episodes, KEEP_SYNOPSIS);
    NothingStored(work.reviews, OVERWRITE);
  }

  /** The catalogue after the writes `d`, and what every repository call returned. */
  function DetailsAnswer(t: Tables, d: Delta, parseFailed: nat): DetailsResult {
    DetailsWritten(Apply(t, d), d.tagNames, d.studioNames,
      |WrittenKeys(t.anime, d.anime, ONLY_IF_CHANGED)|, |d.tagNames|, |d.studioNames|,
      |Changed(t.tagLinks, d.tagLinks)|, |Changed(t.studioLinks, d.studioLinks)|,
      |Changed(t.relations, d.relations)|, parseFailed)
  }

  lemma LinksAreAccepted(work: Tables, d: Delta, anime: set<int>, tagParents: (int, int) -> bool,
                         studioParents: (int, int) -> bool)
    requires LinksNamed(d, NamesIn(work.tags), NamesIn(work.studios)) && d.anime.Keys <= anime
    requires forall a, l | a in anime && l in Statement(work.tags, NameRows(d.tagNames), OVERWRITE) :: tagParents(a, l)
    requires forall a, l | a in anime && l in Statement(work.studios, NameRows(d.studioNames), OVERWRITE) ::
      studioParents(a, l)
    ensures ParentsExist(work.tagLinks, d.tagLinks, tagParents)
    ensures ParentsExist(work.studioLinks, d.studioLinks, studioParents)
  {
    LinkParentsExist(work.tags, d.tagNames, anime, work.tagLinks, d.tagLinks, tagParents);
    LinkParentsExist(work.studios, d.studioNames, anime, work.studioLinks, d.studioLinks, studioParents);
  }

  /** The link tables, each under its foreign keys. */
  method WriteLinks(work: Tables, anime: map<int, Row>, tags: map<int, Row>, studios: map<int, Row>, g: Gathered)
    returns (tagLinks: Written<set<(int, int)>>, studioLinks: Written<set<(int, int)>>,
      relations: Written<set<(int, (string, int))>>)
    requires anime.Keys == work.anime.Keys + ToDelta(g).anime.Keys
    requires tags == Statement(work.tags, NameRows(g.newTags), OVERWRITE)
    requires studios == Statement(work.studios, NameRows(g.newStudios), OVERWRITE)
    ensures tagLinks.Ok? ==> tagLinks == Ok(Replaced(work.tagLinks, g.tagIds), |Changed(work.tagLinks, g.tagIds)|)
    ensures studioLinks.Ok? ==>
      studioLinks == Ok(Replaced(work.studioLinks, g.studioIds), |Changed(work.studioLinks, g.studioIds)|)
    ensures relations.Ok? ==>
      relations == Ok(Replaced(work.relations, g.relations), |Changed(work.relations, g.relations)|)
    ensures LinksNamed(ToDelta(g), NamesIn(work.tags), NamesIn(work.studios)) ==>
      tagLinks.Ok? && studioLinks.Ok? && relations.Ok?
  {
    var tagParents := (a: int, l: int) => a in anime && l in tags;
    var studioParents := (a: int, l: int) => a in anime && l in studios;
    var relationParents := (a: int, l: (string, int)) => a in anime;
    if LinksNamed(ToDelta(g), NamesIn(work.tags), NamesIn(work.studios)) {
      LinksAreAccepted(work, ToDelta(g), anime.Keys, tagParents, studioParents);
    }
    tagLinks := ReplaceLinks(work.tagLinks, g.tagIds, tagParents, ROWS_PER_STATEMENT);
    studioLinks := ReplaceLinks(work.studioLinks, g.studioIds, studioParents, ROWS_PER_STATEMENT);
    relations := ReplaceLinks(work.relations, g.relations, relationParents, ROWS_PER_STATEMENT);
  }

  /** The working copy and the counts row by row, when two rows may name one anime. */
  function RowByRowAnswer(work: Tables, g: Gathered): DetailsResult {
    DetailsWritten(
      Tables(RowByRow(work.anime, g.animes, ONLY_IF_CHANGED), Statement(work.tags, NameRows(g.newTags), OVERWRITE),
             Statement(work.studios, NameRows(g.newStudios), OVERWRITE), Replaced(work.tagLinks, g.tagIds),
             Replaced(work.studioLinks, g.studioIds), Replaced(work.relations, g.relations),
             work.statistics, work.episodes, work.reviews),
      g.newTags, g.newStudios, RowByRowWrites(work.anime, g.animes, ONLY_IF_CHANGED), |g.newTags|, |g.newStudios|,
      |Changed(work.tagLinks, g.tagIds)|, |Changed(work.studioLinks, g.studioIds)|,
      |Changed(work.relations, g.relations)|, g.parseFailed)
  }

  lemma AnswerOf(work: Tables, g: Gathered)
    requires DistinctKeys(g.animes)
    ensures RowByRowAnswer(work, g) == DetailsAnswer(work, ToDelta(g), g.parseFailed)
  {
    StatementIsRowByRow(work.anime, g.animes, ONLY_IF_CHANGED);
    DetailsTables(work, ToDelta(g));
  }

  /** What was gathered, written in the order of the foreign keys. */
  method WriteGathered(work: Tables, g: Gathered) returns (r: DetailsResult)
    ensures LinksNamed(ToDelta(g), NamesIn(work.tags), NamesIn(work.studios)) ==>
      (r.DetailsWritten? <==> EveryChunkDistinct(g.animes, ROWS_PER_STATEMENT))
    ensures r.DetailsWritten? ==> r == RowByRowAnswer(work, g)
  {
    var anime := Upsert(work.anime, g.animes, ONLY_IF_CHANGED, ROWS_PER_STATEMENT);
    if anime.Refused? {
      return DetailsRefused;
    }
    RowByRowKeys(work.anime, g.animes, ONLY_IF_CHANGED);
    var tagRows, tagCount := UpsertNames(work.tags, g.newTags);
    var studioRows, studioCount := UpsertNames(work.studios, g.newStudios);
    var tagLinks, studioLinks, relations := WriteLinks(work, anime.table, tagRows, studioRows, g);
    if tagLinks.Refused? || studioLinks.Refused? || relations.Refused? {
      return DetailsRefused;
    }
    r := DetailsWritten(
      Tables(anime.table, tagRows, studioRows, tagLinks.table, studioLinks.table, relations.table,
             work.statistics, work.episodes, work.reviews),
      g.newTags, g.newStudios, anime.count, tagCount, studioCount, tagLinks.count, studioLinks.count,
      relations.count, g.parseFailed);
  }

  lemma RowByRowNames(work: Tables, g: Gathered, r: DetailsResult)
    requires r == RowByRowAnswer(work, g)
    ensures r.tables.tags == Statement(work.tags, NameRows(r.newTags), OVERWRITE)
    ensures r.tables.studios == Statement(work.studios, NameRows(r.newStudios), OVERWRITE)
  {
  }

  /** What the responses ask for, with every anime row they name, in order. */
  function GatheredFrom(details: seq<RawDoc>, tags: Names, studios: Names): Gathered {
    var d := DetailsDelta(details, tags, studios);
    Gathered(AnimeRows(details), d.tagLinks, d.studioLinks, d.relations, d.tagNames, d.studioNames,
      DocTotal(ParseFailed, details, {}))
  }

  lemma GatheredIs(g: Gathered, details: seq<RawDoc>, tags: Names, studios: Names)
    requires ToDelta(g) == DetailsDelta(details, tags, studios) && g.animes == AnimeRows(details)
    requires g.parseFailed == DocTotal(ParseFailed, details, {})
    ensures g == GatheredFrom(details, tags, studios)
  {
  }

  /** `_clean_details`: the anime, then the tags and studios they point at, then the links. With
      caches that equal their tables no link is ever refused, only two rows of one anime in one
      statement. What is written are the responses' rows one by one, and their links; when no anime
      comes twice, that is all of their writes at once. */
  method CleanDetails(work: Tables, details: seq<RawDoc>, tags: Names, studios: Names) returns (r: DetailsResult)
    requires forall i | 0 <= i < |details| :: IsDetails(details[i])
    ensures Trusted(work, tags, studios) ==>
      (r.DetailsWritten? <==> EveryChunkDistinct(AnimeRows(details), ROWS_PER_STATEMENT))
    ensures r.DetailsWritten? ==>
      r.tables.tags == Statement(work.tags, NameRows(r.newTags), OVERWRITE) &&
      r.tables.studios == Statement(work.studios, NameRows(r.newStudios), OVERWRITE)
    ensures DistinctKeys(AnimeRows(details)) && r.DetailsWritten? ==>
      r == DetailsAnswer(work, DetailsDelta(details, tags, studios), DocTotal(ParseFailed, details, {}))
    ensures r.DetailsWritten? ==> r == RowByRowAnswer(work, GatheredFrom(details, tags, studios))
  {
    var g := Gather(details, tags, studios);
    BatchLinksNamed(details, tags, studios);
    GatheredIs(g, details, tags, studios);
    r := WriteGathered(work, g);
    if r.DetailsWritten? {
      RowByRowNames(work, g, r);
      if DistinctKeys(g.animes) {
        AnswerOf(work, g);
      }
    }
  }
}
