/** What one clean batch does to the catalogue (app/ingestion/jobs/clean_raw_job.py), as an algebra:
    every stored response stands for a set of writes, and sets of writes compose. */
module CleanSpec {
  import opened Base
  import opened Catalogue
  import opened Parsers

  /** An index row together with the response it points at. */
  datatype RawDoc = RawDoc(key: Key, payload: Payload)

  /** The catalogue tables. Statistics, episodes and reviews are keyed by their primary keys. */
  datatype Tables = Tables(
    anime: map<int, Row>, tags: map<int, Row>, studios: map<int, Row>,
    tagLinks: set<(int, int)>, studioLinks: set<(int, int)>, relations: set<(int, (string, int))>,
    statistics: map<int, Row>, episodes: map<(int, int), Row>, reviews: map<int, Row>)

  /** tag or studio id -> name: what the job keeps in memory. */
  type Names = map<int, string>

  /** The writes a response, or a whole batch, asks for. */
  datatype Delta = Delta(
    anime: map<int, Row>, tagNames: Names, studioNames: Names,
    tagLinks: map<int, set<int>>, studioLinks: map<int, set<int>>, relations: map<int, set<(string, int)>>,
    statistics: map<int, Row>, episodes: map<(int, int), Row>, reviews: map<int, Row>)

  const NOTHING := Delta(map[], map[], map[], map[], map[], map[], map[], map[], map[])

  /** Later entries win, as in `dict.update`. */
  function Plus(a: Delta, b: Delta): Delta {
    Delta(a.anime + b.anime, a.tagNames + b.tagNames, a.studioNames + b.studioNames,
          a.tagLinks + b.tagLinks, a.studioLinks + b.studioLinks, a.relations + b.relations,
          a.statistics + b.statistics, a.episodes + b.episodes, a.reviews + b.reviews)
  }

  function NameRows(names: Names): map<int, Row> {
    map k | k in names :: map[Name := Text(names[k])]
  }

  /** `get_tags` and `get_studios`. */
  function NamesIn(table: map<int, Row>): Names {
    map k | k in table && Read(table[k], Name).Text? :: Read(table[k], Name).s
  }

  function Apply(t: Tables, d: Delta): Tables {
    Tables(
      Statement(t.anime, d.anime, ONLY_IF_CHANGED),
      Statement(t.tags, NameRows(d.tagNames), OVERWRITE),
      Statement(t.studios, NameRows(d.studioNames), OVERWRITE),
      Replaced(t.tagLinks, d.tagLinks),
      Replaced(t.studioLinks, d.studioLinks),
      Replaced(t.relations, d.relations),
      Statement(t.statistics, d.statistics, OVERWRITE),
      Statement(t.episodes, d.episodes, KEEP_SYNOPSIS),
      Statement(t.reviews, d.reviews, OVERWRITE))
  }

  // --- composition --------------------------------------------------------------------------------

  predicate Agreeing(a: Delta, b: Delta) {
    Agree(a.anime, b.anime) && Agree(a.tagNames, b.tagNames) && Agree(a.studioNames, b.studioNames) &&
    Agree(a.tagLinks, b.tagLinks) && Agree(a.studioLinks, b.studioLinks) && Agree(a.relations, b.relations) &&
    Agree(a.statistics, b.statistics) && Agree(a.episodes, b.episodes) && Agree(a.reviews, b.reviews)
  }

  /** Different rows everywhere, except that names may be repeated. */
  predicate Compatible(a: Delta, b: Delta) {
    a.anime.Keys !! b.anime.Keys && Agree(a.tagNames, b.tagNames) && Agree(a.studioNames, b.studioNames) &&
    a.tagLinks.Keys !! b.tagLinks.Keys && a.studioLinks.Keys !! b.studioLinks.Keys &&
    a.relations.Keys !! b.relations.Keys && a.statistics.Keys !! b.statistics.Keys &&
    a.episodes.Keys !! b.episodes.Keys && a.reviews.Keys !! b.reviews.Keys
  }

  lemma NameRowsOfSum(a: Names, b: Names)
    ensures NameRows(a) + NameRows(b) == NameRows(a + b)
  {
  }

  lemma ComposeNames(table: map<int, Row>, a: Names, b: Names)
    requires Agree(a, b)
    ensures Statement(Statement(table, NameRows(a), OVERWRITE), NameRows(b), OVERWRITE)
         == Statement(table, NameRows(a + b), OVERWRITE)
  {
    NameRowsOfSum(a, b);
    StatementCompose(table, NameRows(a), NameRows(b), OVERWRITE);
  }

  /** Writing twice is writing once: agreeing sets of writes compose. */
  lemma ApplyCompose(t: Tables, a: Delta, b: Delta)
    requires Agreeing(a, b)
    ensures Apply(Apply(t, a), b) == Apply(t, Plus(a, b))
  {
    StatementCompose(t.anime, a.anime, b.anime, ONLY_IF_CHANGED);
    ComposeNames(t.tags, a.tagNames, b.tagNames);
    ComposeNames(t.studios, a.studioNames, b.studioNames);
    ReplacedCompose(t.tagLinks, a.tagLinks, b.tagLinks);
    ReplacedCompose(t.studioLinks, a.studioLinks, b.studioLinks);
    ReplacedCompose(t.relations, a.relations, b.relations);
    StatementCompose(t.statistics, a.statistics, b.statistics, OVERWRITE);
    StatementCompose(t.episodes, a.episodes, b.episodes, KEEP_SYNOPSIS);
    StatementCompose(t.reviews, a.reviews, b.reviews, OVERWRITE);
  }

  lemma SumCommutes<K, V>(a: map<K, V>, b: map<K, V>)
    requires Agree(a, b)
    ensures a + b == b + a
  {
  }

  lemma PlusCommutes(a: Delta, b: Delta)
    requires Agreeing(a, b)
    ensures Plus(a, b) == Plus(b, a)
  {
    SumCommutes(a.anime, b.anime);
    SumCommutes(a.tagNames, b.tagNames);
    SumCommutes(a.studioNames, b.studioNames);
    SumCommutes(a.tagLinks, b.tagLinks);
    SumCommutes(a.studioLinks, b.studioLinks);
    SumCommutes(a.relations, b.relations);
    SumCommutes(a.statistics, b.statistics);
    SumCommutes(a.episodes, b.episodes);
    SumCommutes(a.reviews, b.reviews);
  }

  lemma PlusItself(d: Delta)
    ensures Plus(d, d) == d
  {
  }

  /** Writes that already hold still hold after others that agree with them. */
  lemma ApplyAbsorbs(t: Tables, x: Delta, d: Delta)
    requires Agreeing(x, d) && Apply(t, d) == t
    ensures Apply(Apply(t, x), d) == Apply(t, x)
  {
    ApplyCompose(t, x, d);
    PlusCommutes(x, d);
    ApplyCompose(t, d, x);
  }

  lemma ApplyNothing(t: Tables)
    ensures Apply(t, NOTHING) == t
  {
    NothingStored(t.anime, ONLY_IF_CHANGED);
    NothingStored(t.tags, OVERWRITE);
    NothingStored(t.studios, OVERWRITE);
    NothingStored(t.statistics, OVERWRITE);
    NothingStored(t.episodes, KEEP_SYNOPSIS);
    NothingStored(t.reviews, OVERWRITE);
    assert NameRows(map[]) == map[];
  }

  lemma NothingStored<K>(table: map<K, Row>, p: Policy)
    ensures Statement(table, map[], p) == table
  {
  }

  // --- the name caches ----------------------------------------------------------------------------

  /** The names that are new or differ from the cache: the only ones the job upserts. */
  function New(names: Names, cache: Names): Names {
    map k | k in names && !(k in cache && cache[k] == names[k]) :: names[k]
  }

  function OnlyNew(d: Delta, tags: Names, studios: Names): Delta {
    d.(tagNames := New(d.tagNames, tags), studioNames := New(d.studioNames, studios))
  }

  lemma SameNameSameRow(row: Row, name: string)
    requires Read(row, Name) == Text(name)
    ensures Merge(row, map[Name := Text(name)], {}) == row
  {
  }

  lemma NameRowStored(table: map<int, Row>, names: Names, k: int, after: map<int, Row>)
    requires after == Statement(table, NameRows(names), OVERWRITE)
    ensures k in after <==> k in table || k in names
    ensures k in names ==> Read(after[k], Name) == Text(names[k])
    ensures k in after && k !in names ==> after[k] == table[k]
    ensures k in names && k in table ==> after[k] == Merge(table[k], map[Name := Text(names[k])], {})
    ensures k in names && k !in table ==> after[k] == map[Name := Text(names[k])]
  {
  }

  /** Leaving out the names the table already has changes nothing. */
  lemma NewNamesSuffice(table: map<int, Row>, names: Names)
    ensures Statement(table, NameRows(New(names, NamesIn(table))), OVERWRITE)
         == Statement(table, NameRows(names), OVERWRITE)
  {
    var few := New(names, NamesIn(table));
    var l, r := Statement(table, NameRows(few), OVERWRITE), Statement(table, NameRows(names), OVERWRITE);
    forall k ensures k in l <==> k in r {
      NameRowStored(table, few, k, l);
      NameRowStored(table, names, k, r);
    }
    forall k | k in l ensures l[k] == r[k] {
      NameRowStored(table, few, k, l);
      NameRowStored(table, names, k, r);
      if k in names && k !in few {
        SameNameSameRow(table[k], names[k]);
      }
    }
  }

  /** What the cache has to become: exactly the names in the table. */
  lemma NamesAfterUpsert(table: map<int, Row>, names: Names)
    ensures NamesIn(Statement(table, NameRows(names), OVERWRITE)) == NamesIn(table) + names
  {
    var after := Statement(table, NameRows(names), OVERWRITE);
    forall k ensures Lookup(NamesIn(after), k) == Lookup(NamesIn(table) + names, k) {
      NameRowStored(table, names, k, after);
    }
    SameLookups(NamesIn(after), NamesIn(table) + names);
  }

  lemma SameLookups<K(!new), V>(a: map<K, V>, b: map<K, V>)
    requires forall k :: Lookup(a, k) == Lookup(b, k)
    ensures a == b
  {
    assert forall k :: (k in a <==> Lookup(a, k).Some?) && (k in b <==> Lookup(b, k).Some?);
  }

  lemma ApplyOnlyNew(t: Tables, d: Delta)
    ensures Apply(t, OnlyNew(d, NamesIn(t.tags), NamesIn(t.studios))) == Apply(t, d)
  {
    NewNamesSuffice(t.tags, d.tagNames);
    NewNamesSuffice(t.studios, d.studioNames);
  }

  lemma NewOfSum(a: Names, b: Names, cache: Names)
    requires Agree(a, b)
    ensures New(a + b, cache) == New(a, cache) + New(b, cache)
  {
  }
}
