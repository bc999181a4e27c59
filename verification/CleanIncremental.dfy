/** When cleaning only the recently fetched rows gives what cleaning every row would. */
module CleanIncremental {
  import opened Base
  import opened Catalogue
  import opened Parsers
  import opened CleanSpec
  import opened CleanBatch
  import opened CleanHistory

  /** The rows fetched at or after the cut-off, in the same order. */
  function Keep(docs: seq<RawDoc>, recent: set<Key>): seq<RawDoc> {
    if docs == [] then []
    else
      var rest, last := Keep(docs[..|docs| - 1], recent), docs[|docs| - 1];
      if last.key in recent then rest + [last] else rest
  }

  /** An older row that has something to write but was skipped, because its anime only appears
      among the recent rows. An incremental run leaves it skipped. */
  predicate Late(t: Tables, docs: seq<RawDoc>, recent: set<Key>, doc: RawDoc) {
    doc.key !in recent && !IsDetails(doc) && Parse(doc) != NOTHING &&
    doc.key.malId !in t.anime && doc.key.malId in AnimeIn(Keep(docs, recent))
  }

  predicate NoneLate(t: Tables, docs: seq<RawDoc>, recent: set<Key>) {
    forall i | 0 <= i < |docs| :: !Late(t, docs, recent, docs[i])
  }

  /** The catalogue already reflects every older row. */
  predicate OldRowsCleaned(t: Tables, docs: seq<RawDoc>, recent: set<Key>) {
    forall i | 0 <= i < |docs| && docs[i].key !in recent :: NoOp(t, docs[i])
  }

  lemma {:induction false} KeptAnime(docs: seq<RawDoc>, recent: set<Key>, n: nat)
    requires n < |docs| && docs[n].key in recent
    ensures Parse(docs[n]).anime.Keys <= AnimeIn(Keep(docs, recent))
  {
    var rest, last := Keep(docs[..|docs| - 1], recent), docs[|docs| - 1];
    if last.key in recent {
      assert (rest + [last])[..|rest|] == rest;
    }
    if n < |docs| - 1 {
      KeptAnime(docs[..|docs| - 1], recent, n);
    }
  }

  lemma OtherStaysNoOp(t: Tables, docs: seq<RawDoc>, i: nat, n: nat)
    requires Good(docs) && i < |docs| && n < |docs| && i != n
    requires NoOp(t, docs[i]) && !Enables(t, docs[n], docs[i])
    ensures NoOp(CleanOne(t, docs[n]), docs[i])
  {
    if i < n {
      assert Less(docs[i].key, docs[n].key) && Consistent(docs[i], docs[n]);
    } else {
      assert Less(docs[n].key, docs[i].key) && Consistent(docs[n], docs[i]);
    }
    ParsedCompatible(docs[n], docs[i]);
    StaysNoOp(t, docs[n], docs[i]);
  }

  lemma RecentStep(t: Tables, now: Tables, docs: seq<RawDoc>, recent: set<Key>, n: nat)
    requires Good(docs) && NoneLate(t, docs, recent) && n < |docs| && docs[n].key in recent
    requires OldRowsCleaned(now, docs, recent) && t.anime.Keys <= now.anime.Keys
    ensures OldRowsCleaned(CleanOne(now, docs[n]), docs, recent)
  {
    KeptAnime(docs, recent, n);
    forall i | 0 <= i < |docs| && docs[i].key !in recent ensures NoOp(CleanOne(now, docs[n]), docs[i]) {
      assert !Late(t, docs, recent, docs[i]);
      OtherStaysNoOp(now, docs, i, n);
    }
  }

  lemma KeepOneMore(docs: seq<RawDoc>, recent: set<Key>, init: seq<RawDoc>, last: RawDoc)
    requires docs == init + [last]
    ensures Keep(docs, recent) == if last.key in recent then Keep(init, recent) + [last] else Keep(init, recent)
  {
    assert docs[..|docs| - 1] == init;
  }

  lemma FoldOneMore(t: Tables, docs: seq<RawDoc>, init: seq<RawDoc>, last: RawDoc)
    requires docs == init + [last]
    ensures Fold(t, docs) == CleanOne(Fold(t, init), last)
  {
    assert docs[..|docs| - 1] == init;
  }

  /** Over a prefix the incremental run does what the full pass does, and older rows stay cleaned. */
  predicate SameOver(t: Tables, docs: seq<RawDoc>, recent: set<Key>, prefix: seq<RawDoc>) {
    Fold(t, prefix) == Fold(t, Keep(prefix, recent)) && OldRowsCleaned(Fold(t, prefix), docs, recent)
  }

  lemma IncrementalStep(t: Tables, docs: seq<RawDoc>, recent: set<Key>, init: seq<RawDoc>, prefix: seq<RawDoc>, n: nat)
    requires Good(docs) && NoneLate(t, docs, recent) && n < |docs| && prefix == init + [docs[n]]
    requires SameOver(t, docs, recent, init)
    ensures SameOver(t, docs, recent, prefix)
  {
    var now := Fold(t, init);
    KeepOneMore(prefix, recent, init, docs[n]);
    FoldOneMore(t, prefix, init, docs[n]);
    if docs[n].key in recent {
      FoldAnime(t, init);
      RecentStep(t, now, docs, recent, n);
      FoldOneMore(t, Keep(prefix, recent), Keep(init, recent), docs[n]);
    } else {
      assert NoOp(now, docs[n]);
    }
  }

  lemma IncrementalStart(t: Tables, docs: seq<RawDoc>, recent: set<Key>)
    requires OldRowsCleaned(t, docs, recent)
    ensures SameOver(t, docs, recent, [])
  {
  }

  lemma IncrementalPrefix(t: Tables, docs: seq<RawDoc>, recent: set<Key>)
    requires Good(docs) && OldRowsCleaned(t, docs, recent) && NoneLate(t, docs, recent)
    ensures SameOver(t, docs, recent, docs)
  {
    IncrementalStart(t, docs, recent);
    for n := 0 to |docs|
      invariant SameOver(t, docs, recent, docs[..n])
    {
      IncrementalStep(t, docs, recent, docs[..n], docs[..n + 1], n);
    }
    assert docs[..|docs|] == docs;
  }

  lemma NoneLateSuffices(t: Tables, docs: seq<RawDoc>, recent: set<Key>)
    requires Good(docs) && OldRowsCleaned(t, docs, recent) && NoneLate(t, docs, recent)
    ensures Fold(t, Keep(docs, recent)) == Fold(t, docs)
  {
    IncrementalPrefix(t, docs, recent);
  }

  // --- the condition is exact ---------------------------------------------------------------------

  /** Statistics, episodes and reviews belong to anime that have a row: the foreign keys. */
  predicate ChildrenHaveParents(t: Tables) {
    (forall k | k in t.statistics :: k in t.anime) &&
    (forall k | k in t.episodes :: k.0 in t.anime) &&
    (forall k | k in t.reviews :: exists a | a in t.anime :: Read(t.reviews[k], AnimeId) == Number(a))
  }

  /** None of the rows this response would write is there for its anime. */
  predicate Unwritten(t: Tables, doc: RawDoc) {
    (forall k | k in Parse(doc).statistics :: k !in t.statistics) &&
    (forall k | k in Parse(doc).episodes :: k !in t.episodes) &&
    (forall k | k in Parse(doc).reviews && k in t.reviews :: Read(t.reviews[k], AnimeId) != Number(doc.key.malId))
  }

  lemma ParsedReview(doc: RawDoc, k: int)
    requires k in Parse(doc).reviews
    ensures Read(Parse(doc).reviews[k], AnimeId) == Number(doc.key.malId)
  {
    ReviewsNameTheirAnime(doc.payload.items, doc.key.malId, k);
  }

  lemma StartsUnwritten(t: Tables, doc: RawDoc)
    requires ChildrenHaveParents(t) && doc.key.malId !in t.anime
    ensures Unwritten(t, doc)
  {
    forall k | k in Parse(doc).episodes ensures k !in t.episodes {
      ParsedEpisodeKeys(doc, k);
    }
  }

  lemma StaysUnwritten(t: Tables, e: RawDoc, doc: RawDoc)
    requires Unwritten(t, doc) && Compatible(Parse(e), Parse(doc))
    ensures Unwritten(CleanOne(t, e), doc)
  {
  }

  lemma {:induction false} FoldLeavesUnwritten(t: Tables, docs: seq<RawDoc>, doc: RawDoc)
    requires Unwritten(t, doc)
    requires forall i | 0 <= i < |docs| :: Compatible(Parse(docs[i]), Parse(doc))
    ensures Unwritten(Fold(t, docs), doc)
  {
    if docs != [] {
      FoldLeavesUnwritten(t, docs[..|docs| - 1], doc);
      StaysUnwritten(Fold(t, docs[..|docs| - 1]), docs[|docs| - 1], doc);
    }
  }

  lemma SomeKey<K, V>(m: map<K, V>) returns (k: K)
    requires m != map[]
    ensures k in m
  {
    assert m.Keys != {};
    k :| k in m.Keys;
  }

  /** Writing a response that has something to write is visible. */
  lemma WrittenShows(t: Tables, doc: RawDoc)
    requires !IsDetails(doc) && Parse(doc) != NOTHING && Apply(t, Parse(doc)) == t
    ensures !Unwritten(t, doc)
  {
    var d := Parse(doc);
    if doc.key.resource.Reviews? {
      var k := SomeKey(d.reviews);
      assert t.reviews[k] == Stored(Lookup(t.reviews, k), d.reviews[k], OVERWRITE);
      ParsedReview(doc, k);
      ReviewsNameTheirAnime(doc.payload.items, doc.key.malId, k);
    } else if doc.key.resource.Episodes? {
      var k := SomeKey(d.episodes);
      assert k in t.episodes;
    } else {
      var k := SomeKey(d.statistics);
      assert k in t.statistics;
    }
  }

  lemma {:induction false} KeptFrom(docs: seq<RawDoc>, recent: set<Key>)
    ensures forall e | e in Keep(docs, recent) :: e in docs && e.key in recent
    ensures AnimeIn(Keep(docs, recent)) <= AnimeIn(docs)
  {
    if docs != [] {
      KeptFrom(docs[..|docs| - 1], recent);
      var rest, last := Keep(docs[..|docs| - 1], recent), docs[|docs| - 1];
      if last.key in recent {
        assert (rest + [last])[..|rest|] == rest;
      }
    }
  }

  lemma LateRowIsMissed(t: Tables, docs: seq<RawDoc>, recent: set<Key>, n: nat)
    requires Good(docs) && ChildrenHaveParents(t) && n < |docs| && Late(t, docs, recent, docs[n])
    ensures Fold(t, docs) != Fold(t, Keep(docs, recent))
  {
    var doc, kept := docs[n], Keep(docs, recent);
    KeptFrom(docs, recent);
    StartsUnwritten(t, doc);
    forall i | 0 <= i < |kept| ensures Compatible(Parse(kept[i]), Parse(doc)) {
      assert kept[i] in docs && kept[i].key in recent;
      var j :| 0 <= j < |docs| && docs[j] == kept[i];
      PairCompatible(docs, j, n);
    }
    FoldLeavesUnwritten(t, kept, doc);
    var full := Fold(t, docs);
    CleaningIsRepeatable(docs);
    FoldLeftFixes(CleanOne, t, docs);
    assert NoOp(full, doc);
    FoldAnime(t, docs);
    assert doc.key.malId in full.anime;
    assert Given(full, doc) == Parse(doc);
    WrittenShows(full, doc);
  }

  lemma PairCompatible(docs: seq<RawDoc>, i: nat, j: nat)
    requires Good(docs) && i < |docs| && j < |docs| && i != j
    ensures Compatible(Parse(docs[i]), Parse(docs[j]))
  {
    if i < j {
      assert Less(docs[i].key, docs[j].key) && Consistent(docs[i], docs[j]);
    } else {
      assert Less(docs[j].key, docs[i].key) && Consistent(docs[j], docs[i]);
    }
    ParsedCompatible(docs[i], docs[j]);
  }

  /** On a catalogue that reflects the older rows, an incremental run gives the full run's result
      exactly when no older row waits for an anime that only the recent rows bring. */
  lemma IncrementalEqualsFull(t: Tables, docs: seq<RawDoc>, recent: set<Key>)
    requires Good(docs) && OldRowsCleaned(t, docs, recent) && ChildrenHaveParents(t)
    ensures Fold(t, docs) == Fold(t, Keep(docs, recent)) <==> NoneLate(t, docs, recent)
  {
    if NoneLate(t, docs, recent) {
      NoneLateSuffices(t, docs, recent);
    } else {
      var n :| 0 <= n < |docs| && Late(t, docs, recent, docs[n]);
      LateRowIsMissed(t, docs, recent, n);
    }
  }
}
