/** The two counts that do depend on the batch: how a characters row, which no parser reads, is
    counted when its anime arrives in the same batch. */
module CleanSkips {
  import opened Base
  import opened Catalogue
  import opened Parsers
  import opened CleanSpec
  import opened CleanBatch
  import opened CleanCounts

  /** A characters row whose anime has no row yet, but gets one from this batch: the batch calls it
      unsupported, one-by-one cleaning skips it for want of its anime. */
  predicate Early(t: Tables, doc: RawDoc, brought: set<int>) {
    doc.key.resource.Characters? && doc.key.malId !in t.anime && doc.key.malId in brought
  }

  function EarlyRows(t: Tables, docs: seq<RawDoc>, brought: set<int>): nat {
    if docs == [] then 0
    else EarlyRows(t, docs[..|docs| - 1], brought) + if Early(t, docs[|docs| - 1], brought) then 1 else 0
  }

  lemma {:induction false} BroughtBy(docs: seq<RawDoc>, k: int) returns (i: nat)
    requires Good(docs) && k in AnimeIn(docs)
    ensures i < |docs| && docs[i].key == Key(k, Details) && k in Parse(docs[i]).anime
  {
    var n := |docs| - 1;
    BroughtAnime(docs[n]);
    if k in Parse(docs[n]).anime {
      i := n;
    } else {
      PrefixGood(docs, n);
      i := BroughtBy(docs[..n], k);
    }
  }

  lemma {:induction false} Brings(docs: seq<RawDoc>, i: nat, n: nat, k: int)
    requires i < n <= |docs| && k in Parse(docs[i]).anime
    ensures k in AnimeIn(docs[..n])
  {
    assert docs[..n][..n - 1] == docs[..n - 1];
    if i < n - 1 {
      Brings(docs, i, n - 1, k);
    }
  }

  lemma {:induction false} PrefixAnime(docs: seq<RawDoc>, n: nat)
    requires n <= |docs|
    ensures AnimeIn(docs[..n]) <= AnimeIn(docs)
    decreases |docs| - n
  {
    if n == |docs| {
      assert docs[..n] == docs;
    } else {
      assert docs[..n + 1][..n] == docs[..n];
      PrefixAnime(docs, n + 1);
    }
  }

  lemma ArrivedIn(docs: seq<RawDoc>, n: nat, k: int) returns (i: nat)
    requires Good(docs) && n <= |docs| && k in AnimeIn(docs[..n])
    ensures i < n && docs[i].key == Key(k, Details)
  {
    PrefixGood(docs, n);
    i := BroughtBy(docs[..n], k);
  }

  lemma InOrder(docs: seq<RawDoc>, i: nat, j: nat)
    requires Good(docs) && i < |docs| && j < |docs| && i != j
    ensures if i < j then Less(docs[i].key, docs[j].key) else Less(docs[j].key, docs[i].key)
  {
  }

  lemma NotBeforeCharacters(docs: seq<RawDoc>, n: nat)
    requires Good(docs) && n < |docs| && !IsDetails(docs[n]) && docs[n].key.malId in AnimeIn(docs[..n])
    ensures docs[n].key.malId in AnimeIn(docs) && !docs[n].key.resource.Characters?
  {
    PrefixAnime(docs, n);
    var i := ArrivedIn(docs, n, docs[n].key.malId);
    InOrder(docs, i, n);
  }

  lemma DetailsComeFirst(docs: seq<RawDoc>, i: nat, n: nat)
    requires Good(docs) && i < |docs| && n < |docs|
    requires docs[i].key == Key(docs[n].key.malId, Details)
    requires !IsDetails(docs[n]) && !docs[n].key.resource.Characters?
    ensures i < n
  {
    InOrder(docs, i, n);
  }

  lemma BeforeTheOthers(docs: seq<RawDoc>, n: nat, k: int)
    requires Good(docs) && n < |docs| && !IsDetails(docs[n]) && !docs[n].key.resource.Characters?
    requires k == docs[n].key.malId && k in AnimeIn(docs)
    ensures k in AnimeIn(docs[..n])
  {
    var i := BroughtBy(docs, k);
    DetailsComeFirst(docs, i, n);
    Brings(docs, i, n, k);
  }

  /** Details come before the rows that depend on them, and characters before details. */
  lemma ArrivedBefore(docs: seq<RawDoc>, n: nat)
    requires Good(docs) && n < |docs| && !IsDetails(docs[n])
    ensures docs[n].key.malId in AnimeIn(docs[..n])
      <==> docs[n].key.malId in AnimeIn(docs) && !docs[n].key.resource.Characters?
  {
    if docs[n].key.malId in AnimeIn(docs[..n]) {
      NotBeforeCharacters(docs, n);
    } else if docs[n].key.malId in AnimeIn(docs) && !docs[n].key.resource.Characters? {
      BeforeTheOthers(docs, n, docs[n].key.malId);
    }
  }

  predicate OfSkips(key: CountKey) { key.SkippedNoAnime? || key.SkippedUnsupported? }

  lemma NoSkipWrites(key: CountKey, t: Tables, d: Delta)
    requires OfSkips(key)
    ensures NewWriteCount(key, t, d) == 0
  {
  }

  lemma CountOfSkips(key: CountKey, t: Tables, doc: RawDoc, present: set<int>)
    requires OfSkips(key) && present == t.anime.Keys + Parse(doc).anime.Keys
    ensures CountOne(key)(t, doc) == DocCount(key, doc, present)
  {
    CountOneIs(key, t, doc, present);
    NoSkipWrites(key, t, Contribution(doc, present));
  }

  function OneMore(key: CountKey, early: bool): int {
    if !early then 0 else if key.SkippedNoAnime? then 1 else -1
  }

  /** The anime that are there when a response is looked at: `here` alone, `there` in the batch. */
  lemma SkipsOfDoc(key: CountKey, t: Tables, doc: RawDoc, here: set<int>, there: set<int>, brought: set<int>)
    requires OfSkips(key) && there == t.anime.Keys + brought
    requires !IsDetails(doc) ==>
      (doc.key.malId in here <==>
        doc.key.malId in t.anime || (doc.key.malId in brought && !doc.key.resource.Characters?))
    ensures DocCount(key, doc, here) == DocCount(key, doc, there) + OneMore(key, Early(t, doc, brought))
  {
  }

  lemma HereAlone(docs: seq<RawDoc>, n: nat, known: set<int>, here: set<int>)
    requires Good(docs) && n < |docs| && !IsDetails(docs[n])
    requires here == known + AnimeIn(docs[..n]) + Parse(docs[n]).anime.Keys
    ensures docs[n].key.malId in here
      <==> docs[n].key.malId in known || (docs[n].key.malId in AnimeIn(docs) && !docs[n].key.resource.Characters?)
  {
    BroughtAnime(docs[n]);
    ArrivedBefore(docs, n);
  }

  lemma SkipOne(key: CountKey, t: Tables, docs: seq<RawDoc>, n: nat, now: Tables)
    requires Good(docs) && n < |docs| && OfSkips(key) && now == Fold(t, docs[..n])
    ensures CountOne(key)(now, docs[n])
         == DocCount(key, docs[n], Present(t, docs)) + OneMore(key, Early(t, docs[n], AnimeIn(docs)))
  {
    FoldAnime(t, docs[..n]);
    var here := now.anime.Keys + Parse(docs[n]).anime.Keys;
    CountOfSkips(key, now, docs[n], here);
    if !IsDetails(docs[n]) {
      HereAlone(docs, n, t.anime.Keys, here);
    }
    SkipsOfDoc(key, t, docs[n], here, Present(t, docs), AnimeIn(docs));
  }

  function Shift(key: CountKey, early: int): int { if key.SkippedNoAnime? then early else -early }

  lemma LastRows(key: CountKey, t: Tables, docs: seq<RawDoc>, present: set<int>, brought: set<int>)
    requires docs != []
    ensures DocTotal(key, docs, present)
         == DocTotal(key, docs[..|docs| - 1], present) + DocCount(key, docs[|docs| - 1], present)
    ensures Shift(key, EarlyRows(t, docs, brought))
         == Shift(key, EarlyRows(t, docs[..|docs| - 1], brought)) + OneMore(key, Early(t, docs[|docs| - 1], brought))
  {
  }

  lemma SkipsOfNext(key: CountKey, t: Tables, docs: seq<RawDoc>, prefix: seq<RawDoc>, n: nat)
    requires Good(docs) && n < |docs| && OfSkips(key) && prefix == docs[..n + 1]
    requires FoldCount(key, t, docs[..n])
          == DocTotal(key, docs[..n], Present(t, docs)) + Shift(key, EarlyRows(t, docs[..n], AnimeIn(docs)))
    ensures FoldCount(key, t, prefix)
         == DocTotal(key, prefix, Present(t, docs)) + Shift(key, EarlyRows(t, prefix, AnimeIn(docs)))
  {
    assert prefix[..n] == docs[..n] && prefix[n] == docs[n];
    SkipOne(key, t, docs, n, Fold(t, docs[..n]));
    LastCount(key, t, prefix);
    LastRows(key, t, prefix, Present(t, docs), AnimeIn(docs));
  }

  lemma {:induction false} SkipsOfPrefix(key: CountKey, t: Tables, docs: seq<RawDoc>, n: nat)
    requires Good(docs) && n <= |docs| && OfSkips(key)
    ensures FoldCount(key, t, docs[..n])
         == DocTotal(key, docs[..n], Present(t, docs)) + Shift(key, EarlyRows(t, docs[..n], AnimeIn(docs)))
  {
    if n > 0 {
      SkipsOfPrefix(key, t, docs, n - 1);
      SkipsOfNext(key, t, docs, docs[..n], n - 1);
    }
  }

  lemma LastCount(key: CountKey, t: Tables, docs: seq<RawDoc>)
    requires docs != []
    ensures FoldCount(key, t, docs)
         == FoldCount(key, t, docs[..|docs| - 1]) + CountOne(key)(Fold(t, docs[..|docs| - 1]), docs[|docs| - 1])
  {
  }

  lemma {:induction false} NoEarlyRows(t: Tables, docs: seq<RawDoc>, brought: set<int>)
    ensures EarlyRows(t, docs, brought) == 0 <==> forall i | 0 <= i < |docs| :: !Early(t, docs[i], brought)
  {
    if docs != [] {
      var init := docs[..|docs| - 1];
      NoEarlyRows(t, init, brought);
      assert forall i | 0 <= i < |init| :: init[i] == docs[i];
    }
  }

  lemma SkipCount(key: CountKey, t: Tables, docs: seq<RawDoc>, tags: Names, studios: Names)
    requires OfSkips(key)
    ensures BatchCount(key, t, docs, tags, studios) == DocTotal(key, docs, Present(t, docs))
  {
  }

  lemma SkipsOfBatch(key: CountKey, t: Tables, docs: seq<RawDoc>, tags: Names, studios: Names)
    requires Good(docs) && OfSkips(key)
    ensures FoldCount(key, t, docs)
         == BatchCount(key, t, docs, tags, studios) + Shift(key, EarlyRows(t, docs, AnimeIn(docs)))
  {
    assert docs[..|docs|] == docs;
    SkipsOfPrefix(key, t, docs, |docs|);
    SkipCount(key, t, docs, tags, studios);
  }

  /** The batch and the one-by-one counts agree exactly when no characters row meets its anime in
      the batch; their sum always does. */
  lemma SkipCountsDependOnBatch(key: CountKey, t: Tables, docs: seq<RawDoc>, tags: Names, studios: Names)
    requires Good(docs) && OfSkips(key)
    ensures BatchCount(key, t, docs, tags, studios) == FoldCount(key, t, docs)
      <==> forall i | 0 <= i < |docs| :: !Early(t, docs[i], AnimeIn(docs))
    ensures FoldCount(SkippedNoAnime, t, docs) + FoldCount(SkippedUnsupported, t, docs)
      == BatchCount(SkippedNoAnime, t, docs, tags, studios) + BatchCount(SkippedUnsupported, t, docs, tags, studios)
  {
    SkipsOfBatch(SkippedNoAnime, t, docs, tags, studios);
    SkipsOfBatch(SkippedUnsupported, t, docs, tags, studios);
    NoEarlyRows(t, docs, AnimeIn(docs));
  }
}
