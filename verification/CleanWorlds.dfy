/** The whole history of the catalogue: fetches, and clean runs that succeed, fail, are lost or are
    resumed, each writing what it committed. When the watermark is true, so is the catalogue. */
module CleanWorlds {
  import opened Base
  import opened Catalogue
  import opened Parsers
  import opened CleanSpec
  import opened CleanBatch
  import opened CleanHistory
  import opened CleanIncremental
  import opened RawIndex
  import opened RunHistory
  import opened CleanJob
  import opened Watermark

  // --- a run may leave rows for later -------------------------------------------------------------

  /** A row that was read before, and is not among the rows cleaned now, although now its anime comes. */
  predicate Stranded(t: Tables, docs: seq<RawDoc>, read: set<Key>, recent: set<Key>, doc: RawDoc) {
    doc.key in read && Late(t, docs, recent, doc)
  }

  predicate NoneStranded(t: Tables, docs: seq<RawDoc>, read: set<Key>, recent: set<Key>) {
    forall i | 0 <= i < |docs| :: !Stranded(t, docs, read, recent, docs[i])
  }

  /** The catalogue reflects the rows of `keys`. */
  predicate Cleaned(t: Tables, docs: seq<RawDoc>, keys: set<Key>) {
    forall i | 0 <= i < |docs| && docs[i].key in keys :: NoOp(t, docs[i])
  }

  /** The rows cleaned now, up to row `n`. */
  function Done(docs: seq<RawDoc>, recent: set<Key>, n: nat): set<Key>
    requires n <= |docs|
  {
    set i | 0 <= i < n && docs[i].key in recent :: docs[i].key
  }

  lemma NotEnabled(t: Tables, now: Tables, docs: seq<RawDoc>, read: set<Key>, recent: set<Key>, i: nat, n: nat)
    requires Good(docs) && NoneStranded(t, docs, read, recent) && t.anime.Keys <= now.anime.Keys
    requires i < |docs| && n < |docs| && docs[n].key in recent
    requires docs[i].key in read - recent || i < n
    ensures !Enables(now, docs[n], docs[i])
  {
    if i < n {
      EarlierNotEnabled(now, docs, i, n);
    } else {
      KeptAnime(docs, recent, n);
      assert !Stranded(t, docs, read, recent, docs[i]);
    }
  }

  lemma RowStep(t: Tables, now: Tables, docs: seq<RawDoc>, read: set<Key>, recent: set<Key>, i: nat, n: nat)
    requires Good(docs) && NoneStranded(t, docs, read, recent) && t.anime.Keys <= now.anime.Keys
    requires i < |docs| && n < |docs| && docs[n].key in recent && i != n
    requires docs[i].key in read - recent || i < n
    requires NoOp(now, docs[i])
    ensures NoOp(CleanOne(now, docs[n]), docs[i])
  {
    NotEnabled(t, now, docs, read, recent, i, n);
    OtherStaysNoOp(now, docs, i, n);
  }

  lemma RecentRowStep(t: Tables, now: Tables, docs: seq<RawDoc>, read: set<Key>, recent: set<Key>, n: nat)
    requires Good(docs) && NoneStranded(t, docs, read, recent) && t.anime.Keys <= now.anime.Keys
    requires n < |docs| && docs[n].key in recent
    requires Cleaned(now, docs, (read - recent) + Done(docs, recent, n))
    ensures Cleaned(CleanOne(now, docs[n]), docs, (read - recent) + Done(docs, recent, n + 1))
  {
    forall i | 0 <= i < |docs| && docs[i].key in (read - recent) + Done(docs, recent, n + 1)
      ensures NoOp(CleanOne(now, docs[n]), docs[i])
    {
      if i == n {
        CleaningTwice(now, docs[n]);
      } else {
        DoneBefore(docs, recent, i, n);
        RowStep(t, now, docs, read, recent, i, n);
      }
    }
  }

  lemma DoneBefore(docs: seq<RawDoc>, recent: set<Key>, i: nat, n: nat)
    requires Good(docs) && i < |docs| && n < |docs| && i != n
    ensures docs[i].key in Done(docs, recent, n + 1) ==> i < n && docs[i].key in Done(docs, recent, n)
  {
    forall j | 0 <= j < |docs| && j != i ensures docs[j].key != docs[i].key {
      if j < i { assert Less(docs[j].key, docs[i].key); } else { assert Less(docs[i].key, docs[j].key); }
    }
  }

  lemma NotDone(docs: seq<RawDoc>, recent: set<Key>, n: nat)
    requires n < |docs| && docs[n].key !in recent
    ensures Done(docs, recent, n + 1) == Done(docs, recent, n)
  {
  }

  lemma KeptStep(t: Tables, docs: seq<RawDoc>, recent: set<Key>, n: nat, before: Tables, after: Tables)
    requires n < |docs| && before == Fold(t, Keep(docs[..n], recent)) && after == Fold(t, Keep(docs[..n + 1], recent))
    ensures after == if docs[n].key in recent then CleanOne(before, docs[n]) else before
    ensures t.anime.Keys <= before.anime.Keys
  {
    var kept := Keep(docs[..n], recent);
    KeepOneMore(docs[..n + 1], recent, docs[..n], docs[n]);
    FoldAnime(t, kept);
    if docs[n].key in recent { FoldOneMore(t, kept + [docs[n]], kept, docs[n]); }
  }

  lemma RowIsCleaned(t: Tables, docs: seq<RawDoc>, read: set<Key>, recent: set<Key>, n: nat, before: Tables,
                     after: Tables)
    requires Good(docs) && n < |docs| && NoneStranded(t, docs, read, recent) && t.anime.Keys <= before.anime.Keys
    requires Cleaned(before, docs, (read - recent) + Done(docs, recent, n))
    requires after == if docs[n].key in recent then CleanOne(before, docs[n]) else before
    ensures Cleaned(after, docs, (read - recent) + Done(docs, recent, n + 1))
  {
    if docs[n].key in recent {
      RecentRowStep(t, before, docs, read, recent, n);
    } else {
      NotDone(docs, recent, n);
    }
  }

  /** After the first `n` rows those cleaned now are cleaned, and so are those read before. */
  predicate CleanedUpTo(t: Tables, docs: seq<RawDoc>, read: set<Key>, recent: set<Key>, n: nat)
    requires n <= |docs|
  {
    Cleaned(Fold(t, Keep(docs[..n], recent)), docs, (read - recent) + Done(docs, recent, n))
  }

  lemma NothingDone(t: Tables, docs: seq<RawDoc>, read: set<Key>, recent: set<Key>)
    requires Cleaned(t, docs, read - recent)
    ensures CleanedUpTo(t, docs, read, recent, 0)
  {
    assert Fold(t, Keep(docs[..0], recent)) == t && (read - recent) + Done(docs, recent, 0) == read - recent;
  }

  lemma OneMoreCleaned(t: Tables, docs: seq<RawDoc>, read: set<Key>, recent: set<Key>, n: nat)
    requires Good(docs) && n < |docs| && NoneStranded(t, docs, read, recent) && CleanedUpTo(t, docs, read, recent, n)
    ensures CleanedUpTo(t, docs, read, recent, n + 1)
  {
    var before, after := Fold(t, Keep(docs[..n], recent)), Fold(t, Keep(docs[..n + 1], recent));
    KeptStep(t, docs, recent, n, before, after);
    RowIsCleaned(t, docs, read, recent, n, before, after);
  }

  /** Cleaning some rows leaves what was cleaned before cleaned, and those rows too. */
  lemma CleanedAfterRun(t: Tables, docs: seq<RawDoc>, read: set<Key>, recent: set<Key>)
    requires Good(docs) && NoneStranded(t, docs, read, recent) && Cleaned(t, docs, read - recent)
    ensures CleanedUpTo(t, docs, read, recent, |docs|)
  {
    NothingDone(t, docs, read, recent);
    for n := 0 to |docs|
      invariant CleanedUpTo(t, docs, read, recent, n)
    {
      OneMoreCleaned(t, docs, read, recent, n);
    }
  }

  // --- the site: history, objects and catalogue ---------------------------------------------------

  datatype Site = Site(world: World, store: Store, catalogue: Tables)

  datatype Step =
    | Fetched(payloads: map<Key, (Payload, nat)>)
    | RanClean(start: Start, committed: nat, resume: nat, ending: Ending)
    | RanOther(run: Run)

  function EventOf(step: Step): Watermark.Event {
    match step
    case Fetched(payloads) => Fetch(map k | k in payloads :: payloads[k].1)
    case RanClean(start, committed, resume, ending) => Clean(start, committed, resume, ending)
    case RanOther(run) => OtherRun(run)
  }

  /** All rows of the index, as responses in key order. */
  function AllDocs(s: Site): seq<RawDoc> { DocsOf(Ordered(s.world.index.Keys), s.store) }

  /** The rows a clean run commits. */
  function CommittedRows(s: Site, step: Step, at: int): seq<Key>
    requires step.RanClean? && Possible(s.world, EventOf(step), at)
  {
    RowsOf(s.world, step.start, at)[..step.committed]
  }

  /** A fetch stores objects and index rows; a clean run writes what its committed batches write. */
  function SiteAfter(s: Site, step: Step, at: int): Site
    requires Possible(s.world, EventOf(step), at)
  {
    Site(After(s.world, EventOf(step), at),
      if step.Fetched? then s.store + map k | k in step.payloads :: step.payloads[k].0 else s.store,
      if step.RanClean? then Fold(s.catalogue, DocsOf(CommittedRows(s, step, at), s.store)) else s.catalogue)
  }

  /** What a fetch brings is what the next run finds: the new object under the new index row. Other rows
      and objects, the history and the catalogue are as they were. */
  lemma FetchIsSeen(s: Site, payloads: map<Key, (Payload, nat)>, at: int, k: Key)
    requires s.world.now < at
    ensures var after := SiteAfter(s, Fetched(payloads), at);
      after.catalogue == s.catalogue && after.world.runs == s.world.runs &&
      (k in after.world.index <==> k in payloads || k in s.world.index) &&
      (k in payloads ==>
        after.world.index[k] == IndexRow(payloads[k].1, at) && DocOf(k, after.store) == RawDoc(k, payloads[k].0)) &&
      (k in s.world.index && k !in payloads ==>
        after.world.index[k] == s.world.index[k] && DocOf(k, after.store) == DocOf(k, s.store))
  {
  }

  /** The rows whose present version some committed batch has read. */
  function Read(s: Site): set<Key> { set k | k in s.world.index && Visited(s.world, k) }

  /** What every step of the history meets: rows that are good, resumes that nothing disturbed, and no
      row read before whose anime only this run brings. */
  predicate Fine(s: Site, step: Step, at: int) {
    Possible(s.world, EventOf(step), at) && Undisturbed(s.world, EventOf(step), at) &&
    (step.RanClean? ==>
      Good(AllDocs(s)) && NoneStranded(s.catalogue, AllDocs(s), Read(s), SetOf(CommittedRows(s, step, at))))
  }

  /** The catalogue reflects every row that was read. */
  predicate Reflects(s: Site) { Cleaned(s.catalogue, AllDocs(s), Read(s)) }

  // --- the committed rows among all rows ----------------------------------------------------------

  /** A sorted list is its first rows and one last row after them. */
  lemma SortedInit(rows: seq<Key>, init: seq<Key>, last: Key)
    requires SortedKeys(rows) && rows == init + [last]
    ensures SortedKeys(init) && last !in init && forall k :: k in rows <==> k in init || k == last
  {
    assert forall i | 0 <= i < |init| :: rows[i] == init[i];
    assert rows[|init|] == last;
    assert forall i | 0 <= i < |init| :: Less(rows[i], rows[|init|]);
  }

  lemma BeforeTheLast(init: seq<Key>, last: Key, k: Key)
    requires SortedKeys(init + [last])
    ensures k in init ==> Less(k, last)
  {
    assert (init + [last])[|init|] == last;
    assert forall i | 0 <= i < |init| :: (init + [last])[i] == init[i];
  }

  lemma SameLast(all: seq<Key>, allLast: Key, sub: seq<Key>, subLast: Key)
    requires SortedKeys(all + [allLast]) && SortedKeys(sub + [subLast])
    requires subLast in all + [allLast] && allLast in sub + [subLast]
    ensures subLast == allLast
  {
    BeforeTheLast(all, allLast, subLast);
    BeforeTheLast(sub, subLast, allLast);
  }

  lemma DocsOfLast(rows: seq<Key>, store: Store)
    requires rows != []
    ensures DocsOf(rows, store) == DocsOf(rows[..|rows| - 1], store) + [DocOf(rows[|rows| - 1], store)]
  {
  }

  lemma NothingToKeep(sub: seq<Key>)
    requires forall k | k in sub :: false
    ensures sub == []
  {
    if sub != [] { HasElement(sub); }
  }

  /** The responses of some rows are what is kept of the responses of all. */
  lemma {:induction false} KeptAreDocs(all: seq<Key>, sub: seq<Key>, recent: set<Key>, store: Store)
    requires SortedKeys(all) && SortedKeys(sub)
    requires forall k | k in sub :: k in all
    requires forall k | k in all :: k in recent <==> k in sub
    ensures Keep(DocsOf(all, store), recent) == DocsOf(sub, store)
  {
    if all == [] {
      NothingToKeep(sub);
    } else {
      var init, last := all[..|all| - 1], all[|all| - 1];
      SortedInit(all, init, last);
      DocsOfLast(all, store);
      KeepLast(DocsOf(init, store), DocOf(last, store), recent);
      if last in sub {
        var subInit, subLast := sub[..|sub| - 1], sub[|sub| - 1];
        assert sub == subInit + [subLast] && all == init + [last];
        SameLast(init, last, subInit, subLast);
        SortedInit(sub, subInit, subLast);
        KeptAreDocs(init, subInit, recent, store);
        DocsOfLast(sub, store);
      } else {
        KeptAreDocs(init, sub, recent, store);
      }
    }
  }

  lemma KeepLast(docs: seq<RawDoc>, doc: RawDoc, recent: set<Key>)
    ensures Keep(docs + [doc], recent) == Keep(docs, recent) + if doc.key in recent then [doc] else []
  {
    assert (docs + [doc])[..|docs|] == docs;
  }

  lemma CommittedAreKept(s: Site, step: Step, at: int)
    requires step.RanClean? && Possible(s.world, EventOf(step), at)
    ensures var rows := CommittedRows(s, step, at);
      Keep(AllDocs(s), SetOf(rows)) == DocsOf(rows, s.store) && SetOf(rows) <= s.world.index.Keys
  {
    var rows := CommittedRows(s, step, at);
    forall k | k in rows ensures k in s.world.index {
      assert k in RowsOf(s.world, step.start, at);
      RowsMatch(s.world, step.start, at, k);
    }
    KeptAreDocs(Ordered(s.world.index.Keys), rows, SetOf(rows), s.store);
  }

  // --- every step keeps the catalogue true --------------------------------------------------------

  lemma DocAt(s: Site, i: nat)
    requires i < |AllDocs(s)|
    ensures AllDocs(s)[i].key in s.world.index && AllDocs(s)[i] == DocOf(AllDocs(s)[i].key, s.store)
  {
    assert Ordered(s.world.index.Keys)[i] in Ordered(s.world.index.Keys);
  }

  lemma DocOfKey(s: Site, k: Key)
    requires k in s.world.index
    ensures exists i :: 0 <= i < |AllDocs(s)| && AllDocs(s)[i] == DocOf(k, s.store)
  {
    assert k in Ordered(s.world.index.Keys);
    var i :| 0 <= i < |Ordered(s.world.index.Keys)| && Ordered(s.world.index.Keys)[i] == k;
    assert AllDocs(s)[i] == DocOf(k, s.store);
  }

  lemma NotRefetched(s: Site, payloads: map<Key, (Payload, nat)>, at: int, k: Key)
    requires Sound(s.world) && s.world.now < at && k in Read(SiteAfter(s, Fetched(payloads), at))
    ensures k in Read(s) && DocOf(k, SiteAfter(s, Fetched(payloads), at).store) == DocOf(k, s.store)
  {
    assert k !in payloads;
  }

  lemma ReadIsNoOp(s: Site, k: Key)
    requires Reflects(s) && k in Read(s)
    ensures NoOp(s.catalogue, DocOf(k, s.store))
  {
    DocOfKey(s, k);
  }

  lemma ReadStaysNoOp(s: Site, payloads: map<Key, (Payload, nat)>, at: int, doc: RawDoc)
    requires Sound(s.world) && Reflects(s) && s.world.now < at
    requires doc == DocOf(doc.key, SiteAfter(s, Fetched(payloads), at).store)
    requires doc.key in Read(SiteAfter(s, Fetched(payloads), at))
    ensures NoOp(s.catalogue, doc)
  {
    NotRefetched(s, payloads, at, doc.key);
    ReadIsNoOp(s, doc.key);
  }

  lemma FetchReflects(s: Site, payloads: map<Key, (Payload, nat)>, at: int)
    requires Sound(s.world) && Reflects(s) && s.world.now < at
    ensures Reflects(SiteAfter(s, Fetched(payloads), at))
  {
    var s' := SiteAfter(s, Fetched(payloads), at);
    AllNoOps(s', s.catalogue);
    forall k | k in Read(s') ensures NoOp(s.catalogue, DocOf(k, s'.store)) {
      ReadStaysNoOp(s, payloads, at, DocOf(k, s'.store));
    }
  }

  lemma AllNoOps(s: Site, t: Tables)
    ensures (forall k | k in Read(s) :: NoOp(t, DocOf(k, s.store))) ==> Cleaned(t, AllDocs(s), Read(s))
  {
    if forall k | k in Read(s) :: NoOp(t, DocOf(k, s.store)) {
      forall i | 0 <= i < |AllDocs(s)| && AllDocs(s)[i].key in Read(s) ensures NoOp(t, AllDocs(s)[i]) {
        DocAt(s, i);
      }
    }
  }

  lemma OtherReflects(s: Site, run: Run, at: int)
    requires Reflects(s) && Possible(s.world, OtherRun(run), at)
    ensures Reflects(SiteAfter(s, RanOther(run), at))
  {
    assert Read(SiteAfter(s, RanOther(run), at)) == Read(s);
  }

  lemma ReadAfterRun(s: Site, step: Step, at: int)
    requires step.RanClean? && Possible(s.world, EventOf(step), at)
    ensures Read(SiteAfter(s, step, at)) == Read(s) + SetOf(CommittedRows(s, step, at))
  {
    CommittedAreKept(s, step, at);
  }

  lemma FewerCleaned(t: Tables, docs: seq<RawDoc>, keys: set<Key>, fewer: set<Key>)
    requires Cleaned(t, docs, keys) && fewer <= keys
    ensures Cleaned(t, docs, fewer)
  {
  }

  lemma AllAreDone(docs: seq<RawDoc>, recent: set<Key>)
    requires forall k | k in recent :: exists i :: 0 <= i < |docs| && docs[i].key == k
    ensures Done(docs, recent, |docs|) == recent
  {
  }

  lemma IndexedAreDone(s: Site, recent: set<Key>)
    requires recent <= s.world.index.Keys
    ensures Done(AllDocs(s), recent, |AllDocs(s)|) == recent
  {
    forall k | k in recent ensures exists i :: 0 <= i < |AllDocs(s)| && AllDocs(s)[i].key == k {
      DocOfKey(s, k);
    }
    AllAreDone(AllDocs(s), recent);
  }

  /** The catalogue after cleaning some of the rows reflects them and all that was read before. */
  lemma CleaningReflects(s: Site, recent: set<Key>)
    requires Reflects(s) && Good(AllDocs(s)) && NoneStranded(s.catalogue, AllDocs(s), Read(s), recent)
    requires recent <= s.world.index.Keys
    ensures Cleaned(Fold(s.catalogue, Keep(AllDocs(s), recent)), AllDocs(s), Read(s) + recent)
  {
    var docs, read := AllDocs(s), Read(s);
    FewerCleaned(s.catalogue, docs, read, read - recent);
    CleanedAfterRun(s.catalogue, docs, read, recent);
    assert docs[..|docs|] == docs;
    IndexedAreDone(s, recent);
    assert (read - recent) + recent == read + recent;
  }

  lemma RunReflects(s: Site, step: Step, at: int)
    requires Reflects(s) && step.RanClean? && Fine(s, step, at)
    ensures Reflects(SiteAfter(s, step, at))
  {
    CommittedAreKept(s, step, at);
    ReadAfterRun(s, step, at);
    CleaningReflects(s, SetOf(CommittedRows(s, step, at)));
  }

  lemma StepReflects(s: Site, step: Step, at: int)
    requires Sound(s.world) && Reflects(s) && Fine(s, step, at)
    ensures Sound(SiteAfter(s, step, at).world) && Reflects(SiteAfter(s, step, at))
  {
    StepStaysSound(s.world, EventOf(step), at);
    match step
    case Fetched(payloads) => FetchReflects(s, payloads, at);
    case RanClean(_, _, _, _) => RunReflects(s, step, at);
    case RanOther(run) => OtherReflects(s, run, at);
  }

  // --- what a succeeded run leaves ----------------------------------------------------------------

  lemma ReadBefore(s: Site, step: Step, at: int, k: Key)
    requires Sound(s.world) && step.RanClean? && step.ending.Succeeds? && Possible(s.world, EventOf(step), at)
    requires Undisturbed(s.world, EventOf(step), at) && k in s.world.index
    ensures k in Read(s) || k in RowsOf(s.world, step.start, at)
  {
    SuccessReadsAll(s.world, step.start, at, k);
  }

  lemma EitherWay(keys: set<Key>, read: set<Key>, rows: seq<Key>)
    requires read <= keys && SetOf(rows) <= keys
    requires forall k | k in keys :: k in read || k in rows
    ensures keys == read + SetOf(rows)
  {
  }

  lemma OthersWereRead(s: Site, step: Step, at: int)
    requires Sound(s.world) && step.RanClean? && step.ending.Succeeds?
    requires Possible(s.world, EventOf(step), at) && Undisturbed(s.world, EventOf(step), at)
    ensures s.world.index.Keys == Read(s) + SetOf(CommittedRows(s, step, at))
  {
    var rows := RowsOf(s.world, step.start, at);
    assert rows[..|rows|] == rows;
    CommittedAreKept(s, step, at);
    forall k | k in s.world.index.Keys ensures k in Read(s) || k in rows {
      ReadBefore(s, step, at, k);
    }
    EitherWay(s.world.index.Keys, Read(s), rows);
  }

  /** The run writes only its own rows, and yet leaves the catalogue that cleaning every row would. */
  lemma SuccessIsFullPass(s: Site, step: Step, at: int)
    requires Sound(s.world) && Reflects(s) && step.RanClean? && step.ending.Succeeds? && Fine(s, step, at)
    ensures SiteAfter(s, step, at).catalogue == Fold(s.catalogue, AllDocs(s))
    ensures AllDocs(SiteAfter(s, step, at)) == AllDocs(s)
    ensures Cleaned(SiteAfter(s, step, at).catalogue, AllDocs(s), s.world.index.Keys)
  {
    var recent := SetOf(CommittedRows(s, step, at));
    CommittedAreKept(s, step, at);
    OthersWereRead(s, step, at);
    CleaningReflects(s, recent);
    RestIsNoOp(s, recent);
  }

  lemma RestIsNoOp(s: Site, recent: set<Key>)
    requires Reflects(s) && Good(AllDocs(s)) && s.world.index.Keys == Read(s) + recent
    requires NoneStranded(s.catalogue, AllDocs(s), Read(s), recent)
    ensures Fold(s.catalogue, Keep(AllDocs(s), recent)) == Fold(s.catalogue, AllDocs(s))
  {
    OldAndNotLate(s, recent);
    NoneLateSuffices(s.catalogue, AllDocs(s), recent);
  }

  lemma OldAndNotLate(s: Site, recent: set<Key>)
    requires Reflects(s) && s.world.index.Keys == Read(s) + recent
    requires NoneStranded(s.catalogue, AllDocs(s), Read(s), recent)
    ensures OldRowsCleaned(s.catalogue, AllDocs(s), recent) && NoneLate(s.catalogue, AllDocs(s), recent)
  {
    forall i | 0 <= i < |AllDocs(s)| && AllDocs(s)[i].key !in recent ensures AllDocs(s)[i].key in Read(s) {
      DocAt(s, i);
    }
    forall i | 0 <= i < |AllDocs(s)| ensures !Late(s.catalogue, AllDocs(s), recent, AllDocs(s)[i]) {
      assert !Stranded(s.catalogue, AllDocs(s), Read(s), recent, AllDocs(s)[i]);
    }
  }

  // --- whole histories ----------------------------------------------------------------------------

  datatype Dated = Dated(step: Step, at: int)

  /** The site after a history of fine steps; None if one of them is not. */
  function SiteHistory(s: Site, steps: seq<Dated>): Option<Site> {
    if steps == [] then Some(s)
    else
      var last := steps[|steps| - 1];
      match SiteHistory(s, steps[..|steps| - 1])
      case Some(before) =>
        if Fine(before, last.step, last.at) then Some(SiteAfter(before, last.step, last.at)) else None
      case None => None
  }

  lemma {:induction false} CatalogueStaysTrue(s: Site, steps: seq<Dated>)
    requires Begins(s.world) && SiteHistory(s, steps).Some?
    ensures Sound(SiteHistory(s, steps).value.world) && Reflects(SiteHistory(s, steps).value)
  {
    if steps == [] {
      assert Read(s) == {};
    } else {
      var init, last := steps[..|steps| - 1], steps[|steps| - 1];
      CatalogueStaysTrue(s, init);
      StepReflects(SiteHistory(s, init).value, last.step, last.at);
    }
  }

  /** After any history of fetches and of fresh, resumed, failed, lost and succeeded runs, full or
      incremental, a run that succeeds leaves what cleaning every row there is would leave, and no
      row has anything more to write. */
  lemma SucceededRunLeavesFullPass(s: Site, steps: seq<Dated>)
    requires Begins(s.world) && steps != [] && SiteHistory(s, steps).Some?
    requires steps[|steps| - 1].step.RanClean? && steps[|steps| - 1].step.ending.Succeeds?
    ensures var before, after := SiteHistory(s, steps[..|steps| - 1]), SiteHistory(s, steps).value;
      before.Some? && after.catalogue == Fold(before.value.catalogue, AllDocs(before.value)) &&
      AllDocs(after) == AllDocs(before.value) && Cleaned(after.catalogue, AllDocs(after), after.world.index.Keys)
  {
    var init, last := steps[..|steps| - 1], steps[|steps| - 1];
    CatalogueStaysTrue(s, init);
    SuccessIsFullPass(SiteHistory(s, init).value, last.step, last.at);
  }

  // --- the steps are the job's runs ---------------------------------------------------------------

  function StepOf(start: Start, a: Attempt, finished: bool, recorded: bool): Step
    requires a.start <= a.committed && (recorded && !finished ==> a.start <= a.resume)
  {
    RanClean(start, a.committed - a.start, if recorded && !finished then a.resume - a.start else 0,
      if !recorded then IsLost else if finished then Succeeds else Fails)
  }

  lemma SameCursor(rows: seq<Key>, from: Option<Key>, at: nat)
    requires SortedKeys(rows) && Position(rows, from) <= at <= |rows|
    ensures CursorAfter(rows[Position(rows, from)..], at - Position(rows, from), from) == CursorAt(rows, at, from)
  {
  }

  lemma RowsFromCursor(w: World, start: Start, at: int, rows: seq<Key>, p: nat)
    requires rows == Pending(w.index, CutOff(w, start), None) && p == Position(rows, StartCursor(w, start, at))
    ensures RowsOf(w, start, at) == rows[p..]
  {
    var keys := Matching(w.index, CutOff(w, start));
    assert Beyond(keys, None) == keys;
    BeyondIsSuffix(keys, StartCursor(w, start, at));
  }

  /** The row the run leaves in the history is that of the step. */
  lemma SameRow(w: World, start: Start, at: int, rows: seq<Key>, from: Option<Key>, a: Attempt, finished: bool,
                recorded: bool)
    requires SortedKeys(rows) && from == StartCursor(w, start, at) && a.start == Position(rows, from)
    requires RowsOf(w, start, at) == rows[a.start..] && a.start <= a.committed && a.resume <= |rows|
    requires recorded && !finished ==> a.start <= a.resume
    ensures var step := StepOf(start, a, finished, recorded);
      step.resume <= |rows| - a.start &&
      CleanRunRow(at, CutOff(w, start), CursorAt(rows, a.resume, from), finished, recorded)
        == RunOf(w, start, step.resume, step.ending, at)
  {
    var step, read := StepOf(start, a, finished, recorded), rows[a.start..];
    if recorded && !finished {
      SameCursor(rows, from, a.resume);
      RunOfIs(w, start, step.resume, step.ending, at, read, CursorAt(rows, a.resume, from));
    } else {
      RunOfIs(w, start, step.resume, step.ending, at, read, CursorAfter(read, 0, from));
      CursorIsIdle(at, CutOff(w, start), CursorAt(rows, a.resume, from), CursorAfter(read, 0, from), finished,
        recorded);
    }
  }

  lemma RunOfIs(w: World, start: Start, resume: nat, ending: Ending, at: int, read: seq<Key>, cursor: Option<Key>)
    requires read == RowsOf(w, start, at) && resume <= |read|
    requires cursor == CursorAfter(read, resume, StartCursor(w, start, at))
    ensures RunOf(w, start, resume, ending, at)
         == CleanRunRow(at, CutOff(w, start), cursor, ending.Succeeds?, !ending.IsLost?)
  {
  }

  lemma CursorIsIdle(at: int, cut: Option<int>, a: Option<Key>, b: Option<Key>, finished: bool, recorded: bool)
    requires !recorded || finished
    ensures CleanRunRow(at, cut, a, finished, recorded) == CleanRunRow(at, cut, b, finished, recorded)
  {
  }

  lemma SliceOfDocs(rows: seq<Key>, docs: seq<RawDoc>, read: seq<Key>, store: Store, p: nat, q: nat, n: nat)
    requires p <= q <= |rows| && n == q - p && docs == DocsOf(rows, store) && read == rows[p..]
    ensures docs[p..q] == DocsOf(read[..n], store)
  {
  }

  lemma StepIsPossible(w: World, start: Start, at: int, rows: seq<Key>, a: Attempt, finished: bool, recorded: bool)
    requires a.start <= a.committed <= |rows| && a.resume <= a.committed && (finished ==> a.committed == |rows|)
    requires w.now < at && RowsOf(w, start, at) == rows[a.start..]
    requires recorded && !finished ==> a.start <= a.resume
    ensures Possible(w, EventOf(StepOf(start, a, finished, recorded)), at)
  {
  }

  lemma StepRecords(s: Site, step: Step, at: int, run: Run)
    requires step.RanClean? && Possible(s.world, EventOf(step), at)
    requires run == RunOf(s.world, step.start, step.resume, step.ending, at)
    ensures SiteAfter(s, step, at).world.runs == s.world.runs + [run]
  {
  }

  lemma StepWrites(s: Site, step: Step, at: int, read: seq<Key>, docs: seq<RawDoc>)
    requires step.RanClean? && Possible(s.world, EventOf(step), at) && read == RowsOf(s.world, step.start, at)
    requires docs == DocsOf(read[..step.committed], s.store)
    ensures SiteAfter(s, step, at).catalogue == Fold(s.catalogue, docs)
  {
  }

  /** What FullCleanLoop records, whatever fails, is what one step of such a history records... */
  lemma RunIsAStep(s: Site, start: Start, at: int, rows: seq<Key>, a: Attempt, batchSize: nat, finished: bool,
                   recorded: bool, runs: seq<Run>)
    requires s.world.now < at && rows == Pending(s.world.index, CutOff(s.world, start), None)
    requires a.start == Position(rows, StartCursor(s.world, start, at))
    requires a.start <= a.committed <= |rows| && a.resume <= a.committed && (finished ==> a.committed == |rows|)
    requires Recorded(s.world.runs, runs, at, CutOff(s.world, start), rows, StartCursor(s.world, start, at), a,
      batchSize, finished, recorded)
    ensures var step := StepOf(start, a, finished, recorded);
      Possible(s.world, EventOf(step), at) && SiteAfter(s, step, at).world.runs == runs
  {
    var from := StartCursor(s.world, start, at);
    RowsFromCursor(s.world, start, at, rows, a.start);
    StepIsPossible(s.world, start, at, rows, a, finished, recorded);
    SameRow(s.world, start, at, rows, from, a, finished, recorded);
    StepRecords(s, StepOf(start, a, finished, recorded), at,
      CleanRunRow(at, CutOff(s.world, start), CursorAt(rows, a.resume, from), finished, recorded));
  }

  /** ...and what it writes is what that step writes. */
  lemma RunWritesAStep(s: Site, start: Start, at: int, rows: seq<Key>, docs: seq<RawDoc>, a: Attempt, finished: bool,
                       recorded: bool)
    requires s.world.now < at && rows == Pending(s.world.index, CutOff(s.world, start), None)
    requires docs == DocsOf(rows, s.store) && a.start == Position(rows, StartCursor(s.world, start, at))
    requires a.start <= a.committed <= |rows| && a.resume <= a.committed && (finished ==> a.committed == |rows|)
    requires recorded && !finished ==> a.start <= a.resume
    ensures var step := StepOf(start, a, finished, recorded);
      Possible(s.world, EventOf(step), at) &&
      SiteAfter(s, step, at).catalogue == Fold(s.catalogue, docs[a.start..a.committed])
  {
    RowsFromCursor(s.world, start, at, rows, a.start);
    StepIsPossible(s.world, start, at, rows, a, finished, recorded);
    var step, read := StepOf(start, a, finished, recorded), rows[a.start..];
    SliceOfDocs(rows, docs, read, s.store, a.start, a.committed, step.committed);
    StepWrites(s, step, at, read, docs[a.start..a.committed]);
  }
}
