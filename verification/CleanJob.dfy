/** The clean job: CleanAnimeJob of app/ingestion/jobs/clean_raw_job.py, its batches and its runs. */
module CleanJob {
  import opened Base
  import opened Catalogue
  import opened Parsers
  import opened CleanSpec
  import opened CleanBatch
  import opened CleanCounts
  import opened CleanHistory
  import opened RawIndex
  import opened RunHistory
  import opened DetailsOfBatch
  import opened OthersOfBatch
  import opened RowsOfBatch

  /** What may go wrong with a batch. An unanswered commit took effect, but the job sees an error. */
  datatype Fault = NoFault | ReadFails | WriteFails | CommitRefused | CommitUnanswered

  datatype BatchResult = NothingLeft | Next(after: Key, counts: Counts) | Raised

  type Store = map<Key, Payload>

  /** The responses the index rows point at. A missing object stops the run before it matters. */
  function DocsOf(rows: seq<Key>, store: Store): (docs: seq<RawDoc>)
    ensures |docs| == |rows| && forall i | 0 <= i < |rows| :: docs[i].key == rows[i]
  {
    seq(|rows|, i requires 0 <= i < |rows| => DocOf(rows[i], store))
  }

  function DocOf(k: Key, store: Store): RawDoc { RawDoc(k, if k in store then store[k] else Unusable) }

  /** Responses and whether they are good. The contracts of the job say `known.good ==>` where they mean
      `Good(docs) ==>`: a caller passes Assessed(docs, Good(docs)), and the type carries the fact from
      method to method, so that it is established once. */
  datatype Assessed = Assessed(docs: seq<RawDoc>, good: bool)

  type KnownDocs = a: Assessed | a.good ==> Good(a.docs) witness Assessed([], false)

  /** What happens to a batch; nothing goes wrong after the faults that are given. */
  function FaultAt(faults: seq<Fault>, batch: nat): (fault: Fault)
    ensures fault == NoFault || (batch < |faults| && fault == faults[batch])
    ensures batch < |faults| ==> fault == faults[batch]
  {
    if batch < |faults| then faults[batch] else NoFault
  }

  function ZeroCounts(): Counts {
    map key | key in COUNT_KEYS :: 0
  }

  function AddCounts(totals: Counts, counts: Counts): Counts {
    map key | key in totals :: totals[key] + if key in counts then counts[key] else 0
  }

  lemma SubrangeIsGood(docs: seq<RawDoc>, p: nat, q: nat)
    requires Good(docs) && p <= q <= |docs|
    ensures Good(docs[p..q])
  {
  }

  lemma DocsOfSlice(rows: seq<Key>, store: Store, p: nat, limit: nat)
    requires p <= |rows|
    ensures DocsOf(Slice(rows, p, limit), store) == DocsOf(rows, store)[p..p + |Slice(rows, p, limit)|]
  {
  }

  lemma LastOfSlice(docs: seq<RawDoc>, p: nat, q: nat)
    requires p <= q <= |docs|
    ensures docs[p..q] != [] ==> p < q && docs[p..q][|docs[p..q]| - 1] == docs[q - 1]
  {
  }

  /** A committed batch continues the fold over the run's rows. */
  lemma FoldOn(t: Tables, docs: seq<RawDoc>, s: nat, p: nat, q: nat)
    requires s <= p <= q <= |docs|
    ensures Fold(t, docs[s..q]) == Fold(Fold(t, docs[s..p]), docs[p..q])
  {
    assert docs[s..q] == docs[s..p] + docs[p..q];
    FoldConcat(t, docs[s..p], docs[p..q]);
  }

  lemma CountOn(key: CountKey, t: Tables, docs: seq<RawDoc>, s: nat, p: nat, q: nat)
    requires s <= p <= q <= |docs|
    ensures FoldCount(key, t, docs[s..q])
         == FoldCount(key, t, docs[s..p]) + FoldCount(key, Fold(t, docs[s..p]), docs[p..q])
  {
    assert docs[s..q] == docs[s..p] + docs[p..q];
    FoldCountConcat(key, t, docs[s..p], docs[p..q]);
  }

  lemma NoSuchRow(key: CountKey, docs: seq<RawDoc>, s: nat, p: nat, q: nat)
    requires s <= p <= q <= |docs| && !DependsOnBatch(key, docs[s..])
    ensures !DependsOnBatch(key, docs[p..q])
  {
  }

  /** The counts of a batch are those of cleaning its rows one by one, but for the two that may
      depend on the batch when it has characters rows. */
  ghost predicate CountsFold(counts: Counts, t: Tables, docs: seq<RawDoc>) {
    forall key: CountKey | !DependsOnBatch(key, docs) :: key in counts && counts[key] == FoldCount(key, t, docs)
  }

  lemma BatchCountsFold(counts: Counts, t: Tables, docs: seq<RawDoc>, tags: Names, studios: Names)
    requires Good(docs) && Trusted(t, tags, studios)
    requires forall key: CountKey :: CountsRight(key, counts, t, docs, tags, studios)
    ensures CountsFold(counts, t, docs)
  {
    forall key: CountKey | !DependsOnBatch(key, docs) ensures key in counts && counts[key] == FoldCount(key, t, docs) {
      BatchCountIsSum(key, t, docs);
      assert CountsRight(key, counts, t, docs, tags, studios);
    }
  }

  /** The totals so far are the counts of cleaning rows `s` to `p` one by one. */
  ghost predicate TotalsRight(totals: Counts, t: Tables, docs: seq<RawDoc>, s: nat, p: nat)
    requires s <= p <= |docs|
  {
    forall key: CountKey | !DependsOnBatch(key, docs[s..]) ::
      key in totals && totals[key] == FoldCount(key, t, docs[s..p])
  }

  lemma TotalsOn(totals: Counts, counts: Counts, t: Tables, docs: seq<RawDoc>, s: nat, p: nat, q: nat)
    requires s <= p <= q <= |docs| && TotalsRight(totals, t, docs, s, p)
    requires CountsFold(counts, Fold(t, docs[s..p]), docs[p..q])
    ensures TotalsRight(AddCounts(totals, counts), t, docs, s, q)
  {
    forall key: CountKey | !DependsOnBatch(key, docs[s..])
      ensures key in AddCounts(totals, counts) && AddCounts(totals, counts)[key] == FoldCount(key, t, docs[s..q])
    {
      NoSuchRow(key, docs, s, p, q);
      CountOn(key, t, docs, s, p, q);
    }
  }

  lemma TotalsStart(t: Tables, docs: seq<RawDoc>, s: nat)
    requires s <= |docs|
    ensures t == Fold(t, docs[s..s]) && TotalsRight(ZeroCounts(), t, docs, s, s)
  {
    assert docs[s..s] == [];
    forall key: CountKey ensures key in ZeroCounts() {
      EveryKey(key);
    }
  }

  lemma BatchCommitted(totals: Counts, counts: Counts, t: Tables, docs: seq<RawDoc>, s: nat, p: nat, q: nat)
    requires s <= p <= q <= |docs| && TotalsRight(totals, t, docs, s, p)
    requires CountsFold(counts, Fold(t, docs[s..p]), docs[p..q])
    ensures Fold(t, docs[s..q]) == Fold(Fold(t, docs[s..p]), docs[p..q])
    ensures TotalsRight(AddCounts(totals, counts), t, docs, s, q)
  {
    FoldOn(t, docs, s, p, q);
    TotalsOn(totals, counts, t, docs, s, p, q);
  }

  /** The run's row in the history. Its cursor stands after row `a.resume`, where a later run can go on:
      at most one batch behind what was committed. */
  predicate Recorded(before: seq<Run>, after: seq<Run>, now: int, cut: Option<int>, rows: seq<Key>, from: Option<Key>,
                     a: Attempt, batchSize: nat, finished: bool, recorded: bool) {
    a.resume <= |rows| &&
    after == before + [CleanRunRow(now, cut, CursorAt(rows, a.resume, from), finished, recorded)] &&
    if recorded && !finished then a.start <= a.resume && a.committed <= a.resume + batchSize else a.resume == 0
  }

  lemma RecordedAt(before: seq<Run>, after: seq<Run>, now: int, cut: Option<int>, rows: seq<Key>, from: Option<Key>,
                   a: Attempt, p: nat, batchSize: nat, finished: bool, recorded: bool)
    requires a.start <= p <= |rows| && a.committed <= p + batchSize
    requires a.resume == if recorded && !finished then p else 0
    requires after == before + [CleanRunRow(now, cut, CursorAt(rows, p, from), finished, recorded)]
    ensures Recorded(before, after, now, cut, rows, from, a, batchSize, finished, recorded)
  {
  }

  /** The rows of a run, their responses, and the row it starts at. */
  ghost predicate AreTheRows(index: Index, store: Store, cut: Option<int>, after: Option<Key>, rows: seq<Key>,
                             docs: seq<RawDoc>, start: nat) {
    rows == Pending(index, cut, None) && docs == DocsOf(rows, store) && start == Position(rows, after)
  }

  /** The rows a run has to clean: all of them in a full pass, else those fetched at or after the given
      time, else those fetched at or after the start of the newest clean run that succeeded. */
  ghost predicate IsDue(index: Index, runs: seq<Run>, since: Option<int>, fullPass: bool, k: Key) {
    k in index &&
    (fullPass ||
     match since
     case Some(time) => time <= index[k].fetchedAt
     case None => forall i: nat :: Newest(runs, SucceededOf(Cleaning), i) ==> runs[i].startedAt <= index[k].fetchedAt)
  }

  /** The rows a run has to clean, in key order, with their responses. */
  ghost predicate AreDue(index: Index, store: Store, runs: seq<Run>, since: Option<int>, fullPass: bool, rows: seq<Key>,
                         docs: seq<RawDoc>) {
    SortedKeys(rows) && docs == DocsOf(rows, store) &&
    forall k :: k in rows <==> IsDue(index, runs, since, fullPass, k)
  }

  lemma DueIsAfterCutOff(index: Index, runs: seq<Run>, since: Option<int>, fullPass: bool, cut: Option<int>, k: Key)
    requires IsCutOff(runs, since, fullPass, cut)
    ensures IsDue(index, runs, since, fullPass, k) <==> k in Matching(index, cut)
  {
    if !fullPass && since.None? {
      match cut
      case None =>
        assert forall i: nat :: !Newest(runs, SucceededOf(Cleaning), i);
      case Some(start) =>
        var i: nat :| Newest(runs, SucceededOf(Cleaning), i) && runs[i].startedAt == start;
        forall j: nat | Newest(runs, SucceededOf(Cleaning), j) ensures j == i {
          OneNewest(runs, SucceededOf(Cleaning), i, j);
        }
    }
  }

  /** They are the rows the job pages through. */
  lemma DueRowsArePaged(index: Index, store: Store, runs: seq<Run>, since: Option<int>, fullPass: bool,
                        cut: Option<int>, after: Option<Key>, rows: seq<Key>, docs: seq<RawDoc>)
    requires IsCutOff(runs, since, fullPass, cut) && AreDue(index, store, runs, since, fullPass, rows, docs)
    ensures AreTheRows(index, store, cut, after, rows, docs, Position(rows, after))
  {
    forall k ensures k in rows <==> k in Pending(index, cut, None) {
      DueIsAfterCutOff(index, runs, since, fullPass, cut, k);
      assert k in Pending(index, cut, None) <==> k in Beyond(Matching(index, cut), None);
    }
    SortedUnique(rows, Pending(index, cut, None));
  }

  /** All rows of the index, in key order, with their responses. */
  ghost predicate AreAllRows(index: Index, store: Store, rows: seq<Key>, docs: seq<RawDoc>) {
    SortedKeys(rows) && (forall k :: k in rows <==> k in index) && docs == DocsOf(rows, store)
  }

  /** The last of the runs committed every row. */
  predicate ReachedTheEnd(h: seq<Attempt>, size: nat) { h != [] && h[|h| - 1].committed == size }

  lemma AllAreDue(index: Index, store: Store, runs: seq<Run>, rows: seq<Key>, docs: seq<RawDoc>)
    requires AreAllRows(index, store, rows, docs)
    ensures AreDue(index, store, runs, None, true, rows, docs)
  {
  }

  /** The responses of the rows are the stored objects, in the order of the rows. */
  lemma ResponsesAreStored(rows: seq<Key>, store: Store, docs: seq<RawDoc>)
    requires docs == DocsOf(rows, store)
    ensures |docs| == |rows|
    ensures forall i | 0 <= i < |rows| ::
      docs[i].key == rows[i] && (rows[i] in store ==> docs[i].payload == store[rows[i]])
  {
  }

  lemma SliceEnds(rows: seq<Key>, p: nat, limit: nat)
    requires limit > 0 && p <= |rows|
    ensures p + |Slice(rows, p, limit)| <= |rows| && |Slice(rows, p, limit)| <= limit
    ensures |Slice(rows, p, limit)| == 0 <==> p == |rows|
  {
  }

  lemma CursorIsLast(rows: seq<Key>, store: Store, q: nat, after: Option<Key>, docs: seq<RawDoc>)
    requires Position(rows, after) < q <= |rows| && docs == DocsOf(rows, store)
    ensures CursorAt(rows, q, after) == Some(docs[q - 1].key)
  {
  }

  /** The batch that is read from row `p` on, and the cursor after it. */
  lemma PageIs(index: Index, store: Store, since: Option<int>, rows: seq<Key>, docs: seq<RawDoc>, after: Option<Key>,
               start: nat, p: nat, batchSize: nat) returns (q: nat)
    requires batchSize > 0 && AreTheRows(index, store, since, after, rows, docs, start) && start <= p <= |rows|
    ensures p <= q <= |rows| == |docs| && q <= p + batchSize && (q == p <==> p == |rows|)
    ensures DocsOf(GetBatch(index, since, CursorAt(rows, p, after), batchSize), store) == docs[p..q]
    ensures q > p ==> CursorAt(rows, q, after) == Some(docs[q - 1].key)
  {
    SliceEnds(rows, p, batchSize);
    q := p + |Slice(rows, p, batchSize)|;
    BatchIsSlice(index, since, rows, after, p, batchSize);
    DocsOfSlice(rows, store, p, batchSize);
    if q > p { CursorIsLast(rows, store, q, after, docs); }
  }

  /** How one run of a restarted pass goes. */
  datatype Plan = Plan(batchSize: nat, faults: seq<Fault>, recorded: bool)

  /** The next full pass starts at the row the last one recorded, or at the first. */
  lemma RestartedFrom(before: seq<Run>, after: seq<Run>, now: int, rows: seq<Key>, from: Option<Key>, a: Attempt,
                      batchSize: nat, finished: bool, recorded: bool, discovery: Job)
    requires SortedKeys(rows) && a.start == Position(rows, from)
    requires Recorded(before, after, now, None, rows, from, a, batchSize, finished, recorded)
    ensures Position(rows, SavedPositions(after, discovery).1) == a.resume
  {
    if recorded && !finished { CursorIsAt(rows, a.resume, from); }
  }

  lemma OneMoreAttempt(t: Tables, docs: seq<RawDoc>, h: seq<Attempt>, a: Attempt)
    requires History(docs, h) && Plausible(docs, a) && a.start <= ResumeRow(h)
    ensures History(docs, h + [a]) && ResumeRow(h + [a]) == a.resume
    ensures AfterAttempts(t, docs, h + [a]) == Fold(AfterAttempts(t, docs, h), docs[a.start..a.committed])
  {
  }

  lemma OutcomeOfRestarts(t0: Tables, docs: seq<RawDoc>, h: seq<Attempt>, t: Tables, finished: bool)
    requires Good(docs) && History(docs, h) && t == AfterAttempts(t0, docs, h)
    requires finished ==> ReachedTheEnd(h, |docs|)
    ensures Reached(h) <= |docs| && t == Fold(t0, docs[..Reached(h)])
    ensures finished ==> t == Fold(t0, docs)
  {
    AttemptsEqualOneRun(t0, docs, h);
    if finished { ResumedRunsEqualOneRun(t0, docs, h); }
  }

  class CleanAnimeJob {
    /** The committed catalogue, and the index and objects the job reads. */
    var db: Tables
    var index: Index
    var store: Store
    /** Names known to be in the catalogue, and the run's totals so far. */
    var tags: Names
    var studios: Names
    var totals: Counts
    const metrics: MetricsRepository

    constructor (db: Tables, index: Index, store: Store, metrics: MetricsRepository)
      ensures this.db == db && this.index == index && this.store == store && this.metrics == metrics
    {
      this.db, this.index, this.store, this.metrics := db, index, store, metrics;
      tags, studios, totals := map[], map[], map[];
    }

    /** The rows of the next batch. */
    function BatchRows(after: Option<Key>, since: Option<int>, batchSize: nat): seq<Key>
      reads this
    {
      GetBatch(index, since, after, batchSize)
    }

    /** Write the batch and commit it, or roll it back. The caches learn only what was committed. */
    method WriteAndCommit(docs: seq<RawDoc>, fault: Fault, ghost known: KnownDocs) returns (ok: bool, counts: Counts)
      requires known.docs == docs && Trusted(db, tags, studios)
      modifies this`db, this`tags, this`studios
      ensures if ok then Trusted(db, tags, studios) else tags == old(tags) && studios == old(studios)
      ensures !ok && !fault.CommitUnanswered? ==> db == old(db)
      ensures known.good ==>
        (ok <==> !fault.WriteFails? && !fault.CommitRefused? && !fault.CommitUnanswered?) &&
        (!ok ==> db == old(db) || db == Fold(old(db), docs)) &&
        (ok ==> db == Fold(old(db), docs) && CountsFold(counts, old(db), docs))
    {
      var written := WriteRows(db, docs, tags, studios);
      if written.BatchRefused? || fault.WriteFails? || fault.CommitRefused? {
        return false, map[];
      }
      if known.good {
        BatchCountsFold(written.counts, db, docs, tags, studios);
      }
      db := written.tables;
      if fault.CommitUnanswered? {
        return false, map[];
      }
      tags := tags + written.newTags;
      studios := studios + written.newStudios;
      return true, written.counts;
    }

    /** Whatever fails before the commit, neither catalogue nor caches change; only a commit whose
        answer was lost has changed the catalogue alone. After a batch the caches are true again. */
    method CleanAnime(after: Option<Key>, since: Option<int>, batchSize: nat, fault: Fault, ghost known: KnownDocs)
      returns (r: BatchResult)
      requires known.docs == DocsOf(BatchRows(after, since, batchSize), store) && Trusted(db, tags, studios)
      modifies this`db, this`tags, this`studios
      ensures var docs := known.docs;
        (r.NothingLeft? <==> docs == [] && !fault.ReadFails?) &&
        (r.NothingLeft? || (r.Raised? && !fault.CommitUnanswered?) ==> db == old(db)) &&
        (!r.Next? ==> tags == old(tags) && studios == old(studios)) &&
        (r.Next? ==> docs != [] && r.after == docs[|docs| - 1].key && Trusted(db, tags, studios)) &&
        (docs != [] && known.good ==>
          (r.Next? <==> fault == NoFault && Readable(docs)) &&
          (r.Raised? ==> db == old(db) || db == Fold(old(db), docs)) &&
          (r.Next? ==>
            db == Fold(old(db), docs) && CountsFold(r.counts, old(db), docs)))
    {
      var ok, docs := LoadBatch(after, since, batchSize, fault);
      if !ok { return Raised; }
      if docs == [] { return NothingLeft; }
      var written, counts := WriteAndCommit(docs, fault, known);
      return if written then Next(docs[|docs| - 1].key, counts) else Raised;
    }

    /** `get_batch` and `_load_payloads`. */
    method LoadBatch(after: Option<Key>, since: Option<int>, batchSize: nat, fault: Fault)
      returns (ok: bool, docs: seq<RawDoc>)
      ensures docs == DocsOf(BatchRows(after, since, batchSize), store)
      ensures ok <==> !fault.ReadFails? && Readable(docs)
    {
      docs := DocsOf(GetBatch(index, since, after, batchSize), store);
      ok := !fault.ReadFails? && Readable(docs);
    }

    /** Every response of the batch is in the object store. */
    predicate Readable(docs: seq<RawDoc>)
      reads this
    {
      forall i | 0 <= i < |docs| :: docs[i].key in store
    }

    /** `full_clean_loop`'s cut-off. */
    function CutOff(since: Option<int>, fullPass: bool): Option<int>
      reads this, metrics
    {
      if fullPass then None
      else if since.None? then LastSucceededStart(metrics.runs, Cleaning)
      else since
    }

    lemma CutOffIsRight(since: Option<int>, fullPass: bool)
      ensures IsCutOff(metrics.runs, since, fullPass, CutOff(since, fullPass))
    {
      LastSucceededIsNewest(metrics.runs, Cleaning);
    }

    /** How far a run over `docs` from row `start` has come: rows before `p` are committed, and the
        totals count them. */
    ghost predicate Progress(good: bool, t0: Tables, docs: seq<RawDoc>, start: nat, p: nat)
      requires start <= p <= |docs|
      reads this
    {
      good ==> db == Fold(t0, docs[start..p]) && TotalsRight(totals, t0, docs, start, p)
    }

    /** One turn of the loop, in terms of the whole run: rows `p` to `q` are read. */
    method Turn(cursor: Option<Key>, cut: Option<int>, batchSize: nat, fault: Fault,
                ghost known: KnownDocs, ghost t0: Tables, ghost docs: seq<RawDoc>, ghost start: nat, ghost p: nat,
                ghost q: nat)
      returns (r: BatchResult, ghost committed: nat)
      requires start <= p <= q <= |docs| && known.docs == docs[p..q] && Trusted(db, tags, studios)
      requires Progress(known.good, t0, docs, start, p)
      requires DocsOf(BatchRows(cursor, cut, batchSize), store) == docs[p..q] && (q == p <==> p == |docs|)
      modifies this`db, this`tags, this`studios, this`totals
      ensures r.NothingLeft? ==> p == |docs|
      ensures r.NothingLeft? ==> Progress(known.good, t0, docs, start, p)
      ensures r.Next? ==> p < q && r.after == docs[q - 1].key && Progress(known.good, t0, docs, start, q)
      ensures r.Raised? ==>
        (committed == p || committed == q) && (known.good ==> db == Fold(t0, docs[start..committed]))
      ensures !r.Raised? ==> Trusted(db, tags, studios)
      ensures known.good && fault == NoFault && Readable(docs[p..q]) ==> !r.Raised?
    {
      ghost var before := db;
      r := CleanAnime(cursor, cut, batchSize, fault, known);
      LastOfSlice(docs, p, q);
      committed := if db == before then p else q;
      if r.Raised? && known.good {
        FoldOn(t0, docs, start, p, q);
      }
      if r.Next? {
        if known.good {
          BatchCommitted(totals, r.counts, t0, docs, start, p, q);
        }
        totals := AddCounts(totals, r.counts);
      }
    }

    lemma PageOf(known: KnownDocs, p: nat, q: nat) returns (page: KnownDocs)
      requires p <= q <= |known.docs|
      ensures page.docs == known.docs[p..q] && page.good == known.good
      ensures Readable(known.docs) ==> Readable(page.docs)
    {
      if known.good { SubrangeIsGood(known.docs, p, q); }
      page := Assessed(known.docs[p..q], known.good);
    }

    /** A run from row `start` on committed the rows up to `committed`; one that finished committed and
        counted them all, and so does one that nothing disturbs. */
    ghost predicate RanTo(t0: Tables, known: KnownDocs, faults: seq<Fault>, start: nat, finished: bool, committed: nat)
      reads this
    {
      start <= committed <= |known.docs| &&
      (known.good ==> db == Fold(t0, known.docs[start..committed])) &&
      (finished ==> committed == |known.docs| && Trusted(db, tags, studios)) &&
      (finished && known.good ==> TotalsRight(totals, t0, known.docs, start, committed)) &&
      (known.good && faults == [] && Readable(known.docs) ==> finished)
    }

    /** The next batch of a run: rows `p` to `q`. */
    lemma NextPage(cursor: Option<Key>, cut: Option<int>, batchSize: nat, after: Option<Key>, rows: seq<Key>,
                   known: KnownDocs, start: nat, p: nat)
      returns (q: nat, page: KnownDocs)
      requires batchSize > 0 && AreTheRows(index, store, cut, after, rows, known.docs, start)
      requires start <= p <= |rows| && cursor == CursorAt(rows, p, after)
      ensures p <= q <= |known.docs| && q <= p + batchSize && (q == p <==> p == |known.docs|)
      ensures page.docs == known.docs[p..q] && page.good == known.good
      ensures DocsOf(BatchRows(cursor, cut, batchSize), store) == known.docs[p..q]
      ensures q > p ==> CursorAt(rows, q, after) == Some(known.docs[q - 1].key)
      ensures Readable(known.docs) ==> Readable(page.docs)
    {
      q := PageIs(index, store, cut, rows, known.docs, after, start, p, batchSize);
      page := PageOf(known, p, q);
    }

    /** A turn that reads rows `p` to `q`, and what it means for a run over `known`. */
    method TurnOfRun(cursor: Option<Key>, cut: Option<int>, batchSize: nat, faults: seq<Fault>, batches: nat,
                     ghost t0: Tables, ghost known: KnownDocs, ghost page: KnownDocs, ghost start: nat, ghost p: nat,
                     ghost q: nat)
      returns (r: BatchResult, ghost committed: nat)
      requires start <= p <= q <= |known.docs| && page.docs == known.docs[p..q] && page.good == known.good
      requires Trusted(db, tags, studios) && Progress(known.good, t0, known.docs, start, p)
      requires DocsOf(BatchRows(cursor, cut, batchSize), store) == known.docs[p..q] && (q == p <==> p == |known.docs|)
      requires Readable(known.docs) ==> Readable(page.docs)
      modifies this`db, this`tags, this`studios, this`totals
      ensures r.Next? ==> p < q && r.after == known.docs[q - 1].key && Progress(known.good, t0, known.docs, start, q)
      ensures r.Next? ==> Trusted(db, tags, studios)
      ensures !r.Next? ==> RanTo(t0, known, faults, start, r.NothingLeft?, committed) && p <= committed <= q
    {
      r, committed := Turn(cursor, cut, batchSize, FaultAt(faults, batches), page, t0, known.docs, start, p, q);
      if r.NothingLeft? { committed := p; }
    }

    /** One turn of the loop, from row `p` on. */
    method OneBatch(cursor: Option<Key>, cut: Option<int>, batchSize: nat, faults: seq<Fault>, batches: nat,
                    ghost after: Option<Key>, ghost t0: Tables, ghost rows: seq<Key>, ghost known: KnownDocs,
                    ghost start: nat, ghost p: nat)
      returns (r: BatchResult, ghost q: nat, ghost committed: nat)
      requires batchSize > 0 && Trusted(db, tags, studios)
      requires AreTheRows(index, store, cut, after, rows, known.docs, start)
      requires start <= p <= |known.docs| && cursor == CursorAt(rows, p, after)
      requires Progress(known.good, t0, known.docs, start, p)
      modifies this`db, this`tags, this`studios, this`totals
      ensures r.Next? ==> p < q <= |known.docs| && CursorAt(rows, q, after) == Some(r.after)
      ensures r.Next? ==> Progress(known.good, t0, known.docs, start, q) && Trusted(db, tags, studios)
      ensures !r.Next? ==> RanTo(t0, known, faults, start, r.NothingLeft?, committed) && p <= committed <= p + batchSize
    {
      ghost var page;
      q, page := NextPage(cursor, cut, batchSize, after, rows, known, start, p);
      r, committed := TurnOfRun(cursor, cut, batchSize, faults, batches, t0, known, page, start, p, q);
    }

    /** The loop, from `after` on: where its cursor ended, and what is committed. */
    method CleanUntilDone(after: Option<Key>, cut: Option<int>, batchSize: nat, faults: seq<Fault>,
                          ghost t0: Tables, ghost rows: seq<Key>, ghost known: KnownDocs, ghost start: nat)
      returns (finished: bool, cursor: Option<Key>, ghost p: nat, ghost committed: nat)
      requires batchSize > 0 && Trusted(db, tags, studios)
      requires AreTheRows(index, store, cut, after, rows, known.docs, start)
      requires Progress(known.good, t0, known.docs, start, start)
      modifies this`db, this`tags, this`studios, this`totals
      ensures RanTo(t0, known, faults, start, finished, committed)
      ensures start <= p <= committed <= p + batchSize && |rows| == |known.docs| && cursor == CursorAt(rows, p, after)
    {
      p, cursor := start, after;
      var batches := 0;
      while true
        invariant start <= p <= |known.docs| && cursor == CursorAt(rows, p, after)
        invariant Progress(known.good, t0, known.docs, start, p) && Trusted(db, tags, studios)
        decreases |known.docs| - p
      {
        var r;
        ghost var q;
        r, q, committed := OneBatch(cursor, cut, batchSize, faults, batches, after, t0, rows, known, start, p);
        if !r.Next? {
          return r.NothingLeft?, cursor, p, committed;
        }
        p, cursor, batches := q, Some(r.after), batches + 1;
      }
    }

    lemma BeginsAt(known: KnownDocs, start: nat)
      requires start <= |known.docs| && totals == ZeroCounts()
      ensures Progress(known.good, db, known.docs, start, start)
    {
      TotalsStart(db, known.docs, start);
    }

    /** Load the names, then clean batch after batch. */
    method CleanAll(after: Option<Key>, cut: Option<int>, batchSize: nat, faults: seq<Fault>,
                    ghost rows: seq<Key>, ghost known: KnownDocs, ghost start: nat)
      returns (finished: bool, cursor: Option<Key>, ghost p: nat, ghost committed: nat)
      requires batchSize > 0 && AreTheRows(index, store, cut, after, rows, known.docs, start)
      modifies this`db, this`tags, this`studios, this`totals
      ensures RanTo(old(db), known, faults, start, finished, committed)
      ensures start <= p <= committed <= p + batchSize && |rows| == |known.docs| && cursor == CursorAt(rows, p, after)
    {
      var tagNames, studioNames := NamesIn(db.tags), NamesIn(db.studios);
      assert Trusted(db, tagNames, studioNames);
      totals, tags, studios := ZeroCounts(), tagNames, studioNames;
      BeginsAt(known, start);
      finished, cursor, p, committed := CleanUntilDone(after, cut, batchSize, faults, db, rows, known, start);
    }

    /** `full_clean_loop`: load the names, clean batch after batch, record the outcome. `recorded`
        is false when the process dies or the outcome cannot be saved: the run then stays Running. */
    method FullCleanLoop(since: Option<int>, after: Option<Key>, batchSize: nat, fullPass: bool,
                         now: int, faults: seq<Fault>, recorded: bool, ghost rows: seq<Key>, ghost known: KnownDocs)
      returns (finished: bool, ghost a: Attempt, ghost cut: Option<int>)
      requires batchSize > 0 && AreDue(index, store, metrics.runs, since, fullPass, rows, known.docs)
      modifies this`db, this`tags, this`studios, this`totals, metrics
      ensures a.start == Position(rows, after) && |rows| == |known.docs| && Plausible(known.docs, a)
      ensures RanTo(old(db), known, faults, a.start, finished, a.committed)
      ensures IsCutOff(old(metrics.runs), since, fullPass, cut)
      ensures Recorded(old(metrics.runs), metrics.runs, now, cut, rows, after, a, batchSize, finished, recorded)
    {
      var from := CutOff(since, fullPass);
      cut := from;
      CutOffIsRight(since, fullPass);
      DueRowsArePaged(index, store, metrics.runs, since, fullPass, cut, after, rows, known.docs);
      ghost var start := Position(rows, after);
      var run := metrics.StartRun(Cleaning, now);
      ghost var p, committed;
      var cursor;
      finished, cursor, p, committed := CleanAll(after, from, batchSize, faults, rows, known, start);
      RecordRun(run, now, from, cursor, finished, recorded, old(metrics.runs));
      a := Attempt(start, committed, if recorded && !finished then p else 0);
      RecordedAt(old(metrics.runs), metrics.runs, now, cut, rows, after, a, p, batchSize, finished, recorded);
    }

    /** `_record_run`: a failure to save the outcome is swallowed. */
    method RecordRun(run: nat, now: int, cut: Option<int>, cursor: Option<Key>, finished: bool, recorded: bool,
                     ghost before: seq<Run>)
      requires metrics.runs == before + [Run(Cleaning, Running, now, None)] && run == |before|
      modifies metrics
      ensures metrics.runs == before + [CleanRunRow(now, cut, cursor, finished, recorded)]
    {
      if recorded {
        metrics.FinishRun(run, if finished then Succeeded else Failed,
          Summary(cut, if finished then None else cursor, None));
      }
    }

    /** What the runs so far, started one after the other, have come to. */
    ghost predicate RestartsAre(t0: Tables, rows: seq<Key>, known: KnownDocs, h: seq<Attempt>, discovery: Job)
      reads this, metrics
    {
      History(known.docs, h) && (known.good ==> db == AfterAttempts(t0, known.docs, h)) &&
      Position(rows, SavedPositions(metrics.runs, discovery).1) <= ResumeRow(h)
    }

    /** One more run, from where the last failed one says. */
    method Restart(plan: Plan, discovery: Job, now: int, ghost rows: seq<Key>, ghost known: KnownDocs,
                   ghost sound: bool, ghost t0: Tables, ghost h: seq<Attempt>)
      returns (finished: bool, ghost h': seq<Attempt>)
      requires plan.batchSize > 0 && AreAllRows(index, store, rows, known.docs)
      requires sound ==> RestartsAre(t0, rows, known, h, discovery)
      modifies this`db, this`tags, this`studios, this`totals, metrics
      ensures sound ==> RestartsAre(t0, rows, known, h', discovery)
      ensures finished ==> Trusted(db, tags, studios) && ReachedTheEnd(h', |known.docs|)
    {
      var after := SavedPositions(metrics.runs, discovery).1;
      ghost var before := metrics.runs;
      ghost var a, cut;
      AllAreDue(index, store, metrics.runs, rows, known.docs);
      finished, a, cut :=
        FullCleanLoop(None, after, plan.batchSize, true, now, plan.faults, plan.recorded, rows, known);
      RestartedFrom(before, metrics.runs, now, rows, after, a, plan.batchSize, finished, plan.recorded, discovery);
      if sound { OneMoreAttempt(t0, known.docs, h, a); }
      h' := h + [a];
    }

    /** A full pass that is started again after every failure, as one_pass.py does, from where the
        last failed run says. Whatever fails, and whatever the batch sizes, the catalogue is that of
        one uninterrupted run over the rows reached; when a run finishes, over all rows. */
    method FullPassWithRestarts(plans: seq<Plan>, discovery: Job, now: int, ghost rows: seq<Key>,
                                ghost docs: seq<RawDoc>)
      returns (finished: bool, ghost h: seq<Attempt>)
      requires forall i | 0 <= i < |plans| :: plans[i].batchSize > 0
      requires AreAllRows(index, store, rows, docs)
      modifies this`db, this`tags, this`studios, this`totals, metrics
      ensures Good(docs) && SavedPositions(old(metrics.runs), discovery).1 == None ==>
        History(docs, h) && Reached(h) <= |docs| && db == Fold(old(db), docs[..Reached(h)]) &&
        (finished ==> db == Fold(old(db), docs))
      ensures finished ==> Trusted(db, tags, studios)
    {
      ghost var known: KnownDocs := Assessed(docs, Good(docs));
      finished, h := RunAll(plans, discovery, now, rows, known);
    }

    method RunAll(plans: seq<Plan>, discovery: Job, now: int, ghost rows: seq<Key>, ghost known: KnownDocs)
      returns (finished: bool, ghost h: seq<Attempt>)
      requires forall i | 0 <= i < |plans| :: plans[i].batchSize > 0
      requires AreAllRows(index, store, rows, known.docs)
      modifies this`db, this`tags, this`studios, this`totals, metrics
      ensures known.good && SavedPositions(old(metrics.runs), discovery).1 == None ==>
        History(known.docs, h) && Reached(h) <= |known.docs| && db == Fold(old(db), known.docs[..Reached(h)]) &&
        (finished ==> db == Fold(old(db), known.docs))
      ensures finished ==> Trusted(db, tags, studios)
    {
      ghost var t0, sound := db, SavedPositions(metrics.runs, discovery).1 == None;
      finished, h := RunPlans(plans, discovery, now, rows, known, sound);
      if known.good && sound { OutcomeOfRestarts(t0, known.docs, h, db, finished); }
    }

    lemma NoRunsYet(rows: seq<Key>, known: KnownDocs, discovery: Job, h: seq<Attempt>)
      requires SavedPositions(metrics.runs, discovery).1 == None && h == []
      ensures RestartsAre(db, rows, known, h, discovery)
    {
    }

    method RunPlans(plans: seq<Plan>, discovery: Job, now: int, ghost rows: seq<Key>, ghost known: KnownDocs,
                    ghost sound: bool)
      returns (finished: bool, ghost h: seq<Attempt>)
      requires forall i | 0 <= i < |plans| :: plans[i].batchSize > 0
      requires AreAllRows(index, store, rows, known.docs)
      requires sound ==> SavedPositions(metrics.runs, discovery).1 == None
      modifies this`db, this`tags, this`studios, this`totals, metrics
      ensures sound ==> RestartsAre(old(db), rows, known, h, discovery)
      ensures finished ==> Trusted(db, tags, studios) && ReachedTheEnd(h, |known.docs|)
    {
      ghost var t0 := db;
      finished, h := false, [];
      if sound { NoRunsYet(rows, known, discovery, h); }
      for i := 0 to |plans|
        invariant sound ==> RestartsAre(t0, rows, known, h, discovery)
        invariant finished ==> Trusted(db, tags, studios) && ReachedTheEnd(h, |known.docs|)
      {
        if !finished {
          finished, h := Restart(plans[i], discovery, now, rows, known, sound, t0, h);
        }
      }
    }
  }
}
