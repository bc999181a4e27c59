/** Repeating, resuming and narrowing clean runs: what a run may be replayed over, and what an
    incremental run may leave out. */
module CleanHistory {
  import opened Base
  import opened Catalogue
  import opened Parsers
  import opened CleanSpec
  import opened CleanBatch

  /** Cleaning this response again would change nothing. */
  predicate NoOp(t: Tables, doc: RawDoc) {
    CleanOne(t, doc) == t
  }

  lemma CleaningTwice(t: Tables, doc: RawDoc)
    ensures NoOp(CleanOne(t, doc), doc)
  {
    var d := Given(t, doc);
    assert Given(Apply(t, d), doc) == d;
    ApplyCompose(t, d, d);
    PlusItself(d);
  }

  /** The rows of an anime that has no row yet, and that `e` brings. */
  predicate Enables(t: Tables, e: RawDoc, doc: RawDoc) {
    !IsDetails(doc) && Parse(doc) != NOTHING && doc.key.malId !in t.anime && doc.key.malId in Parse(e).anime
  }

  lemma GivenUnchanged(t: Tables, e: RawDoc, doc: RawDoc)
    requires !Enables(t, e, doc)
    ensures Given(CleanOne(t, e), doc) == Given(t, doc)
  {
  }

  lemma GivensAgree(t: Tables, e: RawDoc, doc: RawDoc)
    requires Compatible(Parse(e), Parse(doc))
    ensures Agreeing(Given(t, e), Given(t, doc))
  {
  }

  /** A response that changes nothing still changes nothing after another one was cleaned. */
  lemma StaysNoOp(t: Tables, e: RawDoc, doc: RawDoc)
    requires NoOp(t, doc) && !Enables(t, e, doc)
    requires Compatible(Parse(e), Parse(doc))
    ensures NoOp(CleanOne(t, e), doc)
  {
    GivenUnchanged(t, e, doc);
    GivensAgree(t, e, doc);
    ApplyAbsorbs(t, Given(t, e), Given(t, doc));
  }

  /** Later responses do not bring the anime of earlier ones. */
  lemma EarlierNotEnabled(t: Tables, docs: seq<RawDoc>, i: nat, j: nat)
    requires Good(docs) && i < j < |docs|
    ensures !Enables(t, docs[j], docs[i])
    ensures Compatible(Parse(docs[j]), Parse(docs[i]))
  {
    assert Less(docs[i].key, docs[j].key);
    BroughtAnime(docs[j]);
    assert Consistent(docs[i], docs[j]);
    ParsedCompatible(docs[j], docs[i]);
  }

  /** Cleaning a response again changes nothing, not even after the responses that follow it. */
  lemma CleaningIsRepeatable(docs: seq<RawDoc>)
    requires Good(docs)
    ensures Repeatable(CleanOne, docs)
  {
    forall i | 0 <= i < |docs| ensures Idempotent(CleanOne, docs[i]) {
      forall t: Tables ensures NoOp(CleanOne(t, docs[i]), docs[i]) {
        CleaningTwice(t, docs[i]);
      }
    }
    forall i, j | 0 <= i < j < |docs| ensures StaysFixed(CleanOne, docs[i], docs[j]) {
      forall t: Tables | NoOp(t, docs[i]) ensures NoOp(CleanOne(t, docs[j]), docs[i]) {
        EarlierNotEnabled(t, docs, i, j);
        StaysNoOp(t, docs[j], docs[i]);
      }
    }
  }

  // --- crash and resume ---------------------------------------------------------------------------

  /** One run over the rows `docs`: it began at row `start`, its batches up to row `committed` are
      in the catalogue, and it recorded row `resume` as the place to go on. `resume` falls behind
      `committed` when a commit took effect but its answer was lost, and stays at 0 when the
      process died before recording anything. */
  datatype Attempt = Attempt(start: nat, committed: nat, resume: nat)

  predicate Plausible(docs: seq<RawDoc>, a: Attempt) {
    a.start <= a.committed <= |docs| && a.resume <= a.committed
  }

  function ResumeRow(h: seq<Attempt>): nat {
    if h == [] then 0 else h[|h| - 1].resume
  }

  /** Every run goes on from a row that the one before it had recorded, or from further back. */
  predicate History(docs: seq<RawDoc>, h: seq<Attempt>) {
    h == [] ||
    (History(docs, h[..|h| - 1]) && Plausible(docs, h[|h| - 1]) && h[|h| - 1].start <= ResumeRow(h[..|h| - 1]))
  }

  function AfterAttempts(t: Tables, docs: seq<RawDoc>, h: seq<Attempt>): Tables
    requires History(docs, h)
  {
    if h == [] then t
    else
      var last := h[|h| - 1];
      Fold(AfterAttempts(t, docs, h[..|h| - 1]), docs[last.start..last.committed])
  }

  /** The furthest row any run committed. */
  function Reached(h: seq<Attempt>): nat {
    if h == [] then 0 else Max(Reached(h[..|h| - 1]), h[|h| - 1].committed)
  }

  /** Whatever failed in between, the catalogue is that of one uninterrupted run up to there. */
  lemma {:induction false} AttemptsEqualOneRun(t: Tables, docs: seq<RawDoc>, h: seq<Attempt>)
    requires Good(docs) && History(docs, h)
    ensures Reached(h) <= |docs| && ResumeRow(h) <= Reached(h)
    ensures AfterAttempts(t, docs, h) == Fold(t, docs[..Reached(h)])
  {
    if h == [] {
      assert docs[..0] == [];
    } else {
      var init, last := h[..|h| - 1], h[|h| - 1];
      AttemptsEqualOneRun(t, docs, init);
      CleaningIsRepeatable(docs);
      FoldLeftReplay(CleanOne, t, docs, last.start, Reached(init), last.committed);
    }
  }

  /** Any number of failed runs, each continued from what it recorded, and then one that reaches
      the end: the catalogue of a single run. */
  lemma ResumedRunsEqualOneRun(t: Tables, docs: seq<RawDoc>, h: seq<Attempt>)
    requires Good(docs) && History(docs, h) && h != []
    requires h[|h| - 1].committed == |docs|
    ensures AfterAttempts(t, docs, h) == Fold(t, docs)
  {
    AttemptsEqualOneRun(t, docs, h);
    assert docs[..|docs|] == docs;
  }
}
