/** A whole series of refreshes: each fetches some rows and cleans incrementally only those. */
module CleanRefreshes {
  import opened Base
  import opened Catalogue
  import opened Parsers
  import opened CleanSpec
  import opened CleanBatch
  import opened CleanHistory
  import opened CleanIncremental

  /** What the index and the store hold when a refresh cleans, and the rows since its cut-off. */
  datatype Refresh = Refresh(docs: seq<RawDoc>, recent: set<Key>)

  /** The catalogue when every refresh cleans only its recent rows... */
  function AfterRefreshes(t: Tables, h: seq<Refresh>): Tables {
    if h == [] then t
    else Fold(AfterRefreshes(t, h[..|h| - 1]), Keep(h[|h| - 1].docs, h[|h| - 1].recent))
  }

  /** ...and when every refresh cleans all rows there are. */
  function AfterFullPasses(t: Tables, h: seq<Refresh>): Tables {
    if h == [] then t else Fold(AfterFullPasses(t, h[..|h| - 1]), h[|h| - 1].docs)
  }

  /** A row that is not recent was there, as it is, at the refresh before. */
  predicate Continues(before: seq<Refresh>, r: Refresh) {
    forall i | 0 <= i < |r.docs| && r.docs[i].key !in r.recent ::
      before != [] && r.docs[i] in before[|before| - 1].docs
  }

  /** At each refresh the rows are good, and none waits for an anime that only the recent rows bring. */
  predicate InOrder(t: Tables, h: seq<Refresh>) {
    h == [] ||
    (InOrder(t, h[..|h| - 1]) && Good(h[|h| - 1].docs) && Continues(h[..|h| - 1], h[|h| - 1]) &&
     NoneLate(AfterRefreshes(t, h[..|h| - 1]), h[|h| - 1].docs, h[|h| - 1].recent))
  }

  predicate AllCleaned(t: Tables, docs: seq<RawDoc>) {
    forall i | 0 <= i < |docs| :: NoOp(t, docs[i])
  }

  lemma OneRefresh(before: Tables, r: Refresh)
    requires Good(r.docs) && OldRowsCleaned(before, r.docs, r.recent) && NoneLate(before, r.docs, r.recent)
    ensures Fold(before, Keep(r.docs, r.recent)) == Fold(before, r.docs)
    ensures AllCleaned(Fold(before, r.docs), r.docs)
  {
    NoneLateSuffices(before, r.docs, r.recent);
    CleaningIsRepeatable(r.docs);
    FoldLeftFixes(CleanOne, before, r.docs);
  }

  lemma OldRowsWereCleaned(t: Tables, before: seq<Refresh>, r: Refresh)
    requires Continues(before, r) && (before != [] ==> AllCleaned(t, before[|before| - 1].docs))
    ensures OldRowsCleaned(t, r.docs, r.recent)
  {
  }

  /** A series of incremental refreshes leaves what a series of full passes leaves, and after each of
      them no row has anything left to say. */
  lemma {:induction false} RefreshesEqualFullPasses(t: Tables, h: seq<Refresh>)
    requires InOrder(t, h)
    ensures AfterRefreshes(t, h) == AfterFullPasses(t, h)
    ensures h != [] ==> AllCleaned(AfterRefreshes(t, h), h[|h| - 1].docs)
  {
    if h != [] {
      var init, last := h[..|h| - 1], h[|h| - 1];
      RefreshesEqualFullPasses(t, init);
      OldRowsWereCleaned(AfterRefreshes(t, init), init, last);
      OneRefresh(AfterRefreshes(t, init), last);
    }
  }
}
