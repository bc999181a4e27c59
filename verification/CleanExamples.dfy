/** Inputs for which the conditions on cleaning fail, and the results then differ. */
module CleanExamples {
  import opened Base
  import opened Catalogue
  import opened Parsers
  import opened CleanSpec
  import opened CleanBatch
  import opened CleanCounts
  import opened CleanHistory
  import opened CleanIncremental
  import opened CleanSkips

  const EMPTY := Tables(map[], map[], map[], {}, {}, {}, map[], map[], map[])

  const TITLED := RawDoc(Key(1, Details), DetailsData(Some(1), map[Title := Text("t")], [], [], []))
  const EPISODE := RawDoc(Key(1, Episodes), EpisodesData([[EpisodeItem(Some(1), map[])]]))
  const CHARACTERS := RawDoc(Key(1, Characters), Unusable)

  lemma TitledIsParsed()
    ensures CleanFull(TITLED.payload).Some? && CleanFull(TITLED.payload).value.0 == 1
    ensures Parse(TITLED).anime.Keys == {1}
    ensures Parse(TITLED).tagNames == map[] && Parse(TITLED).studioNames == map[] && Parse(TITLED).reviews == map[]
  {
    assert Flatten<NamedItem>([]) == [];
  }

  lemma EpisodeIsParsed()
    ensures Parse(EPISODE).episodes.Keys == {(1, 1)}
    ensures Parse(EPISODE) == NOTHING.(episodes := Parse(EPISODE).episodes)
  {
    var items := [EpisodeItem(Some(1), map[])];
    var pages := [items];
    assert pages[..0] == [] && items[..0] == [];
    assert Flatten(pages) == [] + items == items;
    assert EpisodeRows(items, 1) == map[(1, 1) := EpisodeRow(map[])];
  }

  lemma TwoAreGood(a: RawDoc, b: RawDoc)
    requires Less(a.key, b.key) && PayloadIdMatches(a) && PayloadIdMatches(b) && Consistent(a, b)
    ensures Good([a, b])
  {
  }

  // --- an episode waits for its anime -------------------------------------------------------------

  const WAITING := [TITLED, EPISODE]
  const RECENT := {Key(1, Details)}

  lemma EpisodeIsSkipped()
    ensures NoOp(EMPTY, EPISODE)
  {
    EpisodeIsParsed();
    ApplyNothing(EMPTY);
    assert Given(EMPTY, EPISODE) == NOTHING;
  }

  lemma OnlySecondIsOld(t: Tables, a: RawDoc, b: RawDoc, recent: set<Key>)
    requires a.key in recent && NoOp(t, b)
    ensures OldRowsCleaned(t, [a, b], recent)
  {
    forall i | 0 <= i < 2 && [a, b][i].key !in recent ensures NoOp(t, [a, b][i]) {
      assert i == 1;
    }
  }

  lemma NothingWithoutParents()
    ensures ChildrenHaveParents(EMPTY)
  {
  }

  lemma OnlyDetailsAreKept()
    ensures Keep(WAITING, RECENT) == [TITLED]
  {
    assert WAITING[..1] == [TITLED] && [TITLED][..0] == [];
    assert Keep([TITLED], RECENT) == [] + [TITLED];
  }

  lemma TitledIsBrought()
    ensures AnimeIn([TITLED]) == {1}
  {
    TitledIsParsed();
    assert [TITLED][..0] == [];
    assert AnimeIn([TITLED]) == AnimeIn([]) + {1};
  }

  lemma WaitingIsGood()
    ensures Good(WAITING)
  {
    TitledIsParsed();
    EpisodeIsParsed();
    TwoAreGood(TITLED, EPISODE);
  }

  lemma EpisodeIsLate()
    ensures Late(EMPTY, WAITING, RECENT, EPISODE)
  {
    OnlyDetailsAreKept();
    TitledIsBrought();
    EpisodeIsParsed();
    assert (1, 1) in Parse(EPISODE).episodes;
  }

  /** The episodes of an anime were fetched and skipped before its details arrived: a refresh that
      reads only the details leaves the episode out, a full pass writes it. */
  lemma LateEpisodeIsMissed()
    ensures Good(WAITING) && ChildrenHaveParents(EMPTY) && OldRowsCleaned(EMPTY, WAITING, RECENT)
    ensures Fold(EMPTY, WAITING) != Fold(EMPTY, Keep(WAITING, RECENT))
  {
    WaitingIsGood();
    EpisodeIsSkipped();
    OnlySecondIsOld(EMPTY, TITLED, EPISODE, RECENT);
    NothingWithoutParents();
    EpisodeIsLate();
    assert WAITING[1] == EPISODE;
    LateRowIsMissed(EMPTY, WAITING, RECENT, 1);
  }

  // --- a characters row meets its anime -----------------------------------------------------------

  const EARLY := [CHARACTERS, TITLED]

  lemma EarlyIsGood()
    ensures Good(EARLY)
  {
    TitledIsParsed();
    TwoAreGood(CHARACTERS, TITLED);
  }

  lemma CharactersAreEarly()
    ensures Early(EMPTY, EARLY[0], AnimeIn(EARLY))
  {
    TitledIsParsed();
    assert EARLY[..1] == [CHARACTERS];
    assert AnimeIn(EARLY) == AnimeIn([CHARACTERS]) + Parse(TITLED).anime.Keys;
  }

  /** In one batch the characters row counts as unsupported, one by one as a row without its anime. */
  lemma EarlyCharactersAreCountedDifferently()
    ensures Good(EARLY)
    ensures BatchCount(SkippedUnsupported, EMPTY, EARLY, map[], map[]) != FoldCount(SkippedUnsupported, EMPTY, EARLY)
    ensures BatchCount(SkippedNoAnime, EMPTY, EARLY, map[], map[]) != FoldCount(SkippedNoAnime, EMPTY, EARLY)
  {
    EarlyIsGood();
    CharactersAreEarly();
    SkipCountsDependOnBatch(SkippedUnsupported, EMPTY, EARLY, map[], map[]);
    SkipCountsDependOnBatch(SkippedNoAnime, EMPTY, EARLY, map[], map[]);
  }
}
