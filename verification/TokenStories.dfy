/** Runs in which a rotation outlives what was to end its session: app/security/service.py. */
module TokenStories {
  import opened Base
  import opened Tokens

  const GRACE := 10

  lemma Then(s0: State, moves: seq<Move>, m: Move, grace: nat, s: State, s': State)
    requires Run(s0, moves, grace) == Some(s) && Possible(s, m) && Ready(s, m)
    requires After(s, m, grace) == s'
    ensures Run(s0, moves + [m], grace) == Some(s')
  {
  }

  predicate Leads(s: State, m: Move, s': State) {
    Possible(s, m) && Ready(s, m) && After(s, m, GRACE) == s'
  }

  /** A list of states, each led to by a move. */
  lemma {:induction false} StoryHappens(states: seq<State>, moves: seq<Move>)
    requires |states| == |moves| + 1
    requires forall i | 0 <= i < |moves| :: Leads(states[i], moves[i], states[i + 1])
    ensures Run(states[0], moves, GRACE) == Some(states[|moves|])
  {
    if moves != [] {
      var n := |moves| - 1;
      StoryHappens(states[..n + 1], moves[..n]);
      Then(states[0], moves[..n], moves[n], GRACE, states[n], states[n + 1]);
      assert moves[..n] + [moves[n]] == moves;
    }
  }

  // --- a rotation between a logout's read and its update ------------------------------------------

  const ROOT := Issue(7, 5000, 1, None)
  const CHILD := Issue(7, 5000, 1, Some(1))
  const GRANDCHILD := Issue(7, 5000, 1, Some(2))
  const USABLE := Token(7, 5000, false, None)
  const SPENT := Token(7, 5000, true, Some(0))

  const LOGGED_IN := State(map[1 := USABLE], map[], map[1 := ROOT], {1}, 0)

  function With(reqs: map<Request, Pc>): State { LOGGED_IN.(reqs := reqs) }

  const LEAVING := With(map[1 := Leaving(1)])
  const PRESENTED := With(map[1 := Leaving(1), 2 := Presented(1)])
  const BOTH_READ := With(map[1 := Leaving(1), 2 := Found(1)])
  const WINNER := With(map[1 := Leaving(1), 2 := Won(1, 0, None)])
  const MINTED := With(map[1 := Leaving(1), 2 := Won(1, 0, Some(2))]).(issued := map[1 := ROOT, 2 := CHILD])
  const ROTATED :=
    State(map[1 := SPENT, 2 := USABLE], map[1 := Leaving(1), 2 := Ended], map[1 := ROOT, 2 := CHILD], {1, 2}, 0)
  const UPDATED := ROTATED.(reqs := map[1 := LoggingOut(1), 2 := Ended])
  const LOGGED_OUT := ROTATED.(reqs := map[1 := Ended, 2 := Ended])

  const OVERTAKING :=
    [Logout(1, 1), Refresh(2, 1), Read(2), Update(2), Mint(2, 2), Commit(2), LogoutUpdate(1), Commit(1)]
  const OVERTAKEN := [LOGGED_IN, LEAVING, PRESENTED, BOTH_READ, WINNER, MINTED, ROTATED, UPDATED, LOGGED_OUT]

  lemma LoggedInIsSafe()
    ensures Safe(LOGGED_IN)
  {
  }

  lemma LogoutReads()
    ensures Leads(LOGGED_IN, Logout(1, 1), LEAVING)
  {
  }

  lemma RefreshPresents()
    ensures Leads(LEAVING, Refresh(2, 1), PRESENTED)
  {
  }

  lemma RefreshReads()
    ensures Leads(PRESENTED, Read(2), BOTH_READ)
  {
  }

  lemma RefreshWins()
    ensures Leads(BOTH_READ, Update(2), WINNER)
  {
  }

  lemma RefreshMints()
    ensures Leads(WINNER, Mint(2, 2), MINTED)
  {
  }

  lemma RefreshCommits()
    ensures Leads(MINTED, Commit(2), ROTATED)
  {
    assert TableAfter(MINTED, MINTED.reqs[2]) == ROTATED.table;
  }

  lemma LogoutUpdates()
    ensures Leads(ROTATED, LogoutUpdate(1), UPDATED)
  {
  }

  lemma LogoutCommits()
    ensures Leads(UPDATED, Commit(1), LOGGED_OUT)
  {
    assert TableAfter(UPDATED, UPDATED.reqs[1]) == LOGGED_OUT.table;
  }

  lemma OvertakenStep(i: nat)
    requires i < 8
    ensures Leads(OVERTAKEN[i], OVERTAKING[i], OVERTAKEN[i + 1])
  {
    if i == 0 { LogoutReads(); }
    else if i == 1 { RefreshPresents(); }
    else if i == 2 { RefreshReads(); }
    else if i == 3 { RefreshWins(); }
    else if i == 4 { RefreshMints(); }
    else if i == 5 { RefreshCommits(); }
    else if i == 6 { LogoutUpdates(); }
    else { LogoutCommits(); }
  }

  /** A token is rotated between a logout's read and its update: the logout commits, and the session
      goes on with the new token. */
  lemma LogoutMissesTheChild()
    ensures Safe(LOGGED_IN) && Run(LOGGED_IN, OVERTAKING, GRACE) == Some(LOGGED_OUT)
    ensures OVERTAKING[6] == LogoutUpdate(1) && OVERTAKING[7] == Commit(1) && !SessionEnded(LOGGED_OUT, 1)
  {
    LoggedInIsSafe();
    forall i | 0 <= i < 8 ensures Leads(OVERTAKEN[i], OVERTAKING[i], OVERTAKEN[i + 1]) {
      OvertakenStep(i);
    }
    StoryHappens(OVERTAKEN, OVERTAKING);
    assert 2 in LOGGED_OUT.table;
  }

  // --- a rotation while a wipe is under way -------------------------------------------------------

  /** The first token was rotated long ago; the second is in use. */
  const IN_USE := State(map[1 := SPENT, 2 := USABLE], map[], map[1 := ROOT, 2 := CHILD], {1, 2}, 1000)

  function Busy(reqs: map<Request, Pc>): State { IN_USE.(reqs := reqs) }

  const REUSED := Busy(map[3 := Presented(1)])
  const REUSE_FOUND := Busy(map[3 := Found(1)])
  const REUSE_LOST := Busy(map[3 := Lost(1)])
  const WIPING := Busy(map[3 := AboutTo(Delete, 7)])
  const NEXT_PRESENTED := Busy(map[3 := AboutTo(Delete, 7), 4 := Presented(2)])
  const NEXT_FOUND := Busy(map[3 := AboutTo(Delete, 7), 4 := Found(2)])
  const NEXT_WON := Busy(map[3 := AboutTo(Delete, 7), 4 := Won(2, 1000, None)])
  const ALL_ISSUED := map[1 := ROOT, 2 := CHILD, 3 := GRANDCHILD]
  const NEXT_MINTED := Busy(map[3 := AboutTo(Delete, 7), 4 := Won(2, 1000, Some(3))]).(issued := ALL_ISSUED)
  const SEEN := NEXT_MINTED.(reqs := map[3 := Sweeping(Delete, {1, 2}, {}, 1000), 4 := Won(2, 1000, Some(3))])
  const TABLE := map[1 := SPENT, 2 := Token(7, 5000, true, Some(1000)), 3 := USABLE]
  const ESCAPED := State(TABLE, map[3 := Sweeping(Delete, {1, 2}, {}, 1000), 4 := Ended], ALL_ISSUED, {1, 2, 3}, 1000)
  const FIRST_TAKEN := ESCAPED.(reqs := map[3 := Sweeping(Delete, {2}, {1}, 1000), 4 := Ended])
  const BOTH_TAKEN := ESCAPED.(reqs := map[3 := Sweeping(Delete, {}, {1, 2}, 1000), 4 := Ended])
  const WIPED := ESCAPED.(table := map[3 := USABLE], reqs := map[3 := Ended, 4 := Ended])

  const ESCAPING := [Refresh(3, 1), Read(3), Update(3), ReRead(3), Refresh(4, 2), Read(4), Update(4), Mint(4, 3),
    Snapshot(3), Commit(4), Take(3, 1), Take(3, 2), Commit(3)]
  const WIPE := [IN_USE, REUSED, REUSE_FOUND, REUSE_LOST, WIPING, NEXT_PRESENTED, NEXT_FOUND, NEXT_WON, NEXT_MINTED,
    SEEN, ESCAPED, FIRST_TAKEN, BOTH_TAKEN, WIPED]

  lemma InUseIsSafe()
    ensures Safe(IN_USE)
  {
  }

  lemma ReusePresents()
    ensures Leads(IN_USE, Refresh(3, 1), REUSED)
  {
  }

  lemma ReuseReads()
    ensures Leads(REUSED, Read(3), REUSE_FOUND)
  {
  }

  lemma ReuseLoses()
    ensures Leads(REUSE_FOUND, Update(3), REUSE_LOST)
  {
  }

  lemma ReuseRereads()
    ensures Leads(REUSE_LOST, ReRead(3), WIPING)
  {
  }

  lemma NextPresents()
    ensures Leads(WIPING, Refresh(4, 2), NEXT_PRESENTED)
  {
  }

  lemma NextReads()
    ensures Leads(NEXT_PRESENTED, Read(4), NEXT_FOUND)
  {
  }

  lemma NextWins()
    ensures Leads(NEXT_FOUND, Update(4), NEXT_WON)
  {
  }

  lemma NextMints()
    ensures Leads(NEXT_WON, Mint(4, 3), NEXT_MINTED)
  {
    assert NEXT_WON.issued[3 := GRANDCHILD] == ALL_ISSUED;
    assert NEXT_WON.reqs[4 := Won(2, 1000, Some(3))] == NEXT_MINTED.reqs;
  }

  lemma WipeBegins()
    ensures Leads(NEXT_MINTED, Snapshot(3), SEEN)
  {
    assert Seen(NEXT_MINTED, Delete, 7) == {1, 2};
    assert NEXT_MINTED.reqs[3 := Sweeping(Delete, {1, 2}, {}, 1000)] == SEEN.reqs;
  }

  lemma NextCommits()
    ensures Leads(SEEN, Commit(4), ESCAPED)
  {
    assert TableAfter(SEEN, SEEN.reqs[4]) == ESCAPED.table;
    assert BornAfter(SEEN, SEEN.reqs[4]) == {1, 2, 3};
    assert SEEN.reqs[4 := Ended] == ESCAPED.reqs;
    assert SEEN.issued == ESCAPED.issued;
  }

  lemma WipeTakesFirst()
    ensures Leads(ESCAPED, Take(3, 1), FIRST_TAKEN)
  {
    assert {1, 2} - {1} == {2} && {} + {1} == {1};
  }

  lemma WipeTakesSecond()
    ensures Leads(FIRST_TAKEN, Take(3, 2), BOTH_TAKEN)
  {
    assert {2} - {2} == {} && {1} + {2} == {1, 2};
  }

  lemma WipeCommits()
    ensures Leads(BOTH_TAKEN, Commit(3), WIPED)
  {
    assert TableAfter(BOTH_TAKEN, BOTH_TAKEN.reqs[3]) == WIPED.table;
  }

  lemma ReuseStep(i: nat)
    requires i < 4
    ensures Leads(WIPE[i], ESCAPING[i], WIPE[i + 1])
  {
    if i == 0 { ReusePresents(); }
    else if i == 1 { ReuseReads(); }
    else if i == 2 { ReuseLoses(); }
    else { ReuseRereads(); }
  }

  lemma NextStep(i: nat)
    requires 4 <= i < 8
    ensures Leads(WIPE[i], ESCAPING[i], WIPE[i + 1])
  {
    if i == 4 { NextPresents(); }
    else if i == 5 { NextReads(); }
    else if i == 6 { NextWins(); }
    else { NextMints(); }
  }

  lemma WipeStep(i: nat)
    requires 8 <= i < 13
    ensures Leads(WIPE[i], ESCAPING[i], WIPE[i + 1])
  {
    if i == 8 { WipeBegins(); }
    else if i == 9 { NextCommits(); }
    else if i == 10 { WipeTakesFirst(); }
    else if i == 11 { WipeTakesSecond(); }
    else { WipeCommits(); }
  }

  /** A spent token is used again and its user is wiped; a rotation that commits after the wipe began
      leaves a usable token of the same login behind. */
  lemma RotationSurvivesAWipe()
    ensures Safe(IN_USE) && Run(IN_USE, ESCAPING, GRACE) == Some(WIPED)
    ensures !NoneUsable(WIPED.table, 7) && LoginOf(WIPED.issued, 3) == LoginOf(WIPED.issued, 1)
  {
    InUseIsSafe();
    forall i | 0 <= i < 13 ensures Leads(WIPE[i], ESCAPING[i], WIPE[i + 1]) {
      if i < 4 { ReuseStep(i); } else if i < 8 { NextStep(i); } else { WipeStep(i); }
    }
    StoryHappens(WIPE, ESCAPING);
    assert 3 in WIPED.table;
  }
}
