/** Refresh-token rotation under concurrency: app/security/service.py over the statements of
    app/security/repository.py, one transaction per request (app/core/database/database.py). */
module Tokens {
  import opened Base

  type Jti = int
  type Request = int

  /** A row of `refresh_token`. Times are in seconds. */
  datatype Token = Token(user: int, expiresAt: int, revoked: bool, revokedAt: Option<int>)

  /** A signed token: its claims, the login it descends from and the token it was rotated from. */
  datatype Issue = Issue(user: int, expiry: int, login: Jti, parent: Option<Jti>)

  /** A statement over several rows: the wipe and the cleanup delete, logout-all revokes. */
  datatype Sweep = Delete | Revoke

  /** Where a request is. Won, LoggingOut and Sweeping hold row locks until their transaction ends. */
  datatype Pc =
    | Presented(jti: Jti)
    | Found(jti: Jti)
    | Lost(jti: Jti)
    | Won(jti: Jti, at: int, child: Option<Jti>)
    | LoggingIn(first: Jti)
    | Leaving(jti: Jti)
    | LoggingOut(jti: Jti)
    | AboutTo(sweep: Sweep, user: int)
    | Sweeping(sweep: Sweep, todo: set<Jti>, got: set<Jti>, at: int)
    | Ended

  /** Committed rows, requests, every token that was ever signed, and those that were committed. */
  datatype State = State(table: map<Jti, Token>, reqs: map<Request, Pc>, issued: map<Jti, Issue>, born: set<Jti>,
    now: int)

  datatype Move =
    | Tick(seconds: nat)
    | Refresh(r: Request, jti: Jti)
    | Read(r: Request)
    | Update(r: Request)
    | ReRead(r: Request)
    | Mint(r: Request, child: Jti)
    | Login(r: Request, child: Jti, user: int, expiry: int)
    | Logout(r: Request, jti: Jti)
    | LogoutUpdate(r: Request)
    | LogoutAll(r: Request, jti: Jti)
    | Cleanup(r: Request)
    | Snapshot(r: Request)
    | Take(r: Request, jti: Jti)
    | Commit(r: Request)
    | Rollback(r: Request)

  function Held(pc: Pc): set<Jti> {
    match pc
    case Won(jti, _, _) => {jti}
    case LoggingOut(jti) => {jti}
    case Sweeping(_, _, got, _) => got
    case _ => {}
  }

  /** No other request has locked the row. */
  predicate Unlocked(s: State, r: Request, jti: Jti) {
    forall q | q in s.reqs && q != r :: jti !in Held(s.reqs[q])
  }

  predicate Live(s: State, jti: Jti) { jti in s.table && !s.table[jti].revoked }

  /** A loser may retry: the row is there and was revoked, by a rotation or a logout-all, no longer
      than the grace time ago. A plain logout leaves no time. */
  predicate InGrace(s: State, jti: Jti, grace: nat) {
    jti in s.table && s.table[jti].revokedAt.Some? && s.now - s.table[jti].revokedAt.value <= grace
  }

  predicate Possible(s: State, m: Move) {
    match m
    case Tick(_) => true
    case Refresh(r, jti) => r !in s.reqs && jti in s.issued
    case Read(r) => r in s.reqs && s.reqs[r].Presented?
    case Update(r) => r in s.reqs && s.reqs[r].Found? && Unlocked(s, r, s.reqs[r].jti)
    case ReRead(r) => r in s.reqs && s.reqs[r].Lost?
    case Mint(r, child) => r in s.reqs && s.reqs[r].Won? && s.reqs[r].child.None? && child !in s.issued
    case Login(r, child, _, _) => r !in s.reqs && child !in s.issued
    case Logout(r, jti) => r !in s.reqs && jti in s.issued
    case LogoutUpdate(r) => r in s.reqs && s.reqs[r].Leaving? && Unlocked(s, r, s.reqs[r].jti)
    case LogoutAll(r, jti) => r !in s.reqs && jti in s.issued
    case Cleanup(r) => r !in s.reqs
    case Snapshot(r) => r in s.reqs && s.reqs[r].AboutTo?
    case Take(r, jti) => r in s.reqs && s.reqs[r].Sweeping? && jti in s.reqs[r].todo && Unlocked(s, r, jti)
    case Commit(r) =>
      r in s.reqs &&
      (match s.reqs[r]
       case Won(_, _, child) => child.Some?
       case LoggingIn(_) => true
       case LoggingOut(_) => true
       case Sweeping(_, todo, _, _) => todo == {}
       case _ => false)
    case Rollback(r) => r in s.reqs && !s.reqs[r].Ended?
  }

  function NewRow(i: Issue): Token { Token(i.user, i.expiry, false, None) }

  function Revoked(t: Token, at: int): Token { t.(revoked := true, revokedAt := Some(at)) }

  /** The committed rows after a request's transaction. */
  function TableAfter(s: State, pc: Pc): map<Jti, Token>
    requires pc.Won? ==> pc.jti in s.table && pc.child.Some? && pc.child.value in s.issued
    requires pc.LoggingIn? ==> pc.first in s.issued
    requires pc.LoggingOut? ==> pc.jti in s.table
  {
    match pc
    case Won(jti, at, child) => s.table[jti := Revoked(s.table[jti], at)][child.value := NewRow(s.issued[child.value])]
    case LoggingIn(child) => s.table[child := NewRow(s.issued[child])]
    case LoggingOut(jti) => s.table[jti := s.table[jti].(revoked := true)]
    case Sweeping(Delete, _, got, _) => map j | j in s.table && j !in got :: s.table[j]
    case Sweeping(Revoke, _, got, at) =>
      map j | j in s.table :: if j in got then Revoked(s.table[j], at) else s.table[j]
    case _ => s.table
  }

  function BornAfter(s: State, pc: Pc): set<Jti> {
    match pc
    case Won(_, _, Some(child)) => s.born + {child}
    case LoggingIn(child) => s.born + {child}
    case _ => s.born
  }

  /** What a sweep sees: the rows of the user when its statement begins. */
  function Seen(s: State, sweep: Sweep, user: int): set<Jti> {
    set j | j in s.table && s.table[j].user == user && (sweep.Revoke? ==> !s.table[j].revoked)
  }

  function To(s: State, r: Request, pc: Pc): State { s.(reqs := s.reqs[r := pc]) }

  /** Commits need their row, which the invariant below gives. */
  predicate CanCommit(s: State, r: Request) {
    r in s.reqs &&
    var pc := s.reqs[r];
    (pc.Won? ==> pc.jti in s.table && pc.child.Some? && pc.child.value in s.issued) &&
    (pc.LoggingIn? ==> pc.first in s.issued) && (pc.LoggingOut? ==> pc.jti in s.table)
  }

  /** The tokens a move refers to are there; NothingIsStuck shows that they always are. */
  predicate Ready(s: State, m: Move)
    requires Possible(s, m)
  {
    (m.Commit? ==> CanCommit(s, m.r)) && (m.ReRead? || m.Mint? ==> s.reqs[m.r].jti in s.issued)
  }

  function After(s: State, m: Move, grace: nat): State
    requires Possible(s, m) && Ready(s, m)
  {
    match m
    case Tick(seconds) => s.(now := s.now + seconds)
    case Refresh(r, jti) => To(s, r, Presented(jti))
    case Read(r) => To(s, r, if s.reqs[r].jti in s.table then Found(s.reqs[r].jti) else Ended)
    case Update(r) =>
      var jti := s.reqs[r].jti;
      To(s, r, if Live(s, jti) then Won(jti, s.now, None) else Lost(jti))
    case ReRead(r) =>
      var jti := s.reqs[r].jti;
      To(s, r, if InGrace(s, jti, grace) then Ended else AboutTo(Delete, s.issued[jti].user))
    case Mint(r, child) =>
      var jti := s.reqs[r].jti;
      var parent := s.issued[jti];
      To(s, r, Won(jti, s.reqs[r].at, Some(child)))
        .(issued := s.issued[child := Issue(parent.user, parent.expiry, parent.login, Some(jti))])
    case Login(r, child, user, expiry) =>
      To(s, r, LoggingIn(child)).(issued := s.issued[child := Issue(user, expiry, child, None)])
    case Logout(r, jti) => To(s, r, if Live(s, jti) then Leaving(jti) else Ended)
    case LogoutUpdate(r) =>
      var jti := s.reqs[r].jti;
      To(s, r, if jti in s.table then LoggingOut(jti) else Ended)
    case LogoutAll(r, jti) => To(s, r, if Live(s, jti) then AboutTo(Revoke, s.table[jti].user) else Ended)
    case Cleanup(r) => To(s, r, Sweeping(Delete, set j | j in s.table && s.table[j].expiresAt < s.now, {}, s.now))
    case Snapshot(r) =>
      var pc := s.reqs[r];
      To(s, r, Sweeping(pc.sweep, Seen(s, pc.sweep, pc.user), {}, s.now))
    case Take(r, jti) =>
      var pc := s.reqs[r];
      var take := jti in s.table && (pc.sweep.Revoke? ==> !s.table[jti].revoked);
      To(s, r, Sweeping(pc.sweep, pc.todo - {jti}, if take then pc.got + {jti} else pc.got, pc.at))
    case Commit(r) => s.(table := TableAfter(s, s.reqs[r]), born := BornAfter(s, s.reqs[r]), reqs := s.reqs[r := Ended])
    case Rollback(r) => To(s, r, Ended)
  }

  // --- what holds in every reachable state --------------------------------------------------------

  type Table = map<Jti, Token>
  type Issued = map<Jti, Issue>

  predicate IsOfItsLogin(issued: Issued, born: set<Jti>, j: Jti)
    requires j in issued
  {
    var i := issued[j];
    i.login in issued && issued[i.login].parent == None && issued[i.login].login == i.login &&
    i.user == issued[i.login].user && i.expiry == issued[i.login].expiry &&
    (i.parent.None? ==> i.login == j) && (i.parent.Some? ==> i.parent.value in born && i.login in born)
  }

  /** Every signed token belongs to a login whose user and absolute expiry it carries. */
  ghost predicate Lineage(issued: Issued, born: set<Jti>) {
    forall j | j in issued :: IsOfItsLogin(issued, born, j)
  }

  /** Stored rows were committed once, and say what was signed. */
  ghost predicate RowsAreBorn(table: Table, issued: Issued, born: set<Jti>) {
    (forall j | j in born :: j in issued) &&
    (forall j | j in table :: j in born && table[j].user == issued[j].user && table[j].expiresAt == issued[j].expiry) &&
    (forall j | j in table :: table[j].revokedAt.Some? ==> table[j].revoked)
  }

  predicate LiveIn(table: Table, j: Jti) { j in table && !table[j].revoked }

  function ParentOf(issued: Issued, j: Jti): Option<Jti> { if j in issued then issued[j].parent else None }

  function LoginOf(issued: Issued, j: Jti): Option<Jti> { if j in issued then Some(issued[j].login) else None }

  /** At most one committed token was minted from any token... */
  ghost predicate MintsOnce(issued: Issued, born: set<Jti>) {
    forall a, b | a in born && b in born && ParentOf(issued, a).Some? && ParentOf(issued, a) == ParentOf(issued, b) ::
      a == b
  }

  /** ...which is not live any more. */
  ghost predicate ParentsAreSpent(table: Table, issued: Issued, born: set<Jti>) {
    forall a | a in born && ParentOf(issued, a).Some? :: !LiveIn(table, ParentOf(issued, a).value)
  }

  /** A login has at most one unrevoked token. */
  ghost predicate OneLivePerLogin(table: Table, issued: Issued) {
    forall a, b | a in table && b in table && !table[a].revoked && !table[b].revoked &&
      LoginOf(issued, a) == LoginOf(issued, b) :: a == b
  }

  ghost predicate RowsAreSafe(table: Table, issued: Issued, born: set<Jti>) {
    RowsAreBorn(table, issued, born) && Lineage(issued, born) && MintsOnce(issued, born) &&
    ParentsAreSpent(table, issued, born) && OneLivePerLogin(table, issued)
  }

  /** Row locks are exclusive, and locked rows are what their holders found. */
  ghost predicate LocksHold(s: State) {
    (forall q, r, j | q in s.reqs && r in s.reqs && j in Held(s.reqs[q]) && j in Held(s.reqs[r]) :: q == r) &&
    (forall r | r in s.reqs :: Locks(s, s.reqs[r]))
  }

  predicate Locks(s: State, pc: Pc) {
    match pc
    case Presented(jti) => jti in s.issued
    case Found(jti) => jti in s.issued
    case Lost(jti) => jti in s.issued
    case Won(jti, _, _) => Live(s, jti)
    case LoggingOut(jti) => jti in s.table
    case Sweeping(sweep, _, got, _) => forall j | j in got :: j in s.table && (sweep.Revoke? ==> !s.table[j].revoked)
    case _ => true
  }

  /** The token a request is about to commit. */
  function Pending(pc: Pc): Option<Jti> {
    match pc
    case Won(_, _, child) => child
    case LoggingIn(first) => Some(first)
    case _ => None
  }

  /** Tokens not yet committed belong to one request each. */
  ghost predicate PendingAreNew(s: State) {
    (forall r | r in s.reqs && Pending(s.reqs[r]).Some? ::
      var j := Pending(s.reqs[r]).value;
      j in s.issued && j !in s.born &&
      (s.reqs[r].Won? ==>
        ParentOf(s.issued, j) == Some(s.reqs[r].jti) && LoginOf(s.issued, j) == LoginOf(s.issued, s.reqs[r].jti)) &&
      (s.reqs[r].LoggingIn? ==> ParentOf(s.issued, j) == None && LoginOf(s.issued, j) == Some(j))) &&
    (forall q, r | q in s.reqs && r in s.reqs && Pending(s.reqs[q]).Some? && Pending(s.reqs[q]) == Pending(s.reqs[r]) ::
      q == r)
  }

  ghost predicate Safe(s: State) {
    RowsAreSafe(s.table, s.issued, s.born) && LocksHold(s) && PendingAreNew(s)
  }

  // --- every move keeps it ------------------------------------------------------------------------

  /** A request moves on; it locks only rows nobody else has locked. */
  lemma MovesOn(s: State, r: Request, pc: Pc)
    requires Safe(s) && Locks(s, pc) && forall j | j in Held(pc) :: Unlocked(s, r, j)
    requires Pending(pc) == None
    ensures Safe(To(s, r, pc))
  {
  }

  lemma LockedByHolder(s: State, r: Request, j: Jti)
    requires LocksHold(s) && r in s.reqs && j in Held(s.reqs[r])
    ensures Unlocked(s, r, j)
  {
  }

  lemma TakesRow(s: State, r: Request, jti: Jti, grace: nat)
    requires Safe(s) && Possible(s, Take(r, jti))
    ensures Safe(After(s, Take(r, jti), grace))
  {
    forall j | j in s.reqs[r].got ensures Unlocked(s, r, j) {
      LockedByHolder(s, r, j);
    }
    MovesOn(s, r, After(s, Take(r, jti), grace).reqs[r]);
  }

  /** A newly signed token changes nothing for the others. */
  lemma SigningIsSafe(table: Table, issued: Issued, born: set<Jti>, child: Jti, i: Issue)
    requires RowsAreSafe(table, issued, born) && child !in issued
    requires (i.parent == None && i.login == child) ||
      (i.parent.Some? && i.parent.value in table && i.parent.value in issued &&
       i == Issue(issued[i.parent.value].user, issued[i.parent.value].expiry, issued[i.parent.value].login, i.parent))
    ensures RowsAreSafe(table, issued[child := i], born)
  {
    var after := issued[child := i];
    assert forall j | j in born :: ParentOf(after, j) == ParentOf(issued, j) && LoginOf(after, j) == LoginOf(issued, j);
    forall j | j in after ensures IsOfItsLogin(after, born, j) {
      if j == child {
        if i.parent.Some? { assert IsOfItsLogin(issued, born, i.parent.value); }
      } else {
        assert IsOfItsLogin(issued, born, j);
      }
    }
  }

  lemma SignedRequests(s: State, r: Request, child: Jti, i: Issue, pc: Pc)
    requires Safe(s) && child !in s.issued && Pending(pc) == Some(child)
    requires (pc.Won? && r in s.reqs && s.reqs[r] == Won(pc.jti, pc.at, None) && i.parent == Some(pc.jti) &&
        Some(i.login) == LoginOf(s.issued, pc.jti))
      || (pc.LoggingIn? && r !in s.reqs && i.login == child && i.parent == None)
    ensures LocksHold(To(s, r, pc).(issued := s.issued[child := i]))
    ensures PendingAreNew(To(s, r, pc).(issued := s.issued[child := i]))
  {
    var s' := To(s, r, pc).(issued := s.issued[child := i]);
    assert LocksHold(s') by {
      forall q | q in s'.reqs ensures Locks(s', s'.reqs[q]) {
        if q != r { assert Locks(s, s.reqs[q]); } else if pc.Won? { assert Locks(s, s.reqs[r]); }
      }
    }
    assert forall j | j in s.issued ::
      ParentOf(s'.issued, j) == ParentOf(s.issued, j) && LoginOf(s'.issued, j) == LoginOf(s.issued, j);
  }

  /** Rows that are only deleted or revoked stay safe. */
  lemma FewerLiveRows(table: Table, after: Table, issued: Issued, born: set<Jti>)
    requires RowsAreSafe(table, issued, born)
    requires forall j | j in after ::
      (j in table && after[j].user == table[j].user && after[j].expiresAt == table[j].expiresAt &&
       (table[j].revoked ==> after[j].revoked) && (after[j].revokedAt.Some? ==> after[j].revoked))
    ensures RowsAreSafe(after, issued, born)
  {
  }

  /** A login's first token: no other token descends from it yet. */
  lemma FirstTokenIsSafe(table: Table, issued: Issued, born: set<Jti>, first: Jti)
    requires RowsAreSafe(table, issued, born)
    requires first in issued && first !in born && issued[first].login == first && issued[first].parent == None
    ensures RowsAreSafe(table[first := NewRow(issued[first])], issued, born + {first})
  {
  }

  /** A rotation: the only live token of its login is spent, and its child takes its place. */
  lemma RotationIsSafe(table: Table, issued: Issued, born: set<Jti>, jti: Jti, child: Jti, at: int)
    requires RowsAreSafe(table, issued, born) && LiveIn(table, jti)
    requires child in issued && child !in born
    requires ParentOf(issued, child) == Some(jti) && LoginOf(issued, child) == LoginOf(issued, jti)
    ensures RowsAreSafe(table[jti := Revoked(table[jti], at)][child := NewRow(issued[child])], issued, born + {child})
  {
  }

  /** Whatever a request commits, the rows and the new tokens of the others are as they were. */
  lemma OthersKeepTheirRows(s: State, r: Request, table: Table, born: set<Jti>)
    requires LocksHold(s) && PendingAreNew(s) && r in s.reqs
    requires forall j | j in s.table && j !in Held(s.reqs[r]) :: j in table && table[j] == s.table[j]
    requires born == BornAfter(s, s.reqs[r])
    ensures var s' := s.(table := table, born := born, reqs := s.reqs[r := Ended]);
      LocksHold(s') && PendingAreNew(s')
  {
    var s' := s.(table := table, born := born, reqs := s.reqs[r := Ended]);
    forall q | q in s.reqs && q != r ensures Locks(s', s.reqs[q]) {
      assert Locks(s, s.reqs[q]);
      forall j | j in Held(s.reqs[q]) ensures j !in Held(s.reqs[r]) {
      }
    }
  }

  lemma CommitIsSafe(s: State, r: Request, grace: nat)
    requires Safe(s) && Possible(s, Commit(r))
    ensures CanCommit(s, r) && Safe(After(s, Commit(r), grace))
  {
    var pc := s.reqs[r];
    assert Locks(s, pc);
    match pc {
      case Won(jti, at, child) => RotationIsSafe(s.table, s.issued, s.born, jti, child.value, at);
      case LoggingIn(first) => FirstTokenIsSafe(s.table, s.issued, s.born, first);
      case LoggingOut(_) => FewerLiveRows(s.table, TableAfter(s, pc), s.issued, s.born);
      case Sweeping(_, _, _, _) => FewerLiveRows(s.table, TableAfter(s, pc), s.issued, s.born);
      case _ =>
    }
    OthersKeepTheirRows(s, r, TableAfter(s, pc), BornAfter(s, pc));
  }

  lemma SignIsSafe(s: State, m: Move, grace: nat)
    requires Safe(s) && Possible(s, m) && Ready(s, m) && (m.Mint? || m.Login?)
    ensures Safe(After(s, m, grace))
  {
    var s' := After(s, m, grace);
    assert m.Mint? ==> Locks(s, s.reqs[m.r]);
    SigningIsSafe(s.table, s.issued, s.born, m.child, s'.issued[m.child]);
    SignedRequests(s, m.r, m.child, s'.issued[m.child], s'.reqs[m.r]);
  }

  lemma NothingIsStuck(s: State, m: Move)
    requires Safe(s) && Possible(s, m)
    ensures Ready(s, m)
  {
    if m.ReRead? || m.Mint? { assert Locks(s, s.reqs[m.r]); }
    if m.Commit? { CommitIsSafe(s, m.r, 0); }
  }

  lemma MoveIsSafe(s: State, m: Move, grace: nat)
    requires Safe(s) && Possible(s, m)
    ensures Ready(s, m) && Safe(After(s, m, grace))
  {
    NothingIsStuck(s, m);
    match m
    case Tick(_) =>
    case Mint(_, _) => SignIsSafe(s, m, grace);
    case Login(_, _, _, _) => SignIsSafe(s, m, grace);
    case Take(r, jti) => TakesRow(s, r, jti, grace);
    case Commit(r) => CommitIsSafe(s, r, grace);
    case Refresh(r, _) => MovesOn(s, r, After(s, m, grace).reqs[r]);
    case Read(r) => RequestMovesOn(s, m, grace);
    case Update(r) => RequestMovesOn(s, m, grace);
    case ReRead(r) => RequestMovesOn(s, m, grace);
    case Logout(r, _) => MovesOn(s, r, After(s, m, grace).reqs[r]);
    case LogoutUpdate(r) => RequestMovesOn(s, m, grace);
    case LogoutAll(r, _) => MovesOn(s, r, After(s, m, grace).reqs[r]);
    case Cleanup(r) => MovesOn(s, r, After(s, m, grace).reqs[r]);
    case Snapshot(r) => RequestMovesOn(s, m, grace);
    case Rollback(r) => MovesOn(s, r, Ended);
  }

  lemma RequestMovesOn(s: State, m: Move, grace: nat)
    requires Safe(s) && Possible(s, m) && (m.Read? || m.Update? || m.ReRead? || m.LogoutUpdate? || m.Snapshot?)
    requires Ready(s, m)
    ensures Safe(After(s, m, grace))
  {
    assert Locks(s, s.reqs[m.r]);
    MovesOn(s, m.r, After(s, m, grace).reqs[m.r]);
  }

  // --- whole runs -----------------------------------------------------------------------------------

  /** The state after a run of moves; None if they cannot happen. */
  function Run(s: State, moves: seq<Move>, grace: nat): Option<State> {
    if moves == [] then Some(s)
    else
      match Run(s, moves[..|moves| - 1], grace)
      case None => None
      case Some(before) =>
        var m := moves[|moves| - 1];
        if Possible(before, m) && Ready(before, m) then Some(After(before, m, grace)) else None
  }

  lemma {:induction false} RunIsSafe(s: State, moves: seq<Move>, grace: nat)
    requires Safe(s) && Run(s, moves, grace).Some?
    ensures Safe(Run(s, moves, grace).value)
  {
    if moves != [] {
      var before := Run(s, moves[..|moves| - 1], grace).value;
      RunIsSafe(s, moves[..|moves| - 1], grace);
      MoveIsSafe(before, moves[|moves| - 1], grace);
    }
  }

  const NOTHING_YET := State(map[], map[], map[], {}, 0)

  lemma NothingYetIsSafe()
    ensures Safe(NOTHING_YET)
  {
  }

  /** Under every interleaving of refreshes, logins, logouts, logout-alls, wipes, cleanups and
      rollbacks, at most one committed token was ever minted from a given one, each login has at most
      one unrevoked token, and every token keeps the user and the absolute expiry of its login. */
  lemma RotationIsSingleUse(start: State, moves: seq<Move>, grace: nat)
    requires Safe(start) && Run(start, moves, grace).Some?
    ensures var s := Run(start, moves, grace).value;
      (forall a, b | a in s.born && b in s.born && ParentOf(s.issued, a).Some? &&
        ParentOf(s.issued, a) == ParentOf(s.issued, b) :: a == b) &&
      (forall a, b | a in s.table && b in s.table && !s.table[a].revoked && !s.table[b].revoked &&
        LoginOf(s.issued, a) == LoginOf(s.issued, b) :: a == b) &&
      (forall j | j in s.table :: j in s.issued && s.issued[j].login in s.issued &&
        s.table[j].expiresAt == s.issued[s.issued[j].login].expiry &&
        s.table[j].user == s.issued[s.issued[j].login].user)
    ensures Safe(NOTHING_YET)
  {
    NothingYetIsSafe();
    var s := Run(start, moves, grace).value;
    RunIsSafe(start, moves, grace);
    forall j | j in s.table
      ensures j in s.issued && s.issued[j].login in s.issued &&
        s.table[j].expiresAt == s.issued[s.issued[j].login].expiry &&
        s.table[j].user == s.issued[s.issued[j].login].user
    {
      assert IsOfItsLogin(s.issued, s.born, j);
    }
  }

  /** What is signed, committed and revoked stays so: a revoked row keeps the time it was revoked at,
      or is deleted for good. */
  predicate Persists(s: State, s': State) {
    s.born <= s'.born && s.now <= s'.now &&
    (forall j | j in s.issued :: j in s'.issued && s'.issued[j] == s.issued[j]) &&
    (forall j | j in s.table && s.table[j].revokedAt.Some? && j in s'.table :: s'.table[j] == s.table[j]) &&
    (forall j | j in s.table && s.table[j].revoked && j in s'.table :: s'.table[j].revoked) &&
    (forall j | j in s.born && j !in s.table :: j !in s'.table)
  }

  lemma CommitPersists(s: State, r: Request, grace: nat)
    requires Safe(s) && Possible(s, Commit(r)) && CanCommit(s, r)
    ensures Persists(s, After(s, Commit(r), grace))
  {
    assert Locks(s, s.reqs[r]);
  }

  lemma MovePersists(s: State, m: Move, grace: nat)
    requires Safe(s) && Possible(s, m) && Ready(s, m)
    ensures Persists(s, After(s, m, grace))
  {
    if m.Commit? {
      CommitPersists(s, m.r, grace);
    }
  }

  lemma PersistsOn(a: State, b: State, c: State)
    requires Persists(a, b) && Persists(b, c) && forall j | j in a.table :: j in a.born
    ensures Persists(a, c)
  {
  }

  lemma {:induction false} RunPersists(s: State, moves: seq<Move>, grace: nat)
    requires Safe(s) && Run(s, moves, grace).Some?
    ensures Persists(s, Run(s, moves, grace).value)
  {
    if moves != [] {
      var init, m := moves[..|moves| - 1], moves[|moves| - 1];
      RunPersists(s, init, grace);
      var before := Run(s, init, grace).value;
      RunIsSafe(s, init, grace);
      MovePersists(before, m, grace);
      PersistsOn(s, before, Run(s, moves, grace).value);
    }
  }

  // --- losers ---------------------------------------------------------------------------------------

  /** A request that found its token spent. */
  predicate HasLost(s: State, r: Request) {
    r in s.reqs && (s.reqs[r].Lost? || s.reqs[r].AboutTo? || s.reqs[r].Sweeping? || s.reqs[r].Ended?)
  }

  lemma LoserMovesOn(s: State, m: Move, grace: nat, r: Request)
    requires Possible(s, m) && Ready(s, m)
    requires HasLost(s, r)
    ensures HasLost(After(s, m, grace), r)
  {
  }

  /** It never mints anything. */
  lemma {:induction false} LosersMintNothing(s: State, moves: seq<Move>, grace: nat, r: Request)
    requires HasLost(s, r) && Run(s, moves, grace).Some?
    ensures HasLost(Run(s, moves, grace).value, r)
  {
    if moves != [] {
      LosersMintNothing(s, moves[..|moves| - 1], grace, r);
      var before, m := Run(s, moves[..|moves| - 1], grace).value, moves[|moves| - 1];
      LoserMovesOn(before, m, grace, r);
    }
  }

  /** Any number of losers, at any later time within the grace time of the rotation, end without
      touching a row: only when the row is gone, or was revoked without a time or too long ago, does a
      loser go on to the wipe. */
  lemma GraceIsExact(s: State, moves: seq<Move>, grace: nat, r: Request, jti: Jti, at: int)
    requires Safe(s) && jti in s.table && s.table[jti].revokedAt == Some(at)
    requires Run(s, moves, grace).Some? && r in Run(s, moves, grace).value.reqs
    requires Run(s, moves, grace).value.reqs[r] == Lost(jti)
    ensures var late := Run(s, moves, grace).value;
      jti in late.issued &&
      var after := After(late, ReRead(r), grace);
      after.table == late.table &&
      (after.reqs[r] == Ended <==> jti in late.table && late.now - at <= grace) &&
      (after.reqs[r] != Ended ==> after.reqs[r] == AboutTo(Delete, late.issued[jti].user))
  {
    RunPersists(s, moves, grace);
    RunIsSafe(s, moves, grace);
    var late := Run(s, moves, grace).value;
    assert Locks(late, late.reqs[r]);
  }

  // --- wipes and logout-all -------------------------------------------------------------------------

  /** A row a sweep has nothing more to do with: deleted, or for logout-all spent. */
  predicate Settled(s: State, sweep: Sweep, j: Jti) {
    if sweep.Delete? then j !in s.table else !Live(s, j)
  }

  /** Each row the statement saw is still to do, locked, or settled by somebody else. */
  predicate Covers(s: State, r: Request, sweep: Sweep, seen: set<Jti>, at: int) {
    seen <= s.born && r in s.reqs &&
    (s.reqs[r].Ended? ||
     (s.reqs[r].Sweeping? && s.reqs[r].sweep == sweep && s.reqs[r].at == at &&
      s.reqs[r].got <= seen && s.reqs[r].todo <= seen &&
      forall j | j in seen :: j in s.reqs[r].todo || j in s.reqs[r].got || Settled(s, sweep, j)))
  }

  lemma CoversOn(s: State, m: Move, grace: nat, r: Request, sweep: Sweep, seen: set<Jti>, at: int)
    requires Safe(s) && Possible(s, m) && Ready(s, m) && Covers(s, r, sweep, seen, at)
    ensures Covers(After(s, m, grace), r, sweep, seen, at)
  {
    var s' := After(s, m, grace);
    MovePersists(s, m, grace);
    forall j | j in seen && Settled(s, sweep, j) ensures Settled(s', sweep, j) {
      assert j in s.born;
    }
  }

  lemma {:induction false} RunCovers(s: State, moves: seq<Move>, grace: nat, r: Request, sweep: Sweep, seen: set<Jti>,
                                     at: int)
    requires Safe(s) && Covers(s, r, sweep, seen, at) && Run(s, moves, grace).Some?
    ensures Covers(Run(s, moves, grace).value, r, sweep, seen, at)
  {
    if moves != [] {
      var init := moves[..|moves| - 1];
      RunCovers(s, init, grace, r, sweep, seen, at);
      RunIsSafe(s, init, grace);
      CoversOn(Run(s, init, grace).value, moves[|moves| - 1], grace, r, sweep, seen, at);
    }
  }

  /** The request is done with its rows: what it commits next are the rows `late` without, or with,
      those it has locked. */
  predicate SweepIsDone(late: State, r: Request) {
    Possible(late, Commit(r)) && CanCommit(late, r) && late.reqs[r].Sweeping?
  }

  /** What the statement saw and nobody else has settled is locked when it is done. */
  lemma SweptAreLocked(begun: State, moves: seq<Move>, grace: nat, r: Request, sweep: Sweep, seen: set<Jti>, at: int)
    requires Safe(begun) && Covers(begun, r, sweep, seen, at) && Run(begun, moves, grace).Some?
    requires SweepIsDone(Run(begun, moves, grace).value, r)
    ensures var late := Run(begun, moves, grace).value;
      late.reqs[r].sweep == sweep && late.reqs[r].at == at && Persists(begun, late) && Safe(late) &&
      (forall j | j in late.reqs[r].got :: j in seen && j in late.table && (sweep.Revoke? ==> Live(late, j))) &&
      (forall j | j in seen && !Settled(late, sweep, j) :: j in late.reqs[r].got)
  {
    RunCovers(begun, moves, grace, r, sweep, seen, at);
    RunIsSafe(begun, moves, grace);
    RunPersists(begun, moves, grace);
    var late := Run(begun, moves, grace).value;
    assert Locks(late, late.reqs[r]);
  }

  /** What a wipe leaves: of its user only the tokens committed after its statement began, and every
      other row as it was. */
  lemma WipeIsExact(s: State, r: Request, moves: seq<Move>, grace: nat)
    requires Safe(s) && Possible(s, Snapshot(r)) && s.reqs[r].sweep.Delete?
    requires Run(After(s, Snapshot(r), grace), moves, grace).Some?
    requires SweepIsDone(Run(After(s, Snapshot(r), grace), moves, grace).value, r)
    ensures var late := Run(After(s, Snapshot(r), grace), moves, grace).value;
      After(late, Commit(r), grace).table
        == map j | j in late.table && !(late.table[j].user == s.reqs[r].user && j in s.born) :: late.table[j]
  {
    var user, begun := s.reqs[r].user, After(s, Snapshot(r), grace);
    SweepBegins(s, r, grace);
    SweptAreLocked(begun, moves, grace, r, Delete, Seen(s, Delete, user), s.now);
    WipedRows(s, Run(begun, moves, grace).value, r, user, grace);
  }

  lemma WipedRows(s: State, late: State, r: Request, user: int, grace: nat)
    requires Safe(s) && Safe(late) && Persists(s, late) && SweepIsDone(late, r) && late.reqs[r].sweep.Delete?
    requires forall j | j in late.reqs[r].got :: j in Seen(s, Delete, user) && j in late.table
    requires forall j | j in Seen(s, Delete, user) && j in late.table :: j in late.reqs[r].got
    ensures After(late, Commit(r), grace).table
         == map j | j in late.table && !(late.table[j].user == user && j in s.born) :: late.table[j]
  {
    UsersStay(s, late);
    RowsLeft(late, r, grace, set j | j in late.table && late.table[j].user == user && j in s.born);
  }

  /** What a logout-all leaves: every row, and revoked now those of its user that were committed when
      its statement began and are not revoked yet. */
  lemma LogoutAllIsExact(s: State, r: Request, moves: seq<Move>, grace: nat)
    requires Safe(s) && Possible(s, Snapshot(r)) && s.reqs[r].sweep.Revoke?
    requires Run(After(s, Snapshot(r), grace), moves, grace).Some?
    requires SweepIsDone(Run(After(s, Snapshot(r), grace), moves, grace).value, r)
    ensures var late := Run(After(s, Snapshot(r), grace), moves, grace).value;
      After(late, Commit(r), grace).table
        == map j | j in late.table ::
          if late.table[j].user == s.reqs[r].user && j in s.born && !late.table[j].revoked
          then Token(late.table[j].user, late.table[j].expiresAt, true, Some(s.now)) else late.table[j]
  {
    var user, begun := s.reqs[r].user, After(s, Snapshot(r), grace);
    SweepBegins(s, r, grace);
    SweptAreLocked(begun, moves, grace, r, Revoke, Seen(s, Revoke, user), s.now);
    RevokedRows(s, Run(begun, moves, grace).value, r, user, grace);
  }

  lemma RevokedRows(s: State, late: State, r: Request, user: int, grace: nat)
    requires Safe(s) && Safe(late) && Persists(s, late) && SweepIsDone(late, r)
    requires late.reqs[r].sweep.Revoke? && late.reqs[r].at == s.now
    requires forall j | j in late.reqs[r].got :: j in Seen(s, Revoke, user) && Live(late, j)
    requires forall j | j in Seen(s, Revoke, user) && Live(late, j) :: j in late.reqs[r].got
    ensures After(late, Commit(r), grace).table
      == map j | j in late.table ::
        if late.table[j].user == user && j in s.born && !late.table[j].revoked
        then Token(late.table[j].user, late.table[j].expiresAt, true, Some(s.now)) else late.table[j]
  {
    UsersStay(s, late);
    var after, got := After(late, Commit(r), grace).table, late.reqs[r].got;
    assert after.Keys == late.table.Keys;
    assert forall j | j in late.table :: after[j] == if j in got then Revoked(late.table[j], s.now) else late.table[j];
    forall j | j in late.table
      ensures j in got <==> late.table[j].user == user && j in s.born && !late.table[j].revoked
    {
      if late.table[j].user == user && j in s.born && !late.table[j].revoked {
        assert j in s.table && !s.table[j].revoked;
      }
    }
  }

  lemma UsersStay(s: State, late: State)
    requires Safe(s) && Safe(late) && Persists(s, late)
    ensures forall j | j in s.born && j in late.table ::
      j in s.table && s.table[j].user == late.table[j].user && s.table[j].expiresAt == late.table[j].expiresAt
    ensures forall j | j in s.table :: j in s.born
  {
    forall j | j in s.born && j in late.table
      ensures j in s.table && s.table[j].user == late.table[j].user && s.table[j].expiresAt == late.table[j].expiresAt
    {
      assert j in s.issued && j in late.issued && late.issued[j] == s.issued[j];
    }
  }

  lemma SweepBegins(s: State, r: Request, grace: nat)
    requires Safe(s) && Possible(s, Snapshot(r))
    ensures Safe(After(s, Snapshot(r), grace)) && Seen(s, s.reqs[r].sweep, s.reqs[r].user) <= s.born
    ensures Covers(After(s, Snapshot(r), grace), r, s.reqs[r].sweep, Seen(s, s.reqs[r].sweep, s.reqs[r].user), s.now)
  {
    MoveIsSafe(s, Snapshot(r), grace);
    forall j | j in Seen(s, s.reqs[r].sweep, s.reqs[r].user) ensures j in s.born {
    }
  }

  lemma CleanupBegins(s: State, r: Request, grace: nat, expired: set<Jti>)
    requires Safe(s) && Possible(s, Cleanup(r)) && expired == set j | j in s.table && s.table[j].expiresAt < s.now
    ensures Safe(After(s, Cleanup(r), grace)) && Covers(After(s, Cleanup(r), grace), r, Delete, expired, s.now)
  {
    MoveIsSafe(s, Cleanup(r), grace);
    forall j | j in expired ensures j in s.born {
    }
  }

  lemma RowsLeft(late: State, r: Request, grace: nat, gone: set<Jti>)
    requires SweepIsDone(late, r) && late.reqs[r].sweep.Delete?
    requires forall j | j in late.table :: j in late.reqs[r].got <==> j in gone
    ensures After(late, Commit(r), grace).table == map j | j in late.table && j !in gone :: late.table[j]
  {
    var after := After(late, Commit(r), grace).table;
    forall j ensures j in after <==> j in late.table && j !in gone {
    }
    assert after.Keys == (map j | j in late.table && j !in gone :: late.table[j]).Keys;
  }

  /** What the cleanup leaves: every row but those that had expired when its statement began. */
  lemma CleanupIsExact(s: State, r: Request, moves: seq<Move>, grace: nat)
    requires Safe(s) && Possible(s, Cleanup(r)) && Run(After(s, Cleanup(r), grace), moves, grace).Some?
    requires SweepIsDone(Run(After(s, Cleanup(r), grace), moves, grace).value, r)
    ensures var late := Run(After(s, Cleanup(r), grace), moves, grace).value;
      After(late, Commit(r), grace).table
        == map j | j in late.table && !(j in s.table && late.table[j].expiresAt < s.now) :: late.table[j]
  {
    var begun := After(s, Cleanup(r), grace);
    var expired := set j | j in s.table && s.table[j].expiresAt < s.now;
    CleanupBegins(s, r, grace, expired);
    SweptAreLocked(begun, moves, grace, r, Delete, expired, s.now);
    ExpiredRows(s, Run(begun, moves, grace).value, r, grace, expired);
  }

  lemma ExpiredRows(s: State, late: State, r: Request, grace: nat, expired: set<Jti>)
    requires Safe(s) && Safe(late) && Persists(s, late) && SweepIsDone(late, r) && late.reqs[r].sweep.Delete?
    requires expired == set j | j in s.table && s.table[j].expiresAt < s.now
    requires forall j | j in late.reqs[r].got :: j in expired && j in late.table
    requires forall j | j in expired && j in late.table :: j in late.reqs[r].got
    ensures After(late, Commit(r), grace).table
         == map j | j in late.table && !(j in s.table && late.table[j].expiresAt < s.now) :: late.table[j]
  {
    UsersStay(s, late);
    RowsLeft(late, r, grace, set j | j in late.table && j in s.table && late.table[j].expiresAt < s.now);
  }

  // --- whose rows are swept -------------------------------------------------------------------------

  /** On the way to a sweep over the rows of a user, or beyond. */
  predicate Heading(s: State, r: Request, sweep: Sweep, user: int) {
    r in s.reqs && (s.reqs[r] == AboutTo(sweep, user) || s.reqs[r].Sweeping? || s.reqs[r].Ended?)
  }

  lemma HeadsOnce(s: State, m: Move, grace: nat, r: Request, sweep: Sweep, user: int)
    requires Heading(s, r, sweep, user) && Possible(s, m) && Ready(s, m)
    ensures Heading(After(s, m, grace), r, sweep, user)
    ensures s.reqs[r].Ended? ==> After(s, m, grace).reqs[r].Ended?
  {
  }

  lemma {:induction false} HeadsOn(s: State, moves: seq<Move>, grace: nat, r: Request, sweep: Sweep, user: int)
    requires Heading(s, r, sweep, user) && Run(s, moves, grace).Some?
    ensures Heading(Run(s, moves, grace).value, r, sweep, user)
    ensures s.reqs[r].Ended? ==> Run(s, moves, grace).value.reqs[r].Ended?
  {
    if moves != [] {
      HeadsOn(s, moves[..|moves| - 1], grace, r, sweep, user);
      HeadsOnce(Run(s, moves[..|moves| - 1], grace).value, moves[|moves| - 1], grace, r, sweep, user);
    }
  }

  /** A logout-all goes on only with an unrevoked token, and then sweeps the user of its row. */
  lemma LogoutAllIsOfItsUser(s: State, r: Request, jti: Jti, moves: seq<Move>, grace: nat)
    requires Possible(s, LogoutAll(r, jti)) && Run(After(s, LogoutAll(r, jti), grace), moves, grace).Some?
    requires Possible(Run(After(s, LogoutAll(r, jti), grace), moves, grace).value, Snapshot(r))
    ensures jti in s.table && !s.table[jti].revoked
    ensures Run(After(s, LogoutAll(r, jti), grace), moves, grace).value.reqs[r] == AboutTo(Revoke, s.table[jti].user)
  {
    var begun := After(s, LogoutAll(r, jti), grace);
    var user := if jti in s.table then s.table[jti].user else 0;
    HeadsOn(begun, moves, grace, r, Revoke, user);
  }

  /** A refresh whose token has no row, and a logout or logout-all whose token is not usable, end there
      and then; the others go on. */
  lemma WhoGoesOn(s: State, m: Move, moves: seq<Move>, grace: nat)
    requires m.Read? || m.Logout? || m.LogoutAll?
    requires Possible(s, m) && Run(After(s, m, grace), moves, grace).Some?
    ensures After(s, m, grace).table == s.table
    ensures var jti := if m.Read? then s.reqs[m.r].jti else m.jti;
      After(s, m, grace).reqs[m.r].Ended? <==> !(jti in s.table && (m.Read? || !s.table[jti].revoked))
    ensures After(s, m, grace).reqs[m.r].Ended? ==>
      var reqs := Run(After(s, m, grace), moves, grace).value.reqs;
      m.r in reqs && reqs[m.r].Ended?
  {
    if After(s, m, grace).reqs[m.r].Ended? { HeadsOn(After(s, m, grace), moves, grace, m.r, Delete, 0); }
  }

  /** Any request can be rolled back until it has ended. That changes no row and holds no lock. */
  lemma RollbackLeavesNothing(s: State, r: Request, grace: nat)
    ensures Possible(s, Rollback(r)) <==> r in s.reqs && s.reqs[r] != Ended
    ensures Possible(s, Rollback(r)) ==>
      var after := After(s, Rollback(r), grace);
      after.table == s.table && after.born == s.born && r in after.reqs && Held(after.reqs[r]) == {} &&
      !Possible(after, Commit(r))
  {
  }

  // --- what a rotation and a logout write -----------------------------------------------------------

  /** A winner until it commits: it keeps its lock on an unrevoked row. */
  predicate StillWon(s: State, r: Request, jti: Jti, at: int, row: Token) {
    r in s.reqs &&
    (s.reqs[r].Ended? ||
     (s.reqs[r].Won? && s.reqs[r].jti == jti && s.reqs[r].at == at && jti in s.table && s.table[jti] == row))
  }

  lemma WinsOn(s: State, m: Move, grace: nat, r: Request, jti: Jti, at: int, row: Token)
    requires Safe(s) && Possible(s, m) && Ready(s, m) && StillWon(s, r, jti, at, row)
    ensures StillWon(After(s, m, grace), r, jti, at, row)
  {
    if m.Commit? && m.r != r && s.reqs[r].Won? {
      assert jti in Held(s.reqs[r]);
      assert jti !in Held(s.reqs[m.r]);
      if Pending(s.reqs[m.r]).Some? { assert Pending(s.reqs[m.r]).value !in s.born; }
    }
  }

  lemma {:induction false} RunWins(s: State, moves: seq<Move>, grace: nat, r: Request, jti: Jti, at: int, row: Token)
    requires Safe(s) && StillWon(s, r, jti, at, row) && Run(s, moves, grace).Some?
    ensures StillWon(Run(s, moves, grace).value, r, jti, at, row)
  {
    if moves != [] {
      var init := moves[..|moves| - 1];
      RunWins(s, init, grace, r, jti, at, row);
      RunIsSafe(s, init, grace);
      WinsOn(Run(s, init, grace).value, moves[|moves| - 1], grace, r, jti, at, row);
    }
  }

  /** What a rotation commits, whatever happens between its update and its commit: the token is revoked
      as of the update, and one new usable token of the same user and expiry is there. */
  lemma RotationIsExact(s: State, r: Request, moves: seq<Move>, grace: nat)
    requires Safe(s) && Possible(s, Update(r)) && Run(After(s, Update(r), grace), moves, grace).Some?
    requires Possible(Run(After(s, Update(r), grace), moves, grace).value, Commit(r))
    requires Run(After(s, Update(r), grace), moves, grace).value.reqs[r].Won?
    ensures var late := Run(After(s, Update(r), grace), moves, grace).value;
      var jti, child := s.reqs[r].jti, late.reqs[r].child.value;
      CanCommit(late, r) && jti in s.table && !s.table[jti].revoked && child !in s.born && child != jti &&
      var was := s.table[jti];
      After(late, Commit(r), grace).table
        == late.table[jti := Token(was.user, was.expiresAt, true, Some(s.now))]
                     [child := Token(was.user, was.expiresAt, false, None)]
  {
    var jti, begun := s.reqs[r].jti, After(s, Update(r), grace);
    var late := Run(begun, moves, grace).value;
    MoveIsSafe(s, Update(r), grace);
    RunIsSafe(begun, moves, grace);
    RunPersists(begun, moves, grace);
    NothingIsStuck(late, Commit(r));
    if Live(s, jti) {
      RunWins(begun, moves, grace, r, jti, s.now, s.table[jti]);
      ChildIsAlike(late, r);
    } else {
      LosersMintNothing(begun, moves, grace, r);
    }
  }

  lemma ChildIsAlike(late: State, r: Request)
    requires Safe(late) && r in late.reqs && late.reqs[r].Won? && late.reqs[r].child.Some?
    ensures var jti, child := late.reqs[r].jti, late.reqs[r].child.value;
      jti in late.table && child in late.issued && child !in late.born &&
      late.issued[child].user == late.table[jti].user && late.issued[child].expiry == late.table[jti].expiresAt
  {
    var child := late.reqs[r].child.value;
    assert Pending(late.reqs[r]) == Some(child);
    assert Locks(late, late.reqs[r]);
    assert IsOfItsLogin(late.issued, late.born, child) && IsOfItsLogin(late.issued, late.born, late.reqs[r].jti);
  }

  /** What a logout commits: its token revoked, without a time, so that no grace time follows. */
  lemma LogoutWrites(s: State, r: Request, jti: Jti, grace: nat)
    requires Safe(s) && r in s.reqs && s.reqs[r] == LoggingOut(jti)
    ensures jti in s.table && CanCommit(s, r)
    ensures After(s, Commit(r), grace).table
         == s.table[jti := Token(s.table[jti].user, s.table[jti].expiresAt, true, s.table[jti].revokedAt)]
  {
    assert Locks(s, s.reqs[r]);
  }

  /** A wipe is of the user the spent token was signed for. */
  lemma WipeIsOfItsUser(s: State, r: Request, moves: seq<Move>, grace: nat)
    requires Possible(s, ReRead(r)) && Ready(s, ReRead(r)) && Run(After(s, ReRead(r), grace), moves, grace).Some?
    requires Possible(Run(After(s, ReRead(r), grace), moves, grace).value, Snapshot(r))
    ensures Run(After(s, ReRead(r), grace), moves, grace).value.reqs[r]
         == AboutTo(Delete, s.issued[s.reqs[r].jti].user)
  {
    var begun := After(s, ReRead(r), grace);
    HeadsOn(begun, moves, grace, r, Delete, s.issued[s.reqs[r].jti].user);
  }

  /** A wipe or a logout-all leaves its user no usable token if and only if none was committed since its
      statement began, or those have been spent too. */
  lemma SweepEndsAllSessions(s: State, r: Request, moves: seq<Move>, grace: nat)
    requires Safe(s) && Possible(s, Snapshot(r)) && Run(After(s, Snapshot(r), grace), moves, grace).Some?
    requires SweepIsDone(Run(After(s, Snapshot(r), grace), moves, grace).value, r)
    ensures var late := Run(After(s, Snapshot(r), grace), moves, grace).value;
      NoneUsable(After(late, Commit(r), grace).table, s.reqs[r].user) <==>
      forall j | j in late.table && j !in s.born && late.table[j].user == s.reqs[r].user :: late.table[j].revoked
  {
    if s.reqs[r].sweep.Delete? { WipeIsExact(s, r, moves, grace); } else { LogoutAllIsExact(s, r, moves, grace); }
    var late, user := Run(After(s, Snapshot(r), grace), moves, grace).value, s.reqs[r].user;
    var after := After(late, Commit(r), grace).table;
    SameUsable(late, after, user, s.born);
  }

  lemma SameUsable(late: State, after: Table, user: int, born: set<Jti>)
    requires forall j | j in late.table && j !in born && late.table[j].user == user ::
      j in after && after[j] == late.table[j]
    requires forall j | j in after && after[j].user == user && !after[j].revoked ::
      j !in born && j in late.table && after[j] == late.table[j]
    ensures NoneUsable(after, user) <==>
      forall j | j in late.table && j !in born && late.table[j].user == user :: late.table[j].revoked
  {
  }

  predicate NoneUsable(table: Table, user: int) {
    forall j | j in table && table[j].user == user :: table[j].revoked
  }

  // --- logging out ----------------------------------------------------------------------------------

  /** No token of the login is usable. */
  predicate SessionEnded(s: State, login: Jti) {
    forall j | j in s.table && LoginOf(s.issued, j) == Some(login) :: s.table[j].revoked
  }

  /** A logout ends its session exactly when the row it updates is still unrevoked, or the session had
      ended anyway: if the token was rotated between the logout's read and its update, the new token
      stays usable although the logout reports success. */
  lemma LogoutIsExact(s: State, r: Request, jti: Jti, grace: nat)
    requires Safe(s) && r in s.reqs && s.reqs[r] == LoggingOut(jti) && CanCommit(s, r)
    ensures jti in s.issued &&
      (SessionEnded(After(s, Commit(r), grace), s.issued[jti].login) <==>
        Live(s, jti) || SessionEnded(s, s.issued[jti].login))
  {
  }
}
