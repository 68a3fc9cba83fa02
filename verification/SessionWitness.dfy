/** Concrete runs that mark the limits of the replay guarantee. */
module SessionWitness {
  import opened Options
  import opened SessionProtocol
  import opened SessionInvariant
  import opened SessionSafety
  import opened SessionChains
  import opened SessionReplay
  import opened SessionLists
  import opened SessionKnots
  import opened SessionSerial

  const EXPIRY: Time := 100

  const START: State := Initial(0, {1})

  function OfferOf(newToken: Token, next: Id): Offer {
    Offer(0, newToken, EXPIRY, next)
  }

  /** User 1 logged in and refreshed once: row 0 is consumed, row 1 is live. */
  predicate OneRotation(s: State) {
    && s.clock == 0 && s.users == {1} && s.locks.Keys == {} && s.reqs.Keys == {0} && s.ids.Keys == {0, 1} && s.tokens.Keys == {10, 11}
    && s.rows.Keys == {0, 1} && s.reqs[0].phase == Refreshed(1)
    && s.rows[0] == Row(1, Sha256(10), EXPIRY, Some(0), Some(1))
    && s.rows[1] == Row(1, Sha256(11), EXPIRY, None, None)
  }

  lemma ReachOneRotation() returns (steps: seq<Step>, s: State)
    ensures Possible(START, steps) && After(START, steps) == s
    ensures OneRotation(s)
  {
    var start, login := START, Login(1, 0, 10, EXPIRY);
    Extended(start, [], login);
    var a := Do(start, login);
    var more, b := OpenAlone(a, 0, 10, OfferOf(11, 1), 0);
    var rest, c := RotateAlone(b, 0, true);
    Chained(a, more, rest);
    Chained(start, [] + [login], more + rest);
    steps, s := [] + [login] + (more + rest), c;
  }

  /** A second request on row i opens: it is at its decision's outcome. */
  lemma OpenNext(s: State, r: ReqId, presented: Token, newToken: Token, next: Id, i: Id)
      returns (steps: seq<Step>, t: State)
    requires CanRun(s, r, presented, OfferOf(newToken, next), i)
    ensures Possible(s, steps) && After(s, steps) == t
    ensures r in t.reqs && t.reqs == s.reqs[r := t.reqs[r]] && t.reqs[r].sight.Some?
    ensures t.reqs[r].Target() == i && t.reqs[r].Seen() == s.rows[i]
    ensures t.reqs[r].newToken == newToken && t.reqs[r].expiresAt == EXPIRY && t.reqs[r].decidedAt == s.clock
    ensures t.reqs[r].phase == Decision(s.rows[i], s.clock, next)
    ensures t.rows == s.rows && t.clock == s.clock && t.users == s.users && t.locks == s.locks[i := Transaction(r)]
    ensures t.tokens.Keys == s.tokens.Keys + {newToken} && t.ids.Keys <= s.ids.Keys + {next}
  {
    steps, t := OpenAlone(s, r, presented, OfferOf(newToken, next), i);
  }

  lemma NextLogin(s0: State, before: seq<Step>, s: State, user: UserId, id: Id, token: Token)
      returns (steps: seq<Step>, t: State)
    requires Possible(s0, before) && After(s0, before) == s && user in s.users && id !in s.ids && token !in s.tokens
    ensures Possible(s0, steps) && After(s0, steps) == t
    ensures t.rows == s.rows[id := Row(user, Sha256(token), EXPIRY, None, None)] && t.clock == s.clock && t.users == s.users
    ensures t.reqs == s.reqs && t.locks == s.locks
    ensures t.ids.Keys == s.ids.Keys + {id} && t.tokens.Keys == s.tokens.Keys + {token}
  {
    Extended(s0, before, Login(user, id, token, EXPIRY));
    steps, t := before + [Login(user, id, token, EXPIRY)], Do(s, Login(user, id, token, EXPIRY));
  }

  lemma NextSnapshot(s0: State, before: seq<Step>, s: State, r: ReqId) returns (steps: seq<Step>, t: State)
    requires Possible(s0, before) && After(s0, before) == s && Enabled(s, Snapshot(r))
    ensures Possible(s0, steps) && After(s0, steps) == t && t == Do(s, Snapshot(r))
    ensures t == s.(reqs := t.reqs) && t.reqs == s.reqs[r := t.reqs[r]]
    ensures var user := s.reqs[r].Seen().userId;
            t.reqs[r] == s.reqs[r].(phase := Sweeping(s.clock, RowsOf(s.rows, user), LiveRowsOf(s.rows, user), {}))
  {
    Extended(s0, before, Snapshot(r));
    steps, t := before + [Snapshot(r)], Do(s, Snapshot(r));
  }

  lemma NextSweepRow(s0: State, before: seq<Step>, s: State, r: ReqId, i: Id) returns (steps: seq<Step>, t: State)
    requires Possible(s0, before) && After(s0, before) == s && Enabled(s, SweepRow(r, i))
    ensures Possible(s0, steps) && After(s0, steps) == t
    ensures t == s.(reqs := t.reqs, locks := s.locks[i := Statement(r)])
    ensures r in t.reqs && t.reqs == s.reqs[r := t.reqs[r]]
    ensures var p := s.reqs[r].phase;
            t.reqs[r] == s.reqs[r].(phase := Sweeping(p.at, p.scope, p.todo - {i}, p.held + {i}))
  {
    SweepRowShape(s, r, i);
    Extended(s0, before, SweepRow(r, i));
    steps, t := before + [SweepRow(r, i)], Do(s, SweepRow(r, i));
  }

  /** The bulk UPDATE commits and the replay is answered. */
  lemma NextReuseAnswered(s0: State, before: seq<Step>, s: State, r: ReqId) returns (steps: seq<Step>, t: State)
    requires Possible(s0, before) && After(s0, before) == s && Enabled(s, SweepCommit(r)) && s.reqs[r].sight.Some?
    ensures Possible(s0, steps) && After(s0, steps) == t
    ensures t.rows == SweptRows(s.rows, s.reqs[r].phase.held, s.reqs[r].phase.at) && t.clock == s.clock && t.users == s.users
    ensures t.locks == (s.locks - s.reqs[r].phase.held) - {s.reqs[r].Target()}
    ensures r in t.reqs && t.reqs == s.reqs[r := t.reqs[r]] && t.reqs[r].phase.ReuseAnswered?
    ensures t.reqs[r].sight == s.reqs[r].sight && t.ids == s.ids && t.tokens == s.tokens
  {
    Extended(s0, before, SweepCommit(r));
    var u := Do(s, SweepCommit(r));
    Extended(s0, before + [SweepCommit(r)], Rollback(r));
    steps, t := before + [SweepCommit(r)] + [Rollback(r)], Do(u, Rollback(r));
    assert t.reqs == s.reqs[r := t.reqs[r]];
  }

  /** Replay 1 of the consumed row 0 has taken its snapshot; nothing else is open. */
  predicate SnapshotTaken(s: State) {
    && s.clock == 0 && s.users == {1} && s.locks.Keys == {0} && s.reqs.Keys == {0, 1}
    && s.ids.Keys <= {0, 1, 2} && s.tokens.Keys == {10, 11, 12}
    && s.rows.Keys == {0, 1}
    && s.rows[0] == Row(1, Sha256(10), EXPIRY, Some(0), Some(1))
    && s.rows[1] == Row(1, Sha256(11), EXPIRY, None, None)
    && s.reqs[1].sight.Some? && s.reqs[1].Target() == 0
    && s.reqs[1].phase == Sweeping(0, {0, 1}, {1}, {})
  }

  /** The same replay just before its snapshot. */
  predicate ReplaySeen(s: State) {
    && s.clock == 0 && s.users == {1} && s.locks.Keys == {0} && s.reqs.Keys == {0, 1}
    && s.ids.Keys <= {0, 1, 2} && s.tokens.Keys == {10, 11, 12}
    && s.rows.Keys == {0, 1}
    && s.rows[0] == Row(1, Sha256(10), EXPIRY, Some(0), Some(1))
    && s.rows[1] == Row(1, Sha256(11), EXPIRY, None, None)
    && s.reqs[0].phase == Refreshed(1)
    && s.reqs[1].sight.Some? && s.reqs[1].Target() == 0 && s.reqs[1].Seen() == s.rows[0] && s.reqs[1].phase == Replaying
  }

  lemma ReachReplay() returns (steps: seq<Step>, s: State)
    ensures Possible(START, steps) && After(START, steps) == s
    ensures ReplaySeen(s)
  {
    var a, open;
    steps, a := ReachOneRotation();
    open, s := OpenNext(a, 1, 10, 12, 2, 0);
    Chained(START, steps, open);
    steps := steps + open;
  }

  lemma ReachSnapshot() returns (s0: State)
    ensures Reachable(s0) && Enabled(s0, Snapshot(1))
    ensures forall p :: p in s0.reqs && s0.reqs[p].InTransaction() ==> p == 1
    ensures s0.reqs[1].Target() == 0
    ensures SnapshotTaken(Do(s0, Snapshot(1)))
  {
    var steps;
    steps, s0 := ReachReplay();
    var _, b := NextSnapshot(START, steps, s0, 1);
    assert b.reqs[1].phase == Sweeping(0, {0, 1}, {1}, {});
  }

  /** After the snapshot, request 2 rotates row 1 to row 3. */
  predicate RotatedUnderneath(s: State) {
    && s.clock == 0 && s.users == {1} && s.locks.Keys == {0} && s.reqs.Keys == {0, 1, 2}
    && s.ids.Keys <= {0, 1, 2, 3} && s.tokens.Keys == {10, 11, 12, 13}
    && s.rows.Keys == {0, 1, 3}
    && s.rows[0] == Row(1, Sha256(10), EXPIRY, Some(0), Some(1))
    && s.rows[1] == Row(1, Sha256(11), EXPIRY, Some(0), Some(3))
    && s.rows[3] == Row(1, Sha256(13), EXPIRY, None, None)
    && s.reqs[1].sight.Some? && s.reqs[1].Target() == 0
    && s.reqs[1].phase == Sweeping(0, {0, 1}, {1}, {})
  }

  /** Request 2 holds row 1 and has built its successor, row 3. */
  predicate OpenUnderneath(s: State) {
    && s.clock == 0 && s.users == {1} && s.locks.Keys == {0, 1} && s.reqs.Keys == {0, 1, 2}
    && s.ids.Keys <= {0, 1, 2, 3} && s.tokens.Keys == {10, 11, 12, 13}
    && s.rows.Keys == {0, 1}
    && s.rows[0] == Row(1, Sha256(10), EXPIRY, Some(0), Some(1))
    && s.reqs[1].sight.Some? && s.reqs[1].Target() == 0
    && s.reqs[1].phase == Sweeping(0, {0, 1}, {1}, {})
    && s.reqs[2].sight.Some? && s.reqs[2].Target() == 1 && s.reqs[2].Seen() == Row(1, Sha256(11), EXPIRY, None, None)
    && s.reqs[2].newToken == 13 && s.reqs[2].expiresAt == EXPIRY && s.reqs[2].decidedAt == 0 && s.reqs[2].phase == Built(3)
  }

  lemma RotateOpened(s: State) returns (steps: seq<Step>, t: State)
    requires OpenUnderneath(s)
    ensures Possible(s, steps) && After(s, steps) == t
    ensures RotatedUnderneath(t)
  {
    steps, t := RotateAlone(s, 2, true);
  }

  lemma RotateUnderneath(s: State) returns (steps: seq<Step>, t: State)
    requires SnapshotTaken(s)
    ensures Possible(s, steps) && After(s, steps) == t
    ensures RotatedUnderneath(t)
  {
    var open, a := OpenNext(s, 2, 11, 13, 3, 1);
    var rotate;
    rotate, t := RotateOpened(a);
    Chained(s, open, rotate);
    steps := open + rotate;
  }

  lemma SweepTooLate(s: State) returns (steps: seq<Step>, t: State)
    requires RotatedUnderneath(s)
    ensures Possible(s, steps) && After(s, steps) == t
    ensures t.rows == s.rows && t.clock == 0 && t.users == {1} && t.locks.Keys == {} && t.reqs.Keys == {0, 1, 2}
    ensures t.reqs[1].phase.ReuseAnswered? && t.ids == s.ids && t.tokens == s.tokens
  {
    var a;
    steps, a := NextSweepRow(s, [], s, 1, 1);
    assert a.reqs[1].phase == Sweeping(0, {0, 1}, {}, {1});
    steps, t := NextReuseAnswered(s, steps, a, 1);
    assert SweptRows(s.rows, {1}, 0) == s.rows;
  }

  lemma LaterRefresh(s: State) returns (steps: seq<Step>, t: State)
    requires s.clock == 0 && s.users == {1} && s.locks.Keys == {} && s.reqs.Keys == {0, 1, 2}
    requires s.ids.Keys <= {0, 1, 2, 3} && s.tokens.Keys == {10, 11, 12, 13}
    requires 3 in s.rows && s.rows[3] == Row(1, Sha256(13), EXPIRY, None, None)
    ensures Possible(s, steps) && After(s, steps) == t
    ensures 3 in t.reqs && t.reqs[3].phase == Refreshed(4) && t.reqs[3].sight.Some? && t.reqs[3].Target() == 3
  {
    var open, a := OpenNext(s, 3, 13, 14, 4, 3);
    var rotate;
    rotate, t := RotateAlone(a, 3, true);
    Chained(s, open, rotate);
    steps := open + rotate;
  }

  /** A replay's snapshot does not cover a rotation that starts after it, even when
      no other transaction is open at the snapshot. In the run returned, replay r
      takes its snapshot in s0 and is answered in s1; yet row n, the last of the
      replayed list, is live, and a later refresh of it succeeds in s2. */
  lemma LateRotationEscapes()
      returns (s0: State, r: ReqId, during: seq<Step>, s1: State, n: Id, later: seq<Step>, s2: State, q: ReqId)
    ensures Reachable(s0) && Enabled(s0, Snapshot(r))
    ensures forall p :: p in s0.reqs && s0.reqs[p].InTransaction() ==> p == r
    ensures Possible(Do(s0, Snapshot(r)), during) && After(Do(s0, Snapshot(r)), during) == s1
    ensures r in s1.reqs && s1.reqs[r].phase.ReuseAnswered?
    ensures n in s1.rows && !s1.rows[n].IsRevoked()
    ensures s0.reqs[r].Target() in s1.rows
    ensures var link := s1.rows[s0.reqs[r].Target()].replacedBy;
            link.Some? && link.value in s1.rows && s1.rows[link.value].replacedBy == Some(n)
    ensures Sweeps(s0, r, during, s1) && Inv(s1) && !ListsRevoked(s1, ScopeAt(s0, r))
    ensures Possible(s1, later) && After(s1, later) == s2
    ensures q in s2.reqs && s2.reqs[q].phase.Refreshed? && s2.reqs[q].sight.Some? && s2.reqs[q].Target() == n
  {
    r, n, q := 1, 3, 3;
    s0 := ReachSnapshot();
    var rotation, a := RotateUnderneath(Do(s0, Snapshot(1)));
    var sweep;
    sweep, s1 := SweepTooLate(a);
    Chained(Do(s0, Snapshot(1)), rotation, sweep);
    during := rotation + sweep;
    ReachableInv(s0);
    StepKept(s0, Snapshot(1));
    RunKept(Do(s0, Snapshot(1)), during);
    OnTheList(s1, 0, 1, 3);
    assert 0 in ScopeAt(s0, 1);
    later, s2 := LaterRefresh(s1);
  }

  lemma OnTheList(s: State, i: Id, p: Id, n: Id)
    requires Inv(s) && i in s.rows && s.rows[i].replacedBy == Some(p) && p in s.rows && s.rows[p].replacedBy == Some(n)
    ensures n in ChainFrom(s, i)
  {
    ChainShape(s, i);
    assert i in ChainFrom(s, i);
    ChainClosed(s, i, i);
    ChainClosed(s, i, p);
  }

  /** Replay 3 of row 1, which has been rotated underneath replay 1, sweeps the row that
      the rotation issued, and is answered. */
  predicate Overtaken(s: State) {
    && s.clock == 0 && s.users == {1} && s.locks.Keys == {0} && 1 in s.reqs
    && s.rows.Keys == {0, 1, 3} && s.rows[0].IsRevoked() && s.rows[1].IsRevoked() && s.rows[3].IsRevoked()
    && s.rows[1] == Row(1, Sha256(11), EXPIRY, Some(0), Some(3))
    && s.reqs[1].sight.Some? && s.reqs[1].Target() == 0
    && s.reqs[1].phase == Sweeping(0, {0, 1}, {1}, {})
  }

  /** Replay 3 has taken its snapshot. */
  predicate Overtaking(s: State) {
    && s.clock == 0 && s.users == {1} && s.locks.Keys == {0, 1} && s.locks[1] == Transaction(3) && s.reqs.Keys == {0, 1, 2, 3}
    && s.rows.Keys == {0, 1, 3}
    && s.rows[0] == Row(1, Sha256(10), EXPIRY, Some(0), Some(1))
    && s.rows[1] == Row(1, Sha256(11), EXPIRY, Some(0), Some(3))
    && s.rows[3] == Row(1, Sha256(13), EXPIRY, None, None)
    && s.reqs[1].sight.Some? && s.reqs[1].Target() == 0
    && s.reqs[1].phase == Sweeping(0, {0, 1}, {1}, {})
    && s.reqs[3].sight.Some? && s.reqs[3].Target() == 1
    && s.reqs[3].phase == Sweeping(0, {0, 1, 3}, {3}, {})
  }

  lemma OvertakingBegins(s: State) returns (steps: seq<Step>, t: State)
    requires RotatedUnderneath(s)
    ensures Possible(s, steps) && After(s, steps) == t
    ensures Overtaking(t)
  {
    var a;
    steps, a := OpenNext(s, 3, 11, 14, 4, 1);
    steps, t := NextSnapshot(s, steps, a, 3);
    assert RowsOf(a.rows, 1) == {0, 1, 3} && LiveRowsOf(a.rows, 1) == {3};
  }

  lemma OvertakingEnds(s: State) returns (steps: seq<Step>, t: State)
    requires Overtaking(s)
    ensures Possible(s, steps) && After(s, steps) == t
    ensures Overtaken(t)
  {
    var a;
    steps, a := NextSweepRow(s, [], s, 3, 3);
    assert a.reqs[3].phase == Sweeping(0, {0, 1, 3}, {}, {3});
    steps, t := NextReuseAnswered(s, steps, a, 3);
  }

  lemma SweepAfterOvertaken(s: State) returns (steps: seq<Step>, t: State)
    requires Overtaken(s)
    ensures Possible(s, steps) && After(s, steps) == t
    ensures t.rows == s.rows && 1 in t.reqs && t.reqs[1].phase.ReuseAnswered?
  {
    var a;
    steps, a := NextSweepRow(s, [], s, 1, 1);
    assert a.reqs[1].phase == Sweeping(0, {0, 1}, {}, {1});
    steps, t := NextReuseAnswered(s, steps, a, 1);
    assert SweptRows(s.rows, {1}, 0) == s.rows;
  }

  /** From the snapshot of replay 1 to its answer, with the rotation and the overtaking
      replay in between. */
  lemma OvertakenWindow(s1: State) returns (during: seq<Step>, s2: State)
    requires SnapshotTaken(s1)
    ensures Possible(s1, during) && After(s1, during) == s2
    ensures s2.rows.Keys == {0, 1, 3} && s2.rows[0].IsRevoked() && s2.rows[1].IsRevoked() && s2.rows[3].IsRevoked()
    ensures s2.rows[1].replacedBy == Some(3) && 1 in s2.reqs && s2.reqs[1].phase.ReuseAnswered?
  {
    var a, b, c, begins, ends, rest;
    during, a := RotateUnderneath(s1);
    begins, b := OvertakingBegins(a);
    Chained(s1, during, begins);
    during := during + begins;
    ends, c := OvertakingEnds(b);
    Chained(s1, during, ends);
    during := during + ends;
    rest, s2 := SweepAfterOvertaken(c);
    Chained(s1, during, rest);
    during := during + rest;
  }

  /** That a rotation commits in the window of a replay does not alone spoil the
      invalidation: in the run returned a rotation of row p does, another replay
      overtakes it, and the lists are revoked. */
  lemma RotationCanBeOvertaken() returns (s0: State, r: ReqId, during: seq<Step>, s2: State, k: nat, p: Id, n: Id)
    ensures Reachable(s0) && Sweeps(s0, r, during, s2) && Inv(s2)
    ensures p in ScopeAt(s0, r) && RotatesAt(Do(s0, Snapshot(r)), during, k, p, n)
    ensures RotationsOvertaken(Do(s0, Snapshot(r)), during, s2, ScopeAt(s0, r)) && ListsRevoked(s2, ScopeAt(s0, r))
  {
    r, p, n := 1, 1, 3;
    s0 := ReachSnapshot();
    during, s2 := OvertakenWindow(Do(s0, Snapshot(1)));
    k := OvertakenFacts(s0, during, s2);
  }

  lemma OvertakenFacts(s0: State, during: seq<Step>, s2: State) returns (k: nat)
    requires Reachable(s0) && Sweeps(s0, 1, during, s2) && SnapshotTaken(Do(s0, Snapshot(1)))
    requires forall i :: i in s2.rows ==> s2.rows[i].IsRevoked()
    requires Linked(s2, 1, 3)
    ensures Inv(s2) && 1 in ScopeAt(s0, 1) && RotatesAt(Do(s0, Snapshot(1)), during, k, 1, 3)
    ensures RotationsOvertaken(Do(s0, Snapshot(1)), during, s2, ScopeAt(s0, 1)) && ListsRevoked(s2, ScopeAt(s0, 1))
  {
    var s1 := Do(s0, Snapshot(1));
    ScopeFacts(s0, 1, during, s2);
    k := IssuedInWindow(s1, during, 1, 3);
    AllRevoked(s2, ScopeAt(s0, 1));
    RevokedListsWereOvertaken(s1, during, s2, ScopeAt(s0, 1));
  }

  lemma IssuedInWindow(s: State, steps: seq<Step>, p: Id, n: Id) returns (k: nat)
    requires Inv(s) && Possible(s, steps) && Linked(After(s, steps), p, n) && !Linked(s, p, n)
    ensures RotatesAt(s, steps, k, p, n)
  {
    LinkIff(s, steps, p, n);
    k :| RotatesAt(s, steps, k, p, n);
  }

  lemma AllRevoked(s: State, scope: set<Id>)
    requires Inv(s) && forall i :: i in s.rows ==> s.rows[i].IsRevoked()
    ensures ListsRevoked(s, scope)
  {
    forall i, p | i in scope && i in s.rows && p in ChainFrom(s, i)
      ensures p in s.rows && s.rows[p].IsRevoked()
    {
      ChainShape(s, i);
    }
  }

  // ----- Two replays can wait for each other

  /** User 1 has the list of rows 0 and 1, and a second list that is row 5. */
  predicate ThreeRows(s: State) {
    && s.clock == 0 && s.users == {1} && s.rows.Keys == {0, 1, 5}
    && s.rows[0] == Row(1, Sha256(10), EXPIRY, Some(0), Some(1))
    && s.rows[1] == Row(1, Sha256(11), EXPIRY, None, None)
    && s.rows[5] == Row(1, Sha256(50), EXPIRY, None, None)
  }

  /** Rotation 1 holds row 1 and has built its successor, row 2. */
  predicate RotationOpen(s: State) {
    && 1 in s.reqs && s.reqs[1].sight.Some? && s.reqs[1].Target() == 1
    && s.reqs[1].Seen() == Row(1, Sha256(11), EXPIRY, None, None)
    && s.reqs[1].phase == Built(2) && s.reqs[1].newToken == 12 && s.reqs[1].expiresAt == EXPIRY && s.reqs[1].decidedAt == 0
  }

  lemma ReachSecondList() returns (steps: seq<Step>, s: State)
    ensures Possible(START, steps) && After(START, steps) == s
    ensures ThreeRows(s) && s.locks.Keys == {} && s.reqs.Keys == {0}
    ensures s.ids.Keys <= {0, 1, 5} && s.tokens.Keys == {10, 11, 50}
  {
    steps, s := ReachOneRotation();
    steps, s := NextLogin(START, steps, s, 1, 5, 50);
  }

  lemma ReachRotationOpen() returns (steps: seq<Step>, s: State)
    ensures Possible(START, steps) && After(START, steps) == s
    ensures ThreeRows(s) && RotationOpen(s) && s.locks.Keys == {1} && s.reqs.Keys == {0, 1}
    ensures s.ids.Keys <= {0, 1, 2, 5} && s.tokens.Keys == {10, 11, 12, 50}
  {
    var a, open;
    steps, a := ReachSecondList();
    open, s := OpenNext(a, 1, 11, 12, 2, 1);
    Chained(START, steps, open);
    steps := steps + open;
  }

  lemma ReachReplayOpen() returns (steps: seq<Step>, s: State)
    ensures Possible(START, steps) && After(START, steps) == s
    ensures ThreeRows(s) && RotationOpen(s) && s.locks.Keys == {0, 1} && s.reqs.Keys == {0, 1, 2}
    ensures s.ids.Keys <= {0, 1, 2, 3, 5} && s.tokens.Keys == {10, 11, 12, 13, 50}
    ensures s.reqs[2].phase == Replaying && s.reqs[2].sight.Some? && s.reqs[2].Seen() == s.rows[0]
  {
    var a, open;
    steps, a := ReachRotationOpen();
    open, s := OpenNext(a, 2, 10, 13, 3, 0);
    Chained(START, steps, open);
    steps := steps + open;
  }

  /** Replay 2 of row 0 has taken its snapshot. */
  lemma ReachFirstSnapshot() returns (steps: seq<Step>, s: State)
    ensures Possible(START, steps) && After(START, steps) == s
    ensures ThreeRows(s) && RotationOpen(s) && s.locks.Keys == {0, 1} && s.reqs.Keys == {0, 1, 2}
    ensures s.ids.Keys <= {0, 1, 2, 3, 5} && s.tokens.Keys == {10, 11, 12, 13, 50}
    ensures s.reqs[2].phase == Sweeping(0, {0, 1, 5}, {1, 5}, {})
  {
    var a;
    steps, a := ReachReplayOpen();
    steps, s := NextSnapshot(START, steps, a, 2);
    assert RowsOf(a.rows, 1) == {0, 1, 5} && LiveRowsOf(a.rows, 1) == {1, 5};
  }

  /** Replay 2 of row 0 holds row 5 and still has row 1 to do, which rotation 1 holds. */
  lemma ReachFirstReplay() returns (steps: seq<Step>, s: State)
    ensures Possible(START, steps) && After(START, steps) == s
    ensures ThreeRows(s) && RotationOpen(s) && s.locks.Keys == {0, 1, 5} && s.reqs.Keys == {0, 1, 2}
    ensures s.ids.Keys <= {0, 1, 2, 3, 5} && s.tokens.Keys == {10, 11, 12, 13, 50}
    ensures s.reqs[2].phase == Sweeping(0, {0, 1, 5}, {1}, {5}) && s.locks[5] == Statement(2)
  {
    var a;
    steps, a := ReachFirstSnapshot();
    steps, s := NextSweepRow(START, steps, a, 2, 5);
    assert {1, 5} - {5} == {1};
  }

  /** Four rows, of which 2 and 5 are live. */
  predicate FourRows(s: State) {
    && s.clock == 0 && s.users == {1} && s.rows.Keys == {0, 1, 2, 5}
    && s.rows[0] == Row(1, Sha256(10), EXPIRY, Some(0), Some(1))
    && s.rows[1] == Row(1, Sha256(11), EXPIRY, Some(0), Some(2))
    && s.rows[2] == Row(1, Sha256(12), EXPIRY, None, None)
    && s.rows[5] == Row(1, Sha256(50), EXPIRY, None, None)
  }

  /** Rotation 1 commits and unlocks row 1. */
  lemma ReachRotationDone() returns (steps: seq<Step>, s: State)
    ensures Possible(START, steps) && After(START, steps) == s
    ensures FourRows(s) && s.reqs.Keys == {0, 1, 2}
    ensures s.ids.Keys <= {0, 1, 2, 3, 5} && s.tokens.Keys == {10, 11, 12, 13, 50}
    ensures s.locks.Keys == {0, 5} && s.locks[5] == Statement(2)
    ensures s.reqs[2].phase == Sweeping(0, {0, 1, 5}, {1}, {5})
  {
    var a, rotate;
    steps, a := ReachFirstReplay();
    rotate, s := RotateAlone(a, 1, true);
    Chained(START, steps, rotate);
    steps := steps + rotate;
  }

  /** Replay 3 locks the row that rotation 1 consumed. */
  lemma ReachSecondReplay() returns (steps: seq<Step>, s: State)
    ensures Possible(START, steps) && After(START, steps) == s
    ensures FourRows(s) && s.reqs.Keys == {0, 1, 2, 3}
    ensures s.locks.Keys == {0, 1, 5} && s.locks[1] == Transaction(3) && s.locks[5] == Statement(2)
    ensures s.reqs[2].phase == Sweeping(0, {0, 1, 5}, {1}, {5})
    ensures s.reqs[3].phase == Replaying && s.reqs[3].sight.Some? && s.reqs[3].Seen() == s.rows[1]
  {
    var a, open;
    steps, a := ReachRotationDone();
    open, s := OpenNext(a, 3, 11, 14, 4, 1);
    Chained(START, steps, open);
    steps := steps + open;
  }

  /** Two replays of one user can block each other for good. Replay 2 waits for the row
      that replay 3's transaction holds; replay 3 has not begun its bulk revoke, and will
      wait for the row that replay 2's statement holds. Only the handlers connect the two
      waits. */
  lemma ReplaysCanBlockEachOther() returns (s: State, q: ReqId, r: ReqId)
    ensures Reachable(s) && q != r && Knot(s, {q, r})
    ensures q in s.reqs && r in s.reqs && s.reqs[q].phase.Sweeping? && s.reqs[r].phase.Replaying?
    ensures !CanBeAnswered(s, q) && !CanBeAnswered(s, r)
  {
    var steps;
    steps, s := ReachSecondReplay();
    q, r := 2, 3;
    ReachableInv(s);
    assert ReqOk(s, 2);
    assert LiveRowsOf(s.rows, 1) == {2, 5};
    assert 1 in Wanted(s, 2) && 5 in Wanted(s, 3);
    assert WaitsFor(s, 2, {2, 3}) && WaitsFor(s, 3, {2, 3});
    AnsweredIffInNoKnot(s, 2);
    AnsweredIffInNoKnot(s, 3);
  }
}
