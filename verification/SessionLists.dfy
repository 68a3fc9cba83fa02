/** The exact boundary of reuse detection: when a replay invalidates the whole lists of
    its user, and that it does so for good. */
module SessionLists {
  import opened Options
  import opened SessionProtocol
  import opened SessionInvariant
  import opened SessionSafety
  import opened SessionChains
  import opened SessionReplay

  // ----- How rows come to be revoked, and linked

  /** Revoked, but not by a rotation. */
  predicate RevokedInBulk(s: State, p: Id) {
    p in s.rows && s.rows[p].IsRevoked() && s.rows[p].replacedBy.None?
  }

  predicate Linked(s: State, p: Id, n: Id) {
    p in s.rows && s.rows[p].replacedBy == Some(n)
  }

  /** The step commits a bulk revoke that sets p's revocation. */
  predicate SweepsRow(s: State, a: Step, p: Id)
    requires Enabled(s, a)
  {
    a.SweepCommit? && p in s.reqs[a.r].phase.held && p in s.rows && !s.rows[p].IsRevoked()
  }

  /** The step commits a rotation of p that issues n. */
  predicate RotatesRow(s: State, a: Step, p: Id, n: Id)
    requires Enabled(s, a)
  {
    a.Commit? && s.reqs[a.r].Target() == p && s.reqs[a.r].Next() == n
  }

  lemma SweepCommitBulk(s: State, r: ReqId, p: Id)
    requires Inv(s) && Enabled(s, SweepCommit(r))
    ensures RevokedInBulk(Do(s, SweepCommit(r)), p) <==> RevokedInBulk(s, p) || SweepsRow(s, SweepCommit(r), p)
  {
    assert p in s.rows ==> RowOk(s, p);
  }

  lemma CommitBulk(s: State, r: ReqId, p: Id)
    requires Inv(s) && Enabled(s, Commit(r))
    ensures RevokedInBulk(Do(s, Commit(r)), p) <==> RevokedInBulk(s, p)
  {
    CommitFacts(s, r);
  }

  lemma BulkStep(s: State, a: Step, p: Id)
    requires Inv(s) && Enabled(s, a)
    ensures RevokedInBulk(Do(s, a), p) <==> RevokedInBulk(s, p) || SweepsRow(s, a, p)
  {
    if a.SweepCommit? {
      SweepCommitBulk(s, a.r, p);
    } else if a.Commit? {
      CommitBulk(s, a.r, p);
    } else if a.Login? {
      assert a.id in s.rows ==> RowOk(s, a.id);
    }
  }

  lemma CommitLink(s: State, r: ReqId, p: Id, n: Id)
    requires Inv(s) && Enabled(s, Commit(r))
    ensures Linked(Do(s, Commit(r)), p, n) <==> Linked(s, p, n) || RotatesRow(s, Commit(r), p, n)
  {
    CommitFacts(s, r);
  }

  lemma LinkStep(s: State, a: Step, p: Id, n: Id)
    requires Inv(s) && Enabled(s, a)
    ensures Linked(Do(s, a), p, n) <==> Linked(s, p, n) || RotatesRow(s, a, p, n)
  {
    if a.Commit? {
      CommitLink(s, a.r, p, n);
    } else {
      StepPreserves(s, a);
    }
  }

  predicate SweepsAt(s: State, steps: seq<Step>, j: nat, p: Id)
    requires Possible(s, steps)
  {
    j < |steps| && (PrefixPossible(s, steps, j); SweepsRow(After(s, steps[..j]), steps[j], p))
  }

  predicate RotatesAt(s: State, steps: seq<Step>, k: nat, p: Id, n: Id)
    requires Possible(s, steps)
  {
    k < |steps| && (PrefixPossible(s, steps, k); RotatesRow(After(s, steps[..k]), steps[k], p, n))
  }

  lemma PrefixAgrees(s: State, steps: seq<Step>, j: nat, p: Id, n: Id)
    requires Possible(s, steps) && j < |steps| - 1
    ensures SweepsAt(s, steps[..|steps| - 1], j, p) == SweepsAt(s, steps, j, p)
    ensures RotatesAt(s, steps[..|steps| - 1], j, p, n) == RotatesAt(s, steps, j, p, n)
  {
    assert steps[..|steps| - 1][..j] == steps[..j];
  }

  /** A row ends up revoked without a successor exactly if it began so or a bulk revoke
      in the run revoked it. */
  lemma {:induction false} BulkIff(s: State, steps: seq<Step>, p: Id)
    requires Inv(s) && Possible(s, steps)
    ensures RevokedInBulk(After(s, steps), p) <==> RevokedInBulk(s, p) || exists j :: SweepsAt(s, steps, j, p)
    decreases |steps|
  {
    if steps != [] {
      var n := |steps| - 1;
      var before := steps[..n];
      BulkIff(s, before, p);
      RunKept(s, before);
      BulkStep(After(s, before), steps[n], p);
      assert SweepsAt(s, steps, n, p) == SweepsRow(After(s, before), steps[n], p);
      forall j: nat | j < n
        ensures SweepsAt(s, before, j, p) == SweepsAt(s, steps, j, p)
      {
        PrefixAgrees(s, steps, j, p, 0);
      }
    }
  }

  /** A row ends up linked to n exactly if it began so or a rotation in the run linked it. */
  lemma {:induction false} LinkIff(s: State, steps: seq<Step>, p: Id, n: Id)
    requires Inv(s) && Possible(s, steps)
    ensures Linked(After(s, steps), p, n) <==> Linked(s, p, n) || exists k :: RotatesAt(s, steps, k, p, n)
    decreases |steps|
  {
    if steps != [] {
      var m := |steps| - 1;
      var before := steps[..m];
      LinkIff(s, before, p, n);
      RunKept(s, before);
      LinkStep(After(s, before), steps[m], p, n);
      assert RotatesAt(s, steps, m, p, n) == RotatesRow(After(s, before), steps[m], p, n);
      forall k: nat | k < m
        ensures RotatesAt(s, before, k, p, n) == RotatesAt(s, steps, k, p, n)
      {
        PrefixAgrees(s, steps, k, p, n);
      }
    }
  }

  // ----- Lists grow at their ends

  lemma IdsStay(s: State, a: Step)
    requires Enabled(s, a)
    ensures forall i :: i in s.ids ==> i in Do(s, a).ids && Do(s, a).ids[i] == s.ids[i]
  {
  }

  lemma {:induction false} IdsKept(s: State, steps: seq<Step>)
    requires Possible(s, steps)
    ensures forall i :: i in s.ids ==> i in After(s, steps).ids && After(s, steps).ids[i] == s.ids[i]
    decreases |steps|
  {
    if steps != [] {
      IdsKept(s, steps[..|steps| - 1]);
      IdsStay(After(s, steps[..|steps| - 1]), steps[|steps| - 1]);
    }
  }

  /** A row that was not there is linked to a row that was not there. */
  lemma SuccessorIsNew(s: State, steps: seq<Step>, t: State, x: Id)
    requires Inv(s) && Possible(s, steps) && t == After(s, steps) && Inv(t)
    requires x in t.rows && x !in s.rows && t.rows[x].replacedBy.Some?
    ensures t.rows[x].replacedBy.value !in s.rows
  {
    var y := t.rows[x].replacedBy.value;
    LinkFacts(t, x);
    if y in s.rows {
      assert RowOk(s, y);
      IdsKept(s, steps);
      PredecessorFacts(s, y);
      var p := s.reqs[s.ids[y].r].Target();
      LinkFacts(s, p);
      RevokedRowsAreFrozen(s, steps);
      LinkFacts(t, p);
      assert false;
    }
  }

  lemma {:induction false} NewStaysNew(s: State, steps: seq<Step>, t: State, x: Id)
    requires Inv(s) && Possible(s, steps) && t == After(s, steps) && Inv(t) && x in t.rows && x !in s.rows
    ensures forall p :: p in ChainFrom(t, x) ==> p !in s.rows
    decreases t.births - Age(t, x)
  {
    if t.rows[x].replacedBy.Some? {
      LinkFacts(t, x);
      SuccessorIsNew(s, steps, t, x);
      NewStaysNew(s, steps, t, t.rows[x].replacedBy.value);
    }
  }

  lemma IssuedIsNew(s: State, steps: seq<Step>, k: nat, p: Id, n: Id)
    requires Inv(s) && Possible(s, steps) && RotatesAt(s, steps, k, p, n)
    ensures n !in s.rows
  {
    PrefixPossible(s, steps, k);
    RunKept(s, steps[..k]);
    CommitFacts(After(s, steps[..k]), steps[k].r);
    RevokedRowsAreFrozen(s, steps[..k]);
  }

  // ----- The boundary

  /** Every row on the lists of these rows is revoked. */
  ghost predicate ListsRevoked(s: State, scope: set<Id>)
    requires Inv(s)
  {
    forall i, p :: i in scope && i in s.rows && p in ChainFrom(s, i) ==> p in s.rows && s.rows[p].IsRevoked()
  }

  /** Some bulk revoke of the window revokes a row that ends up on the list behind n. */
  ghost predicate SweptBehind(s: State, window: seq<Step>, t: State, n: Id)
    requires Possible(s, window) && Inv(t)
  {
    n in t.rows && exists j: nat, h :: h in ChainFrom(t, n) && SweepsAt(s, window, j, h)
  }

  /** Every rotation of a row of the scope in this window is overtaken by a bulk revoke. */
  ghost predicate RotationsOvertaken(s: State, window: seq<Step>, t: State, scope: set<Id>)
    requires Possible(s, window) && Inv(t)
  {
    forall k, p, n :: p in scope && RotatesAt(s, window, k, p, n) ==> SweptBehind(s, window, t, n)
  }

  /** A list whose rows are all revoked was ended by a bulk revoke. */
  lemma RevokedListWasSwept(s: State, window: seq<Step>, t: State, n: Id)
    requires Inv(s) && Possible(s, window) && t == After(s, window) && Inv(t) && n in t.rows && n !in s.rows
    requires forall p :: p in ChainFrom(t, n) ==> p in t.rows && t.rows[p].IsRevoked()
    ensures SweptBehind(s, window, t, n)
  {
    ChainShape(t, n);
    var list := ChainFrom(t, n);
    var last := list[|list| - 1];
    NewStaysNew(s, window, t, n);
    BulkIff(s, window, last);
    assert RevokedInBulk(t, last);
    var j :| SweepsAt(s, window, j, last);
  }

  /** A list that a bulk revoke reached is revoked from end to end: a row revoked in
      bulk is the last one, and the rows before the last are consumed. */
  lemma SweptListIsRevoked(s: State, window: seq<Step>, t: State, n: Id, p: Id)
    requires Inv(s) && Possible(s, window) && t == After(s, window) && Inv(t) && SweptBehind(s, window, t, n)
    requires p in ChainFrom(t, n)
    ensures p in t.rows && t.rows[p].IsRevoked()
  {
    var j: nat, h :| h in ChainFrom(t, n) && SweepsAt(s, window, j, h);
    ChainShape(t, n);
    var list := ChainFrom(t, n);
    var k :| 0 <= k < |list| && list[k] == h;
    var l :| 0 <= l < |list| && list[l] == p;
    assert k < |list| - 1 ==> t.rows[list[k]].replacedBy == Some(list[k + 1]);
    BulkIff(s, window, h);
    assert RevokedInBulk(t, h);
    assert k == |list| - 1;
  }

  /** No row of the scope is linked to a row outside it. */
  ghost predicate Closed(s: State, scope: set<Id>) {
    forall p :: p in scope && p in s.rows && s.rows[p].replacedBy.Some? ==> s.rows[p].replacedBy.value in scope
  }

  /** A list that starts in a revoked scope is revoked up to where it leaves it, and
      beyond if bulk revokes reached the rest. */
  lemma {:induction false} ListIsRevoked(s: State, window: seq<Step>, t: State, scope: set<Id>, i: Id, p: Id)
    requires Inv(s) && Possible(s, window) && t == After(s, window) && Inv(t) && i in scope && i in t.rows
    requires scope <= s.rows.Keys && Closed(s, scope) && forall q :: q in scope ==> q in t.rows && t.rows[q].IsRevoked()
    requires RotationsOvertaken(s, window, t, scope)
    requires p in ChainFrom(t, i)
    ensures p in t.rows && t.rows[p].IsRevoked()
    decreases t.births - Age(t, i)
  {
    if p != i {
      var x := t.rows[i].replacedBy.value;
      LinkFacts(t, i);
      if x in scope {
        ListIsRevoked(s, window, t, scope, x, p);
      } else {
        LinkIff(s, window, i, x);
        var k :| RotatesAt(s, window, k, i, x);
        SweptListIsRevoked(s, window, t, x, p);
      }
    }
  }

  /** What Sweeps gives: the scope is there and closed at the snapshot, and revoked at
      the end. */
  lemma ScopeFacts(s0: State, r: ReqId, during: seq<Step>, s2: State)
    requires Reachable(s0) && Sweeps(s0, r, during, s2)
    ensures var s1, scope := Do(s0, Snapshot(r)), ScopeAt(s0, r);
            && Inv(s1) && Inv(s2) && scope <= s1.rows.Keys && Closed(s1, scope)
            && r in s1.reqs && s1.reqs[r].HasScope() && s1.reqs[r].Scope() == scope
            && s1.reqs[r].sight.Some? && s1.reqs[r].Seen() == s0.reqs[r].Seen()
            && forall q :: q in scope ==> q in s2.rows && s2.rows[q].IsRevoked()
  {
    ReachableInv(s0);
    StepKept(s0, Snapshot(r));
    var s1, scope := Do(s0, Snapshot(r)), ScopeAt(s0, r);
    RunKept(s1, during);
    RunAdvances(s1, during, r);
    assert ReqOk(s2, r);
    forall p | p in scope && s1.rows[p].replacedBy.Some? ensures s1.rows[p].replacedBy.value in scope { LinkFacts(s1, p); }
  }

  lemma {:induction false} SameList(s: State, steps: seq<Step>, t: State, i: Id)
    requires Inv(s) && Possible(s, steps) && t == After(s, steps) && Inv(t) && i in s.rows && i in t.rows
    requires forall p :: p in ChainFrom(s, i) ==> p in s.rows && s.rows[p].IsRevoked()
    ensures ChainFrom(t, i) == ChainFrom(s, i)
    decreases s.births - Age(s, i)
  {
    RevokedRowsAreFrozen(s, steps);
    assert i in ChainFrom(s, i);
    if s.rows[i].replacedBy.Some? {
      LinkFacts(s, i);
      var x := s.rows[i].replacedBy.value;
      assert forall p :: p in ChainFrom(s, x) ==> p in ChainFrom(s, i);
      SameList(s, steps, t, x);
    }
  }

  /** No request that has consumed a row of these lists by t had not consumed it by s. */
  ghost predicate NeverConsumedAgain(s: State, t: State, scope: set<Id>)
    requires Inv(s)
  {
    forall i, q :: i in scope && i in s.rows && q in t.reqs && t.reqs[q].Consumed() && t.reqs[q].sight.Some? &&
                   t.reqs[q].Target() in ChainFrom(s, i)
                   ==> q in s.reqs && s.reqs[q].Consumed()
  }

  lemma ListsStayRevoked(s: State, steps: seq<Step>, t: State, scope: set<Id>)
    requires Inv(s) && Possible(s, steps) && t == After(s, steps) && scope <= s.rows.Keys && ListsRevoked(s, scope)
    ensures Inv(t) && scope <= t.rows.Keys && ListsRevoked(t, scope)
    ensures forall i :: i in scope ==> ChainFrom(t, i) == ChainFrom(s, i)
  {
    RunKept(s, steps);
    RevokedRowsAreFrozen(s, steps);
    forall i | i in scope
      ensures ChainFrom(t, i) == ChainFrom(s, i)
    {
      SameList(s, steps, t, i);
    }
  }

  lemma InvalidatedNeverConsumed(s: State, steps: seq<Step>, t: State, scope: set<Id>)
    requires Inv(s) && Possible(s, steps) && t == After(s, steps) && ListsRevoked(s, scope)
    ensures NeverConsumedAgain(s, t, scope)
  {
    forall i, q | i in scope && i in s.rows && q in t.reqs && t.reqs[q].Consumed() && t.reqs[q].sight.Some? &&
                  t.reqs[q].Target() in ChainFrom(s, i)
      ensures q in s.reqs && s.reqs[q].Consumed()
    {
      RevokedRowNeverConsumed(s, steps, t, t.reqs[q].Target(), q);
    }
  }

  /** Invalidated lists stay so: in every continuation they are the same lists, still
      revoked, and out of reach of every refresh. */
  lemma InvalidatedForGood(s: State, steps: seq<Step>, t: State, scope: set<Id>)
    requires Inv(s) && Possible(s, steps) && t == After(s, steps) && scope <= s.rows.Keys && ListsRevoked(s, scope)
    ensures Inv(t) && scope <= t.rows.Keys && ListsRevoked(t, scope)
    ensures forall i :: i in scope ==> ChainFrom(t, i) == ChainFrom(s, i)
    ensures NeverConsumedAgain(s, t, scope)
  {
    ListsStayRevoked(s, steps, t, scope);
    InvalidatedNeverConsumed(s, steps, t, scope);
  }

  lemma RevokedListsWereOvertaken(s: State, window: seq<Step>, t: State, scope: set<Id>)
    requires Inv(s) && Possible(s, window) && t == After(s, window) && Inv(t)
    requires ListsRevoked(t, scope)
    ensures RotationsOvertaken(s, window, t, scope)
  {
    forall k, p, n | p in scope && RotatesAt(s, window, k, p, n)
      ensures SweptBehind(s, window, t, n)
    {
      LinkIff(s, window, p, n);
      LinkFacts(t, p);
      IssuedIsNew(s, window, k, p, n);
      assert forall q :: q in ChainFrom(t, n) ==> q in ChainFrom(t, p);
      RevokedListWasSwept(s, window, t, n);
    }
  }

  lemma OvertakenListsAreRevoked(s: State, window: seq<Step>, t: State, scope: set<Id>)
    requires Inv(s) && Possible(s, window) && t == After(s, window) && Inv(t)
    requires scope <= s.rows.Keys && Closed(s, scope) && forall q :: q in scope ==> q in t.rows && t.rows[q].IsRevoked()
    requires RotationsOvertaken(s, window, t, scope)
    ensures ListsRevoked(t, scope)
  {
    forall i, p | i in scope && i in t.rows && p in ChainFrom(t, i)
      ensures p in t.rows && t.rows[p].IsRevoked()
    {
      ListIsRevoked(s, window, t, scope, i, p);
    }
  }

  /** The exact boundary of "reuse invalidates the whole chain". Let replay r take its
      snapshot in s0, and its bulk revoke be committed in s2. Then the lists of the
      user's rows, never-used last rows included, are revoked if and only if every
      rotation of one of these rows that committed in between was overtaken by another
      bulk revoke; and if so they stay the same, revoked, and out of reach of every
      refresh in every continuation (s3). */
  lemma ReplayInvalidatesListsIff(s0: State, r: ReqId, during: seq<Step>, s2: State, later: seq<Step>, s3: State)
    requires Reachable(s0) && Sweeps(s0, r, during, s2) && Possible(s2, later) && s3 == After(s2, later)
    ensures Inv(s2) && Inv(s3) && ScopeAt(s0, r) <= s2.rows.Keys && ScopeAt(s0, r) <= s3.rows.Keys
    ensures ListsRevoked(s2, ScopeAt(s0, r)) <==> RotationsOvertaken(Do(s0, Snapshot(r)), during, s2, ScopeAt(s0, r))
    ensures ListsRevoked(s2, ScopeAt(s0, r)) ==>
              && ListsRevoked(s3, ScopeAt(s0, r)) && NeverConsumedAgain(s2, s3, ScopeAt(s0, r))
              && forall i :: i in ScopeAt(s0, r) ==> ChainFrom(s3, i) == ChainFrom(s2, i)
  {
    ScopeFacts(s0, r, during, s2);
    var s1, scope := Do(s0, Snapshot(r)), ScopeAt(s0, r);
    RunKept(s2, later);
    RevokedRowsAreFrozen(s2, later);
    if ListsRevoked(s2, scope) {
      RevokedListsWereOvertaken(s1, during, s2, scope);
      InvalidatedForGood(s2, later, s3, scope);
    } else if RotationsOvertaken(s1, during, s2, scope) {
      OvertakenListsAreRevoked(s1, during, s2, scope);
    }
  }

  /** Another replay of the user commits its bulk revoke at step j. */
  predicate OtherSweepAt(s: State, steps: seq<Step>, j: nat, r: ReqId, user: UserId)
    requires Possible(s, steps)
  {
    && j < |steps| && steps[j].SweepCommit? && steps[j].r != r
    && (PrefixPossible(s, steps, j);
        var t := After(s, steps[..j]);
        t.reqs[steps[j].r].sight.Some? && t.reqs[steps[j].r].Seen().userId == user)
  }

  /** A run is the run up to any point, and the rest from there. */
  lemma {:induction false} SplitRun(s: State, steps: seq<Step>, k: nat)
    requires Possible(s, steps) && k <= |steps|
    ensures Possible(s, steps[..k]) && Possible(After(s, steps[..k]), steps[k..])
    ensures After(After(s, steps[..k]), steps[k..]) == After(s, steps)
    decreases |steps|
  {
    PrefixPossible(s, steps, k);
    if k == |steps| {
      assert steps[..k] == steps && steps[k..] == [];
    } else {
      var n := |steps| - 1;
      SplitRun(s, steps[..n], k);
      assert steps[..n][..k] == steps[..k];
      assert steps[k..][..|steps[k..]| - 1] == steps[..n][k..];
    }
  }

  /** A bulk revoke holds rows of its own scope, and of its own user. */
  lemma SweptRowFacts(s: State, steps: seq<Step>, j: nat, t: State, h: Id)
    requires Inv(s) && Possible(s, steps) && t == After(s, steps) && SweepsAt(s, steps, j, h) && Possible(s, steps[..j])
    ensures var u := After(s, steps[..j]);
            && steps[j].SweepCommit? && steps[j].r in u.reqs && u.reqs[steps[j].r].sight.Some?
            && u.reqs[steps[j].r].HasScope() && h in u.reqs[steps[j].r].Scope() && h in t.rows
            && u.reqs[steps[j].r].Seen().userId == t.rows[h].userId
  {
    PrefixPossible(s, steps, j);
    var u := After(s, steps[..j]);
    RunKept(s, steps[..j]);
    assert ReqOk(u, steps[j].r);
    SplitRun(s, steps, j);
    RevokedRowsAreFrozen(u, steps[j..]);
  }

  /** Only another replay of the same user can overtake a rotation. */
  lemma OvertakenByAnother(s0: State, r: ReqId, during: seq<Step>, s2: State, k: nat, p: Id, n: Id)
    requires Reachable(s0) && Sweeps(s0, r, during, s2) && Inv(s2)
    requires p in ScopeAt(s0, r) && RotatesAt(Do(s0, Snapshot(r)), during, k, p, n)
    requires SweptBehind(Do(s0, Snapshot(r)), during, s2, n)
    ensures exists j: nat :: OtherSweepAt(Do(s0, Snapshot(r)), during, j, r, s0.reqs[r].Seen().userId)
  {
    ScopeFacts(s0, r, during, s2);
    var s1 := Do(s0, Snapshot(r));
    var j: nat, h :| h in ChainFrom(s2, n) && SweepsAt(s1, during, j, h);
    LinkIff(s1, during, p, n);
    IssuedIsNew(s1, during, k, p, n);
    NewStaysNew(s1, during, s2, n);
    ChainShape(s2, n);
    LinkFacts(s2, p);
    RevokedRowsAreFrozen(s1, during);
    PrefixPossible(s1, during, j);
    SweptRowFacts(s1, during, j, s2, h);
    RunAdvances(s1, during[..j], r);
    RunKept(s1, during[..j]);
    assert ReqOk(After(s1, during[..j]), r);
    assert OtherSweepAt(s1, during, j, r, s0.reqs[r].Seen().userId);
  }

  /** So when no other replay of the user commits its bulk revoke in between, the lists
      are revoked if and only if no rotation of one of the rows commits in between. */
  lemma LoneReplayInvalidatesListsIff(s0: State, r: ReqId, during: seq<Step>, s2: State)
    requires Reachable(s0) && Sweeps(s0, r, during, s2)
    requires forall j: nat :: !OtherSweepAt(Do(s0, Snapshot(r)), during, j, r, s0.reqs[r].Seen().userId)
    ensures Inv(s2)
    ensures ListsRevoked(s2, ScopeAt(s0, r)) <==>
            forall k, p, n :: p in ScopeAt(s0, r) ==> !RotatesAt(Do(s0, Snapshot(r)), during, k, p, n)
  {
    ReplayInvalidatesListsIff(s0, r, during, s2, [], s2);
    var s1, scope := Do(s0, Snapshot(r)), ScopeAt(s0, r);
    forall k, p, n | p in scope && RotatesAt(s1, during, k, p, n)
      ensures !SweptBehind(s1, during, s2, n)
    {
      if SweptBehind(s1, during, s2, n) {
        OvertakenByAnother(s0, r, during, s2, k, p, n);
      }
    }
  }
}
