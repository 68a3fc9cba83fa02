/** What a detected replay guarantees, what it does not, and what it waits for. */
module SessionReplay {
  import opened Options
  import opened SessionProtocol
  import opened SessionInvariant
  import opened SessionSafety

  // ----- Coverage

  /** From q to its later record p: a consumption stays, and a replay keeps its scope
      until it is cut short. */
  predicate Advanced(q: Request, p: Request) {
    && (q.Consumed() ==> p.Consumed() && p.sight == q.sight)
    && (q.HasScope() ==> p.sight == q.sight && (p.phase.Crashed? || (p.HasScope() && p.Scope() == q.Scope())))
    && (q.phase.Crashed? ==> p.phase.Crashed? && p.sight == q.sight)
  }

  // One lemma for each stage of a request.
  lemma OpeningAdvances(s: State, a: Step, q: ReqId)
    requires Enabled(s, a) && q in s.reqs && (a.Tick? || a.Login? || a.Arrive? || a.Lock?)
    ensures q in Do(s, a).reqs && Advanced(s.reqs[q], Do(s, a).reqs[q])
  {
    match a
    case Tick(_) =>
    case Login(_, _, _, _) =>
    case Arrive(_, _, _, _) =>
    case Lock(r, Some(i)) =>
    case Lock(r, None) =>
  }

  lemma DecideAdvances(s: State, r: ReqId, next: Id, q: ReqId)
    requires Enabled(s, Decide(r, next)) && q in s.reqs
    ensures var t := Do(s, Decide(r, next)); q in t.reqs && Advanced(s.reqs[q], t.reqs[q])
  {
  }

  lemma WriteAdvances(s: State, a: Step, q: ReqId)
    requires Enabled(s, a) && q in s.reqs && (a.Insert? || a.Update? || a.Answer?)
    ensures q in Do(s, a).reqs && Advanced(s.reqs[q], Do(s, a).reqs[q])
  {
    match a
    case Insert(r) =>
    case Update(r) =>
    case Answer(r, signed) =>
  }

  lemma CommitAdvances(s: State, r: ReqId, q: ReqId)
    requires Enabled(s, Commit(r)) && q in s.reqs
    ensures var t := Do(s, Commit(r)); q in t.reqs && Advanced(s.reqs[q], t.reqs[q])
  {
  }

  lemma SweepAdvances(s: State, a: Step, q: ReqId)
    requires Enabled(s, a) && q in s.reqs && (a.Snapshot? || a.SweepRow?)
    ensures q in Do(s, a).reqs && Advanced(s.reqs[q], Do(s, a).reqs[q])
  {
    match a
    case Snapshot(r) =>
    case SweepRow(r, id) =>
  }

  lemma SweepCommitAdvances(s: State, r: ReqId, q: ReqId)
    requires Enabled(s, SweepCommit(r)) && q in s.reqs
    ensures var t := Do(s, SweepCommit(r)); q in t.reqs && Advanced(s.reqs[q], t.reqs[q])
  {
  }

  lemma RollbackAdvances(s: State, r: ReqId, q: ReqId)
    requires Enabled(s, Rollback(r)) && q in s.reqs
    ensures var t := Do(s, Rollback(r)); q in t.reqs && Advanced(s.reqs[q], t.reqs[q])
  {
    var t := Do(s, Rollback(r));
    if q != r {
      assert t.reqs[q] == s.reqs[q];
    } else if s.reqs[r].phase.Swept? {
      assert t.reqs[r] == s.reqs[r].(phase := ReuseAnswered(s.reqs[r].phase.scope));
    } else {
      assert t.reqs[r] == s.reqs[r].(phase := ExpiredAnswered);
    }
  }

  lemma CrashAdvances(s: State, r: ReqId, q: ReqId)
    requires Enabled(s, Crash(r)) && q in s.reqs
    ensures var t := Do(s, Crash(r)); q in t.reqs && Advanced(s.reqs[q], t.reqs[q])
  {
    var t := Do(s, Crash(r));
    assert t.reqs[q] == if q == r then s.reqs[r].(phase := Crashed) else s.reqs[q];
  }

  lemma StepAdvances(s: State, a: Step, q: ReqId)
    requires Enabled(s, a) && q in s.reqs
    ensures q in Do(s, a).reqs && Advanced(s.reqs[q], Do(s, a).reqs[q])
  {
    match a
    case Decide(r, next) => DecideAdvances(s, r, next, q);
    case Insert(_) => WriteAdvances(s, a, q);
    case Update(_) => WriteAdvances(s, a, q);
    case Answer(_, _) => WriteAdvances(s, a, q);
    case Commit(r) => CommitAdvances(s, r, q);
    case Snapshot(_) => SweepAdvances(s, a, q);
    case SweepRow(_, _) => SweepAdvances(s, a, q);
    case SweepCommit(r) => SweepCommitAdvances(s, r, q);
    case Rollback(r) => RollbackAdvances(s, r, q);
    case Crash(r) => CrashAdvances(s, r, q);
    case _ => OpeningAdvances(s, a, q);
  }

  lemma {:induction false} RunAdvances(s: State, steps: seq<Step>, q: ReqId)
    requires Possible(s, steps) && q in s.reqs
    ensures q in After(s, steps).reqs && Advanced(s.reqs[q], After(s, steps).reqs[q])
    decreases |steps|
  {
    if steps != [] {
      RunAdvances(s, steps[..|steps| - 1], q);
      StepAdvances(After(s, steps[..|steps| - 1]), steps[|steps| - 1], q);
    }
  }

  /** Once a row is revoked, no request that has not already consumed it ever will. */
  lemma RevokedRowNeverConsumed(s: State, steps: seq<Step>, t: State, i: Id, q: ReqId)
    requires Inv(s) && Possible(s, steps) && t == After(s, steps) && i in s.rows && s.rows[i].IsRevoked()
    requires q in t.reqs && t.reqs[q].Consumed() && t.reqs[q].sight.Some? && t.reqs[q].Target() == i
    ensures q in s.reqs && s.reqs[q].Consumed()
  {
    RunKept(s, steps);
    RevokedRowsAreFrozen(s, steps);
    assert ReqOk(t, q);
    LinkFacts(s, i);
    var w := s.ids[s.rows[i].replacedBy.value].r;
    RunAdvances(s, steps, w);
    assert ReqOk(t, w);
  }

  /** Replay r takes its snapshot in s0, and in s2, after these steps, its bulk revoke
      is committed. */
  ghost predicate Sweeps(s0: State, r: ReqId, during: seq<Step>, s2: State) {
    && Enabled(s0, Snapshot(r)) && Possible(Do(s0, Snapshot(r)), during) && s2 == After(Do(s0, Snapshot(r)), during)
    && r in s2.reqs && (s2.reqs[r].phase.Swept? || s2.reqs[r].phase.ReuseAnswered?)
  }

  /** The user's rows that were committed at the snapshot. */
  function ScopeAt(s0: State, r: ReqId): set<Id>
    requires Enabled(s0, Snapshot(r))
  {
    set i | i in s0.rows && s0.rows[i].userId == s0.reqs[r].Seen().userId
  }

  /** From s to t these rows are revoked and the same, and nobody new consumes one. */
  ghost predicate OutOfReach(s: State, t: State, scope: set<Id>) {
    && (forall i :: i in scope ==> i in s.rows && i in t.rows && t.rows[i].IsRevoked() && t.rows[i] == s.rows[i])
    && (forall q :: q in t.reqs && t.reqs[q].Consumed() && t.reqs[q].sight.Some? && t.reqs[q].Target() in scope
          ==> q in s.reqs && s.reqs[q].Consumed())
  }

  /** The guarantee of a detected replay. Once its bulk revoke is committed (s2),
      although its own transaction rolls back, every row of that user that was
      committed when the statement took its snapshot (s0) is revoked, stays exactly as
      it is in every continuation (s3), and is consumed by no request that had not
      consumed it before. */
  lemma ReplayCoversSnapshot(s0: State, r: ReqId, during: seq<Step>, s2: State, later: seq<Step>, s3: State)
    requires Reachable(s0) && Sweeps(s0, r, during, s2)
    requires Possible(s2, later) && s3 == After(s2, later)
    ensures OutOfReach(s2, s3, ScopeAt(s0, r))
  {
    ReachableInv(s0);
    StepKept(s0, Snapshot(r));
    var s1 := Do(s0, Snapshot(r));
    RunKept(s1, during);
    RunAdvances(s1, during, r);
    assert ReqOk(s2, r);
    RevokedRowsAreFrozen(s2, later);
    forall q | q in s3.reqs && s3.reqs[q].Consumed() && s3.reqs[q].sight.Some? && s3.reqs[q].Target() in s2.reqs[r].Scope()
      ensures q in s2.reqs && s2.reqs[q].Consumed()
    {
      RevokedRowNeverConsumed(s2, later, s3, s3.reqs[q].Target(), q);
    }
  }

  /** A losing refresh's bulk revoke reaches the winner's successor: once the loser is
      answered, that successor is revoked or already consumed. */
  lemma LoserReachesWinnersSuccessor(s: State, winner: ReqId, loser: ReqId)
    requires Reachable(s) && winner in s.reqs && loser in s.reqs
    requires s.reqs[winner].Consumed() && s.reqs[loser].phase.ReuseAnswered?
    requires s.reqs[winner].presented == s.reqs[loser].presented
    ensures s.reqs[winner].Next() in s.rows && s.rows[s.reqs[winner].Next()].IsRevoked()
  {
    ReachableInv(s);
    assert ReqOk(s, winner) && ReqOk(s, loser);
    TokenNamesOneRow(s, s.reqs[winner].Target(), s.reqs[loser].Target());
  }

  // ----- Prefixes of a run

  lemma {:induction false} PrefixPossible(s: State, steps: seq<Step>, k: nat)
    requires Possible(s, steps) && k <= |steps|
    ensures Possible(s, steps[..k])
    ensures k < |steps| ==> Enabled(After(s, steps[..k]), steps[k])
    decreases |steps|
  {
    if k == |steps| {
      assert steps[..k] == steps;
    } else if k < |steps| - 1 {
      PrefixPossible(s, steps[..|steps| - 1], k);
      assert steps[..|steps| - 1][..k] == steps[..k];
    }
  }

  // ----- Waiting

  /** A replay never waits for its own transaction or its own statement. */
  lemma ReplayNeverWaitsForItself(s: State, r: ReqId, i: Id)
    requires Reachable(s) && r in s.reqs && s.reqs[r].phase.Sweeping? && i in s.reqs[r].phase.todo && i in s.locks
    ensures s.locks[i].r != r
  {
    ReachableInv(s);
    assert ReqOk(s, r);
    assert LockOk(s, i);
  }

  /** An open transaction other than a replay's can always take its next step. */
  lemma RotationNeverWaits(s: State, r: ReqId) returns (a: Step)
    requires Inv(s) && r in s.reqs && s.reqs[r].InTransaction() && !s.reqs[r].OpenReplay()
    ensures Enabled(s, a) && !a.Crash? && !a.Tick? && !a.Login? && a.r == r
  {
    assert ReqOk(s, r);
    match s.reqs[r].phase
    case Locked =>
      var n := FreshExists(s.ids.Keys);
      a := Decide(r, n);
    case Built(_) => a := Insert(r);
    case Inserted(_) => a := Update(r);
    case Updated(_) => a := Commit(r);
    case Rejecting => a := Rollback(r);
  }
}
