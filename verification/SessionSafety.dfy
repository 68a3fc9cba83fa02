/** Safety of rotation over whole runs: write-once rows, one success per token,
    outcomes equal to a serial run, and constraints that never fire. */
module SessionSafety {
  import opened Options
  import opened SessionProtocol
  import opened SessionInvariant

  // ----- Write-once rows

  /** From s to t no row disappears, its identity columns stay, and a revoked row
      keeps every column. */
  ghost predicate Preserves(s: State, t: State) {
    forall i :: i in s.rows ==>
      && i in t.rows
      && t.rows[i].userId == s.rows[i].userId
      && t.rows[i].tokenHash == s.rows[i].tokenHash
      && t.rows[i].expiresAt == s.rows[i].expiresAt
      && (s.rows[i].IsRevoked() ==> t.rows[i] == s.rows[i])
  }

  lemma CommitPreserves(s: State, r: ReqId)
    requires Inv(s) && Enabled(s, Commit(r))
    ensures Preserves(s, Do(s, Commit(r)))
    ensures forall i :: i in s.rows && i != s.reqs[r].Target() ==> Do(s, Commit(r)).rows[i] == s.rows[i]
    ensures s.reqs[r].Target() in s.rows
    ensures Do(s, Commit(r)).rows[s.reqs[r].Target()] == s.rows[s.reqs[r].Target()].Revoke(s.reqs[r].decidedAt, s.reqs[r].Next())
  {
    CommitFacts(s, r);
  }

  lemma SweepCommitPreserves(s: State, r: ReqId)
    requires Inv(s) && Enabled(s, SweepCommit(r))
    ensures Preserves(s, Do(s, SweepCommit(r)))
    ensures forall i :: i in s.rows && Do(s, SweepCommit(r)).rows[i] != s.rows[i] ==>
              i in s.reqs[r].phase.held &&
              Do(s, SweepCommit(r)).rows[i] == s.rows[i].(revokedAt := Some(s.reqs[r].phase.at))
  {
  }

  // The other steps leave the rows alone: those up to a rotation's writes, and the rest.
  lemma EarlyStepsKeepRows(s: State, a: Step)
    requires Enabled(s, a) && (a.Tick? || a.Arrive? || a.Lock? || a.Decide? || a.Insert? || a.Update?)
    ensures Do(s, a).rows == s.rows
  {
    match a
    case Tick(_) =>
    case Arrive(_, _, _, _) =>
    case Lock(_, Some(_)) =>
    case Lock(_, None) =>
    case Decide(_, _) =>
    case Insert(_) =>
    case Update(_) =>
  }

  lemma LateStepsKeepRows(s: State, a: Step)
    requires Enabled(s, a) && (a.Answer? || a.Snapshot? || a.SweepRow? || a.Rollback? || a.Crash?)
    ensures Do(s, a).rows == s.rows
  {
    match a
    case Answer(_, _) =>
    case Snapshot(_) =>
    case SweepRow(_, _) =>
    case Rollback(_) =>
    case Crash(_) =>
  }

  lemma LoginPreserves(s: State, user: UserId, id: Id, token: Token, expiresAt: Time)
    requires Inv(s) && Enabled(s, Login(user, id, token, expiresAt))
    ensures forall i :: i in s.rows ==>
              i in Do(s, Login(user, id, token, expiresAt)).rows && Do(s, Login(user, id, token, expiresAt)).rows[i] == s.rows[i]
  {
    assert id in s.rows ==> RowOk(s, id);
  }

  /** The only steps that change a stored row are the commit of the rotation that
      holds it and the commit of a bulk revoke; the latter sets no link. */
  lemma StepPreserves(s: State, a: Step)
    requires Inv(s) && Enabled(s, a)
    ensures Preserves(s, Do(s, a))
    ensures forall i :: i in s.rows && Do(s, a).rows[i] != s.rows[i] ==>
              || (a.Commit? && s.reqs[a.r].Target() == i &&
                  Do(s, a).rows[i] == s.rows[i].Revoke(s.reqs[a.r].decidedAt, s.reqs[a.r].Next()))
              || (a.SweepCommit? && i in s.reqs[a.r].phase.held &&
                  Do(s, a).rows[i] == s.rows[i].(revokedAt := Some(s.reqs[a.r].phase.at)))
  {
    if a.Commit? {
      CommitPreserves(s, a.r);
    } else if a.SweepCommit? {
      SweepCommitPreserves(s, a.r);
    } else if a.Login? {
      LoginPreserves(s, a.user, a.id, a.token, a.expiresAt);
    } else if a.Answer? || a.Snapshot? || a.SweepRow? || a.Rollback? || a.Crash? {
      LateStepsKeepRows(s, a);
    } else {
      EarlyStepsKeepRows(s, a);
    }
  }

  /** revokedAt and replacedBy are write-once over any run: whatever the
      interleaving of rotations, rollbacks and bulk revokes, a revoked row never
      changes again, so one revoked in bulk never gains a successor. */
  lemma {:induction false} RevokedRowsAreFrozen(s: State, steps: seq<Step>)
    requires Inv(s) && Possible(s, steps)
    ensures Preserves(s, After(s, steps))
    decreases |steps|
  {
    if steps != [] {
      var before := steps[..|steps| - 1];
      RevokedRowsAreFrozen(s, before);
      RunKept(s, before);
      StepPreserves(After(s, before), steps[|steps| - 1]);
    }
  }

  // ----- One success per token

  /** A token names one row. */
  lemma TokenNamesOneRow(s: State, i: Id, j: Id)
    requires Inv(s) && i in s.rows && j in s.rows && s.rows[i].tokenHash == s.rows[j].tokenHash
    ensures i == j
  {
    assert RowOk(s, i) && RowOk(s, j);
  }

  /** Over the whole run a refresh token has at most one committed rotation. */
  lemma AtMostOneSuccess(s: State, q: ReqId, r: ReqId)
    requires Reachable(s) && q in s.reqs && r in s.reqs
    requires s.reqs[q].Consumed() && s.reqs[r].Consumed() && s.reqs[q].presented == s.reqs[r].presented
    ensures q == r
  {
    ReachableInv(s);
    assert ReqOk(s, q) && ReqOk(s, r);
    TokenNamesOneRow(s, s.reqs[q].Target(), s.reqs[r].Target());
  }

  // ----- Serial outcomes

  /** When a request locks a row, every request that locked it before is finished
      and has a smaller ticket: tickets count lock acquisitions. */
  lemma TicketsFollowLockOrder(s: State, q: ReqId, i: Id, r: ReqId)
    requires Reachable(s) && Enabled(s, Lock(q, Some(i)))
    requires r in s.reqs && s.reqs[r].sight.Some? && s.reqs[r].Target() == i
    ensures VerdictOf(s.reqs[r]).Some?
    ensures s.reqs[r].sight.value.ticket < Do(s, Lock(q, Some(i))).reqs[q].sight.value.ticket
  {
    ReachableInv(s);
    assert ReqOk(s, r);
  }

  lemma {:induction false} LegalAt(expiresAt: Time, turns: seq<Turn>, k: nat)
    requires Legal(expiresAt, turns) && k < |turns|
    ensures LegalNext(expiresAt, turns[..k], turns[k])
    ensures Legal(expiresAt, turns[..k])
  {
    var before := turns[..|turns| - 1];
    if k < |turns| - 1 {
      LegalAt(expiresAt, before, k);
      assert before[..k] == turns[..k];
    }
  }

  /** A request that was not cut short gets the verdict of a serial run in
      lock-acquisition order: the one it would get alone, after the requests and
      bulk revokes that had the row before it. */
  lemma OutcomesAreSerial(s: State, r: ReqId)
    requires Reachable(s) && r in s.reqs
    requires VerdictOf(s.reqs[r]).Some? && VerdictOf(s.reqs[r]) != Some(CrashedV)
    ensures var q := s.reqs[r];
            && q.sight.Some? && q.Target() in s.rows && q.Target() in s.log
            && q.sight.value.ticket < |s.log[q.Target()]|
            && VerdictOf(q) == Some(SerialVerdict(RevokedAfter(s.log[q.Target()][..q.sight.value.ticket]),
                                                  s.rows[q.Target()].expiresAt, q.decidedAt))
  {
    ReachableInv(s);
    assert ReqOk(s, r);
    var q := s.reqs[r];
    assert RowOk(s, q.Target());
    LegalAt(s.rows[q.Target()].expiresAt, s.log[q.Target()], q.sight.value.ticket);
  }

  lemma {:induction false} RevokedAfterIff(turns: seq<Turn>)
    ensures RevokedAfter(turns) <==> exists k :: 0 <= k < |turns| && Ends(turns[k])
  {
    if turns != [] {
      var before := turns[..|turns| - 1];
      RevokedAfterIff(before);
      if exists k :: 0 <= k < |turns| && Ends(turns[k]) {
        var k :| 0 <= k < |turns| && Ends(turns[k]);
        if k < |before| { assert Ends(before[k]); }
      }
      if RevokedAfter(before) {
        var k :| 0 <= k < |before| && Ends(before[k]);
        assert Ends(turns[k]);
      }
    }
  }

  predicate IsRotation(t: Turn) { t.Attempt? && t.verdict == RotatedV }

  /** An attempt that was not cut short, came before expiry, and was not preceded by
      a bulk revoke. */
  predicate Contends(expiresAt: Time, turns: seq<Turn>, k: nat)
    requires k < |turns|
  {
    && turns[k].Attempt? && turns[k].verdict != CrashedV && turns[k].at < expiresAt
    && forall j :: 0 <= j < k ==> !turns[j].BulkRevoke?
  }

  /** In a serial run some attempt rotates the row exactly when some attempt
      contends, and never do two. */
  lemma ExactlyOneWinner(expiresAt: Time, turns: seq<Turn>)
    requires Legal(expiresAt, turns)
    ensures (exists k :: 0 <= k < |turns| && IsRotation(turns[k])) <==>
            (exists k :: 0 <= k < |turns| && Contends(expiresAt, turns, k))
    ensures forall j, k :: 0 <= j < |turns| && 0 <= k < |turns| && IsRotation(turns[j]) && IsRotation(turns[k]) ==> j == k
  {
    forall k | 0 <= k < |turns| && IsRotation(turns[k])
      ensures Contends(expiresAt, turns, k)
      ensures forall j :: 0 <= j < k ==> !Ends(turns[j])
    {
      LegalAt(expiresAt, turns, k);
      RevokedAfterIff(turns[..k]);
      forall j | 0 <= j < k ensures !Ends(turns[j]) { assert turns[j] == turns[..k][j]; }
    }
    if exists k :: 0 <= k < |turns| && Contends(expiresAt, turns, k) {
      var k :| 0 <= k < |turns| && Contends(expiresAt, turns, k);
      LegalAt(expiresAt, turns, k);
      RevokedAfterIff(turns[..k]);
      if RevokedAfter(turns[..k]) {
        var j :| 0 <= j < k && Ends(turns[..k][j]);
        assert IsRotation(turns[j]);
      }
    }
  }

  /** A row gains a successor exactly when some finished refresh that locked it was
      not cut short, came before expiry and found no bulk revoke. */
  lemma LinkedIffContended(s: State, i: Id)
    requires Reachable(s) && i in s.rows && i in s.log
    ensures s.rows[i].replacedBy.Some? <==>
            (exists k :: 0 <= k < |s.log[i]| && Contends(s.rows[i].expiresAt, s.log[i], k))
  {
    ReachableInv(s);
    assert RowOk(s, i);
    ExactlyOneWinner(s.rows[i].expiresAt, s.log[i]);
    if s.rows[i].replacedBy.Some? {
      LinkFacts(s, i);
      var r := s.ids[s.rows[i].replacedBy.value].r;
      assert ReqOk(s, r);
      assert IsRotation(s.log[i][s.reqs[r].sight.value.ticket]);
    } else {
      forall k | 0 <= k < |s.log[i]| ensures !IsRotation(s.log[i][k]) {
        assert TurnOk(s, i, k);
        if s.log[i][k].Attempt? { assert ReqOk(s, s.log[i][k].r); }
      }
    }
  }

  /** After a rotation of a row, every later request that locks it is answered as
      reuse, unless it is cut short. */
  lemma AfterTheWinnerOnlyReuse(s: State, w: ReqId, r: ReqId)
    requires Reachable(s) && w in s.reqs && r in s.reqs && s.reqs[w].Consumed()
    requires VerdictOf(s.reqs[r]).Some? && s.reqs[r].presented == s.reqs[w].presented
    requires s.reqs[w].sight.Some? && s.reqs[r].sight.Some?
    requires s.reqs[w].sight.value.ticket < s.reqs[r].sight.value.ticket
    ensures VerdictOf(s.reqs[r]) == Some(ReuseV) || VerdictOf(s.reqs[r]) == Some(CrashedV)
  {
    ReachableInv(s);
    assert ReqOk(s, w) && ReqOk(s, r);
    var i := s.reqs[w].Target();
    TokenNamesOneRow(s, i, s.reqs[r].Target());
    var k, j := s.reqs[r].sight.value.ticket, s.reqs[w].sight.value.ticket;
    if VerdictOf(s.reqs[r]) != Some(CrashedV) {
      OutcomesAreSerial(s, r);
      RevokedAfterIff(s.log[i][..k]);
      assert Ends(s.log[i][..k][j]);
    }
  }

  // ----- Constraints

  /** The self-referencing foreign key. */
  ghost predicate ForeignKeyHolds(rows: map<Id, Row>) {
    forall i :: i in rows && rows[i].replacedBy.Some? ==> rows[i].replacedBy.value in rows
  }

  /** UNIQUE (refresh_token_hash). */
  ghost predicate HashesUnique(rows: map<Id, Row>) {
    forall i, j :: i in rows && j in rows && rows[i].tokenHash == rows[j].tokenHash ==> i == j
  }

  /** The table as r's transaction sees it, its own writes included. */
  function SeenBy(s: State, q: Request): map<Id, Row>
    requires q.Rotating() ==> q.sight.Some?
  {
    match q.phase
    case Inserted(n) => s.rows[n := q.Successor()]
    case Updated(n) => s.rows[n := q.Successor()][q.Target() := q.Seen().Revoke(q.decidedAt, n)]
    case _ => s.rows
  }

  /** Committed links point to committed rows of the same user, and run from a
      revoked row. */
  lemma LinkFacts(s: State, i: Id)
    requires Inv(s) && i in s.rows && s.rows[i].replacedBy.Some?
    ensures var n := s.rows[i].replacedBy.value;
            && n in s.rows && n in s.ids && s.ids[n].ByRefresh? && s.ids[n].r in s.reqs
            && s.reqs[s.ids[n].r].Consumed() && s.reqs[s.ids[n].r].sight.Some?
            && s.reqs[s.ids[n].r].Target() == i && s.reqs[s.ids[n].r].Next() == n
            && s.rows[i].IsRevoked() && s.rows[n].userId == s.rows[i].userId
            && i in s.age && n in s.age && s.age[i] < s.age[n] < s.births
  {
    assert RowOk(s, i);
    assert ReqOk(s, s.ids[s.rows[i].replacedBy.value].r);
    assert RowOk(s, s.rows[i].replacedBy.value);
  }

  /** No statement of a rotation can break a constraint: the successor's key is new
      when it is inserted, and after every statement both constraints hold. */
  lemma StatementsNeverFail(s: State, r: ReqId)
    requires Reachable(s) && r in s.reqs
    requires s.reqs[r].sight.Some?
    ensures s.reqs[r].phase.Built? ==> s.reqs[r].Next() !in s.rows
    ensures ForeignKeyHolds(SeenBy(s, s.reqs[r])) && HashesUnique(SeenBy(s, s.reqs[r]))
  {
    ReachableInv(s);
    var q := s.reqs[r];
    assert ReqOk(s, r);
    assert q.Rotating() && q.Next() in s.rows ==> RowOk(s, q.Next());
    forall i | i in s.rows && s.rows[i].replacedBy.Some? ensures s.rows[i].replacedBy.value in s.rows { LinkFacts(s, i); }
    forall i, j | i in s.rows && j in s.rows && s.rows[i].tokenHash == s.rows[j].tokenHash ensures i == j {
      TokenNamesOneRow(s, i, j);
    }
    forall i | i in s.rows && q.Rotating() ensures s.rows[i].tokenHash != Sha256(q.newToken) { assert RowOk(s, i); }
  }

  /** Updating the predecessor first would break the foreign key in every rotation. */
  lemma PredecessorFirstAlwaysFails(s: State, r: ReqId)
    requires Reachable(s) && r in s.reqs && s.reqs[r].phase.Built? && s.reqs[r].sight.Some?
    ensures var q := s.reqs[r];
            !ForeignKeyHolds(s.rows[q.Target() := q.Seen().Revoke(q.decidedAt, q.Next())])
  {
    ReachableInv(s);
    var q := s.reqs[r];
    assert ReqOk(s, r);
    assert q.Next() in s.rows ==> RowOk(s, q.Next());
    var rows := s.rows[q.Target() := q.Seen().Revoke(q.decidedAt, q.Next())];
    assert rows[q.Target()].replacedBy.Some? && rows[q.Target()].replacedBy.value !in rows;
  }
}
