/**
 The inductive invariant of the rotation protocol, and that every step keeps it.

 Each part speaks of one row, one request or one lock, and is quantified with
 itself as the trigger, so that a proof names the instances it uses.
 */
module SessionInvariant {
  import opened Options
  import opened SessionProtocol

  /** The serial meaning of one refresh against a row: revoked first, then expiry. */
  function SerialVerdict(revoked: bool, expiresAt: Time, at: Time): Verdict {
    if revoked then ReuseV else if expiresAt <= at then ExpiredV else RotatedV
  }

  predicate Ends(t: Turn) { t.BulkRevoke? || t.verdict == RotatedV }

  /** Is a row revoked after these turns, taken one at a time? */
  predicate RevokedAfter(turns: seq<Turn>) {
    turns != [] && (RevokedAfter(turns[..|turns| - 1]) || Ends(turns[|turns| - 1]))
  }

  /** One more turn, taken after the others: an attempt that did not crash gets the
      verdict it would get alone; a bulk revoke finds the row unrevoked. */
  predicate LegalNext(expiresAt: Time, before: seq<Turn>, last: Turn) {
    match last
    case Attempt(_, at, v) => v == CrashedV || v == SerialVerdict(RevokedAfter(before), expiresAt, at)
    case BulkRevoke => !RevokedAfter(before)
  }

  /** The turns are those of a serial run. */
  predicate Legal(expiresAt: Time, turns: seq<Turn>) {
    turns == [] ||
    (Legal(expiresAt, turns[..|turns| - 1]) && LegalNext(expiresAt, turns[..|turns| - 1], turns[|turns| - 1]))
  }

  /** The verdict of a request whose transaction is over. */
  function VerdictOf(q: Request): Option<Verdict> {
    if q.Consumed() then Some(RotatedV)
    else if q.phase.ReuseAnswered? then Some(ReuseV)
    else if q.phase.ExpiredAnswered? then Some(ExpiredV)
    else if q.phase.Crashed? then Some(CrashedV)
    else None
  }

  /** The refresh that issued n has committed, consuming row p. */
  predicate IssuedByConsumer(s: State, p: Id, n: Id) {
    && n in s.ids && s.ids[n].ByRefresh? && s.ids[n].r in s.reqs
    && var q := s.reqs[s.ids[n].r];
    q.Consumed() && q.sight.Some? && q.Next() == n && q.Target() == p
  }

  /** A committed row: issued by a login or by one committed rotation, linked only to
      the row its consumer issued, and explained by its turns. */
  predicate RowOk(s: State, i: Id)
    requires i in s.rows
  {
    var row := s.rows[i];
    && row.userId in s.users
    && i in s.ids && row.tokenHash.token in s.tokens && s.tokens[row.tokenHash.token] == s.ids[i]
    && (match s.ids[i]
        case ByLogin(j) => i == j
        case ByRefresh(r) => r in s.reqs && s.reqs[r].Consumed() && s.reqs[r].Next() == i &&
                             row.tokenHash == Sha256(s.reqs[r].newToken))
    && (row.replacedBy.Some? ==> row.IsRevoked() && IssuedByConsumer(s, i, row.replacedBy.value))
    && i in s.age && s.age[i] < s.births
    && i in s.log && Legal(row.expiresAt, s.log[i]) && RevokedAfter(s.log[i]) == row.IsRevoked()
  }

  /** What a handler read is the row of the presented token; while its transaction is
      open it holds the lock, and what it read is still the stored row. */
  predicate SightOk(s: State, r: ReqId, q: Request) {
    && (q.phase.Arrived? || q.phase.UnknownAnswered? <==> q.sight.None?)
    && (q.sight.Some? ==>
          var i, seen := q.Target(), q.Seen();
          && i in s.rows && i in s.log
          && s.rows[i].tokenHash == Sha256(q.presented)
          && s.rows[i].userId == seen.userId
          && q.decidedAt <= s.clock
          && (q.InTransaction() ==>
                i in s.locks && s.locks[i] == Transaction(r) && s.rows[i] == seen && |s.log[i]| == q.sight.value.ticket)
          && (q.Rotating() || q.Consumed() ==> !seen.IsRevoked() && !seen.IsExpired(q.decidedAt))
          && (q.phase.Rejecting? ==> !seen.IsRevoked() && seen.IsExpired(q.decidedAt))
          && (q.OpenReplay() || q.phase.ReuseAnswered? ==> seen.IsRevoked() && s.rows[i] == seen))
  }

  /** A consumed row holds its consumer's image; its successor is later, is the
      same user's, and exists. */
  predicate ConsumedOk(s: State, q: Request)
    requires q.Consumed()
  {
    && q.sight.Some? && q.Target() in s.rows && q.Next() in s.rows
    && s.rows[q.Target()] == q.Seen().Revoke(q.decidedAt, q.Next())
    && s.rows[q.Next()].tokenHash == Sha256(q.newToken)
    && s.rows[q.Next()].userId == q.Seen().userId
    && q.Target() in s.age && q.Next() in s.age && s.age[q.Target()] < s.age[q.Next()]
  }

  /** A replay's scope: rows of its user, with the row it replayed and that row's
      successor; each is revoked, still to do, or held by the statement. */
  predicate ScopeOk(s: State, r: ReqId, q: Request)
    requires q.HasScope()
  {
    && q.sight.Some?
    && q.Target() in q.Scope()
    && (q.Seen().replacedBy.Some? ==> q.Seen().replacedBy.value in q.Scope())
    && (forall i :: i in q.Scope() ==> i in s.rows && s.rows[i].userId == q.Seen().userId)
    && (if q.phase.Sweeping?
        then q.phase.todo <= q.Scope() && q.phase.held <= q.Scope() && q.phase.todo !! q.phase.held &&
             q.Target() !in q.phase.todo &&
             (forall i :: i in q.phase.held ==> i in s.locks && s.locks[i] == Statement(r)) &&
             (forall i :: i in q.Scope() ==> s.rows[i].IsRevoked() || i in q.phase.todo || i in q.phase.held)
        else forall i :: i in q.Scope() ==> s.rows[i].IsRevoked())
  }

  /** A finished request is turn number ticket of the row it locked. */
  predicate FinishedOk(s: State, r: ReqId, q: Request) {
    VerdictOf(q).Some? ==>
      && q.sight.Some? && q.Target() in s.log && q.sight.value.ticket < |s.log[q.Target()]|
      && s.log[q.Target()][q.sight.value.ticket] == Attempt(r, q.decidedAt, VerdictOf(q).value)
  }

  predicate ReqOk(s: State, r: ReqId)
    requires r in s.reqs
  {
    var q := s.reqs[r];
    && q.newToken in s.tokens && s.tokens[q.newToken] == ByRefresh(r)
    && (q.HasNext() ==> q.Next() in s.ids && s.ids[q.Next()] == ByRefresh(r))
    && SightOk(s, r, q)
    && (q.Consumed() ==> ConsumedOk(s, q))
    && (q.HasScope() ==> ScopeOk(s, r, q))
    && FinishedOk(s, r, q)
  }

  /** The owner of a lock is at a point where it holds it. */
  predicate LockOk(s: State, i: Id)
    requires i in s.locks
  {
    && i in s.rows && s.locks[i].r in s.reqs
    && match s.locks[i]
       case Transaction(r) => s.reqs[r].InTransaction() && s.reqs[r].sight.Some? && s.reqs[r].Target() == i
       case Statement(r) => s.reqs[r].phase.Sweeping? && i in s.reqs[r].phase.held
  }

  /** Turn k of row i is a finished request that locked i as number k. */
  predicate TurnOk(s: State, i: Id, k: nat)
    requires i in s.log && k < |s.log[i]|
  {
    var t := s.log[i][k];
    t.Attempt? ==>
      && t.r in s.reqs && s.reqs[t.r].sight.Some?
      && s.reqs[t.r].Target() == i && s.reqs[t.r].sight.value.ticket == k
      && s.reqs[t.r].decidedAt == t.at && VerdictOf(s.reqs[t.r]) == Some(t.verdict)
  }

  /** Only rows have turns. */
  predicate LogOk(s: State, i: Id) {
    i in s.log ==> i in s.rows
  }

  ghost predicate RowsOk(s: State) {
    forall i {:trigger RowOk(s, i)} :: i in s.rows ==> RowOk(s, i)
  }

  ghost predicate ReqsOk(s: State) {
    forall r {:trigger ReqOk(s, r)} :: r in s.reqs ==> ReqOk(s, r)
  }

  ghost predicate LocksOk(s: State) {
    forall i {:trigger LockOk(s, i)} :: i in s.locks ==> LockOk(s, i)
  }

  ghost predicate TurnsOk(s: State) {
    && (forall i {:trigger LogOk(s, i)} :: LogOk(s, i))
    && (forall i, k {:trigger TurnOk(s, i, k)} :: i in s.log && 0 <= k < |s.log[i]| ==> TurnOk(s, i, k))
  }

  ghost predicate Inv(s: State) {
    RowsOk(s) && ReqsOk(s) && LocksOk(s) && TurnsOk(s)
  }

  lemma InitialInv(clock: Time, users: set<UserId>)
    ensures Inv(Initial(clock, users))
  {
  }

  lemma LegalAppend(expiresAt: Time, turns: seq<Turn>, last: Turn)
    requires Legal(expiresAt, turns)
    requires LegalNext(expiresAt, turns, last)
    ensures Legal(expiresAt, turns + [last])
    ensures RevokedAfter(turns + [last]) == (RevokedAfter(turns) || Ends(last))
  {
    assert (turns + [last])[..|turns|] == turns;
  }

  /** From s to t only r's own progress changes, and it keeps what it holds or has done. */
  predicate Progresses(s: State, t: State, r: ReqId) {
    && r in s.reqs && r in t.reqs && t == s.(reqs := s.reqs[r := t.reqs[r]], ids := t.ids)
    && (forall i :: i in s.ids ==> i in t.ids && t.ids[i] == s.ids[i])
    && t.reqs[r].newToken == s.reqs[r].newToken && t.reqs[r].sight == s.reqs[r].sight
    && !s.reqs[r].phase.Sweeping? && (s.reqs[r].InTransaction() ==> t.reqs[r].InTransaction())
    && (s.reqs[r].Consumed() ==> t.reqs[r].Consumed() && t.reqs[r].Next() == s.reqs[r].Next())
    && (VerdictOf(s.reqs[r]).Some? ==>
          t.reqs[r].decidedAt == s.reqs[r].decidedAt && VerdictOf(t.reqs[r]) == VerdictOf(s.reqs[r]))
  }

  lemma ProgressOtherReq(s: State, t: State, r: ReqId, q: ReqId)
    requires Inv(s) && Progresses(s, t, r) && q in s.reqs && q != r
    ensures ReqOk(t, q)
  {
    assert ReqOk(s, q);
  }

  lemma ProgressKept(s: State, t: State, r: ReqId)
    requires Inv(s) && Progresses(s, t, r) && ReqOk(t, r)
    ensures Inv(t)
  {
    forall i | i in t.rows ensures RowOk(t, i) { assert RowOk(s, i); }
    forall q | q in t.reqs ensures ReqOk(t, q) { if q != r { ProgressOtherReq(s, t, r, q); } }
    forall i | i in t.locks ensures LockOk(t, i) { assert LockOk(s, i); }
    forall i ensures LogOk(t, i) { assert LogOk(s, i); }
    forall i, k | i in t.log && 0 <= k < |t.log[i]| ensures TurnOk(t, i, k) { assert TurnOk(s, i, k); }
  }

  lemma LockHitReq(s: State, r: ReqId, hit: Id, q: ReqId)
    requires Inv(s) && Enabled(s, Lock(r, Some(hit))) && q in s.reqs
    ensures ReqOk(Do(s, Lock(r, Some(hit))), q)
  {
    assert ReqOk(s, q);
    assert q == r ==> RowOk(s, hit);
  }

  lemma LockHitTurn(s: State, r: ReqId, hit: Id, i: Id, k: nat)
    requires Inv(s) && Enabled(s, Lock(r, Some(hit))) && i in s.log && k < |s.log[i]|
    ensures TurnOk(Do(s, Lock(r, Some(hit))), i, k)
  {
    assert ReqOk(s, r);
    assert TurnOk(s, i, k);
  }

  lemma LockHitRow(s: State, r: ReqId, hit: Id, i: Id)
    requires Inv(s) && Enabled(s, Lock(r, Some(hit))) && i in s.rows
    ensures RowOk(Do(s, Lock(r, Some(hit))), i)
  {
    assert ReqOk(s, r);
    assert RowOk(s, i);
  }

  lemma LockHitLock(s: State, r: ReqId, hit: Id, i: Id)
    requires Inv(s) && Enabled(s, Lock(r, Some(hit))) && i in Do(s, Lock(r, Some(hit))).locks
    ensures LockOk(Do(s, Lock(r, Some(hit))), i)
  {
    assert i in s.locks ==> LockOk(s, i);
  }

  lemma LockHitKept(s: State, r: ReqId, hit: Id)
    requires Inv(s) && Enabled(s, Lock(r, Some(hit)))
    ensures Inv(Do(s, Lock(r, Some(hit))))
  {
    var t := Do(s, Lock(r, Some(hit)));
    forall i | i in t.rows ensures RowOk(t, i) { LockHitRow(s, r, hit, i); }
    forall q | q in t.reqs ensures ReqOk(t, q) { LockHitReq(s, r, hit, q); }
    forall i | i in t.locks ensures LockOk(t, i) { LockHitLock(s, r, hit, i); }
    forall i ensures LogOk(t, i) { assert LogOk(s, i); }
    forall i, k | i in t.log && 0 <= k < |t.log[i]| ensures TurnOk(t, i, k) { LockHitTurn(s, r, hit, i, k); }
  }

  lemma TickKept(s: State, elapsed: nat)
    requires Inv(s) && Enabled(s, Tick(elapsed))
    ensures Inv(Do(s, Tick(elapsed)))
  {
    var t := Do(s, Tick(elapsed));
    forall i | i in t.rows ensures RowOk(t, i) { if i in s.rows { assert RowOk(s, i); } }
    forall q | q in t.reqs ensures ReqOk(t, q) { assert ReqOk(s, q); }
    forall i | i in t.locks ensures LockOk(t, i) { if i in s.locks { assert LockOk(s, i); } }
    forall i ensures LogOk(t, i) { assert LogOk(s, i); }
    forall i, k | i in t.log && 0 <= k < |t.log[i]| ensures TurnOk(t, i, k) {
      if i in s.log && k < |s.log[i]| { assert TurnOk(s, i, k); }
    }
  }

  lemma LoginReq(s: State, user: UserId, id: Id, token: Token, expiresAt: Time, q: ReqId)
    requires Inv(s) && Enabled(s, Login(user, id, token, expiresAt)) && q in s.reqs
    ensures ReqOk(Do(s, Login(user, id, token, expiresAt)), q)
  {
    assert id in s.rows ==> RowOk(s, id);
    assert ReqOk(s, q);
  }

  lemma LoginKept(s: State, user: UserId, id: Id, token: Token, expiresAt: Time)
    requires Inv(s) && Enabled(s, Login(user, id, token, expiresAt))
    ensures Inv(Do(s, Login(user, id, token, expiresAt)))
  {
    var t := Do(s, Login(user, id, token, expiresAt));
    assert id in s.rows ==> RowOk(s, id);
    forall i | i in t.rows ensures RowOk(t, i) { if i in s.rows { assert RowOk(s, i); } }
    forall q | q in t.reqs ensures ReqOk(t, q) { LoginReq(s, user, id, token, expiresAt, q); }
    forall i | i in t.locks ensures LockOk(t, i) { if i in s.locks { assert LockOk(s, i); } }
    forall i ensures LogOk(t, i) { assert LogOk(s, i); }
    forall i, k | i in t.log && 0 <= k < |t.log[i]| ensures TurnOk(t, i, k) {
      if i in s.log && k < |s.log[i]| { assert TurnOk(s, i, k); }
    }
  }

  lemma ArriveKept(s: State, r: ReqId, presented: Token, newToken: Token, expiresAt: Time)
    requires Inv(s) && Enabled(s, Arrive(r, presented, newToken, expiresAt))
    ensures Inv(Do(s, Arrive(r, presented, newToken, expiresAt)))
  {
    var t := Do(s, Arrive(r, presented, newToken, expiresAt));
    forall i | i in t.rows ensures RowOk(t, i) { if i in s.rows { assert RowOk(s, i); } }
    forall q | q in t.reqs ensures ReqOk(t, q) { if q != r { assert ReqOk(s, q); } }
    forall i | i in t.locks ensures LockOk(t, i) { if i in s.locks { assert LockOk(s, i); } }
    forall i ensures LogOk(t, i) { assert LogOk(s, i); }
    forall i, k | i in t.log && 0 <= k < |t.log[i]| ensures TurnOk(t, i, k) {
      if i in s.log && k < |s.log[i]| { assert TurnOk(s, i, k); }
    }
  }

  lemma LockKept(s: State, r: ReqId, hit: Option<Id>)
    requires Inv(s) && Enabled(s, Lock(r, hit))
    ensures Inv(Do(s, Lock(r, hit)))
  {
    var t := Do(s, Lock(r, hit));
    assert ReqOk(s, r);
    if hit.None? {
      ProgressKept(s, t, r);
    } else {
      LockHitKept(s, r, hit.value);
    }
  }

  // Deciding, the two statements inside the transaction, and the final answer.

  lemma DecideKept(s: State, r: ReqId, next: Id)
    requires Inv(s) && Enabled(s, Decide(r, next))
    ensures Inv(Do(s, Decide(r, next)))
  {
    assert ReqOk(s, r);
    ProgressKept(s, Do(s, Decide(r, next)), r);
  }

  lemma InsertKept(s: State, r: ReqId)
    requires Inv(s) && Enabled(s, Insert(r))
    ensures Inv(Do(s, Insert(r)))
  {
    assert ReqOk(s, r);
    ProgressKept(s, Do(s, Insert(r)), r);
  }

  lemma UpdateKept(s: State, r: ReqId)
    requires Inv(s) && Enabled(s, Update(r))
    ensures Inv(Do(s, Update(r)))
  {
    assert ReqOk(s, r);
    ProgressKept(s, Do(s, Update(r)), r);
  }

  lemma AnswerKept(s: State, r: ReqId, signed: bool)
    requires Inv(s) && Enabled(s, Answer(r, signed))
    ensures Inv(Do(s, Answer(r, signed)))
  {
    assert ReqOk(s, r);
    ProgressKept(s, Do(s, Answer(r, signed)), r);
  }

  lemma SnapshotKept(s: State, r: ReqId)
    requires Inv(s) && Enabled(s, Snapshot(r))
    ensures Inv(Do(s, Snapshot(r)))
  {
    var t := Do(s, Snapshot(r));
    assert ReqOk(s, r);
    var i := s.reqs[r].Target();
    assert RowOk(s, i);
    if s.rows[i].replacedBy.Some? { assert ReqOk(s, s.ids[s.rows[i].replacedBy.value].r); }
    ProgressKept(s, t, r);
  }

  lemma SweepRowOwnReq(s: State, r: ReqId, id: Id)
    requires Inv(s) && Enabled(s, SweepRow(r, id))
    ensures ReqOk(Do(s, SweepRow(r, id)), r)
  {
    assert ReqOk(s, r);
  }

  lemma SweepRowOtherReq(s: State, r: ReqId, id: Id, q: ReqId)
    requires Inv(s) && Enabled(s, SweepRow(r, id)) && q in s.reqs && q != r
    ensures ReqOk(Do(s, SweepRow(r, id)), q)
  {
    assert ReqOk(s, q);
  }

  lemma SweepRowKept(s: State, r: ReqId, id: Id)
    requires Inv(s) && Enabled(s, SweepRow(r, id))
    ensures Inv(Do(s, SweepRow(r, id)))
  {
    var t := Do(s, SweepRow(r, id));
    assert ReqOk(s, r);
    forall i | i in t.rows ensures RowOk(t, i) { if i in s.rows { assert RowOk(s, i); } }
    forall q | q in t.reqs ensures ReqOk(t, q) {
      if q == r { SweepRowOwnReq(s, r, id); } else { SweepRowOtherReq(s, r, id, q); }
    }
    forall i | i in t.locks ensures LockOk(t, i) { if i in s.locks { assert LockOk(s, i); } }
    forall i ensures LogOk(t, i) { assert LogOk(s, i); }
    forall i, k | i in t.log && 0 <= k < |t.log[i]| ensures TurnOk(t, i, k) {
      if i in s.log && k < |s.log[i]| { assert TurnOk(s, i, k); }
    }
  }

  /** What a commit relies on: the row is still as read, and its successor is new. */
  lemma CommitFacts(s: State, r: ReqId)
    requires Inv(s) && Enabled(s, Commit(r))
    ensures ReqOk(s, r)
    ensures var q := s.reqs[r];
            q.Next() !in s.rows && q.Next() !in s.log && RowOk(s, q.Target()) && s.rows[q.Target()] == q.Seen() &&
            q.Target() != q.Next()
    ensures var q := s.reqs[r];
            var turn := Attempt(r, q.decidedAt, RotatedV);
            Legal(q.Seen().expiresAt, s.log[q.Target()] + [turn]) && RevokedAfter(s.log[q.Target()] + [turn])
  {
    var q := s.reqs[r];
    assert ReqOk(s, r);
    assert RowOk(s, q.Target());
    assert q.Next() in s.rows ==> RowOk(s, q.Next());
    assert LogOk(s, q.Next());
    LegalAppend(q.Seen().expiresAt, s.log[q.Target()], Attempt(r, q.decidedAt, RotatedV));
  }

  lemma CommitRow(s: State, r: ReqId, i: Id)
    requires Inv(s) && Enabled(s, Commit(r)) && i in Do(s, Commit(r)).rows
    ensures RowOk(Do(s, Commit(r)), i)
  {
    CommitFacts(s, r);
    if i in s.rows { assert RowOk(s, i); }
  }

  lemma CommitOwnReq(s: State, r: ReqId)
    requires Inv(s) && Enabled(s, Commit(r))
    ensures ReqOk(Do(s, Commit(r)), r)
  {
    CommitFacts(s, r);
  }

  lemma CommitOtherReq(s: State, r: ReqId, q: ReqId)
    requires Inv(s) && Enabled(s, Commit(r)) && q in s.reqs && q != r
    ensures ReqOk(Do(s, Commit(r)), q)
  {
    CommitFacts(s, r);
    assert ReqOk(s, q);
  }

  lemma CommitTurn(s: State, r: ReqId, i: Id, k: nat)
    requires Inv(s) && Enabled(s, Commit(r)) && i in Do(s, Commit(r)).log && k < |Do(s, Commit(r)).log[i]|
    ensures TurnOk(Do(s, Commit(r)), i, k)
  {
    CommitFacts(s, r);
    if i in s.log && k < |s.log[i]| { assert TurnOk(s, i, k); }
  }

  lemma CommitKept(s: State, r: ReqId)
    requires Inv(s) && Enabled(s, Commit(r))
    ensures Inv(Do(s, Commit(r)))
  {
    var t := Do(s, Commit(r));
    forall i | i in t.rows ensures RowOk(t, i) { CommitRow(s, r, i); }
    forall q | q in t.reqs ensures ReqOk(t, q) {
      if q == r { CommitOwnReq(s, r); } else { CommitOtherReq(s, r, q); }
    }
    forall i | i in t.locks ensures LockOk(t, i) { assert LockOk(s, i); }
    forall i ensures LogOk(t, i) { assert LogOk(s, i); }
    forall i, k | i in t.log && 0 <= k < |t.log[i]| ensures TurnOk(t, i, k) { CommitTurn(s, r, i, k); }
  }

  /** The end of r's transaction without a rotation, with r's statement locks dropped. */
  function Ended(s: State, r: ReqId, phase: Phase, verdict: Verdict): State
    requires r in s.reqs && s.reqs[r].sight.Some?
  {
    var t := Release(s, r, phase, verdict);
    t.(locks := t.locks - (if s.reqs[r].phase.Sweeping? then s.reqs[r].phase.held else {}))
  }

  /** The phases a transaction can end in without rotating, with their verdicts. */
  predicate CanEnd(q: Request, phase: Phase, verdict: Verdict) {
    && q.sight.Some? && q.InTransaction()
    && (|| (phase == Crashed && verdict == CrashedV)
        || (q.phase.Rejecting? && phase == ExpiredAnswered && verdict == ExpiredV)
        || (q.phase.Swept? && phase == ReuseAnswered(q.phase.scope) && verdict == ReuseV))
  }

  lemma EndedRow(s: State, r: ReqId, phase: Phase, verdict: Verdict, i: Id)
    requires Inv(s) && r in s.reqs && CanEnd(s.reqs[r], phase, verdict) && i in s.rows
    ensures RowOk(Ended(s, r, phase, verdict), i)
  {
    assert ReqOk(s, r);
    assert RowOk(s, i);
    if i == s.reqs[r].Target() {
      LegalAppend(s.rows[i].expiresAt, s.log[i], Attempt(r, s.reqs[r].decidedAt, verdict));
    }
  }

  lemma EndedOwnReq(s: State, r: ReqId, phase: Phase, verdict: Verdict)
    requires Inv(s) && r in s.reqs && CanEnd(s.reqs[r], phase, verdict)
    ensures ReqOk(Ended(s, r, phase, verdict), r)
  {
    assert ReqOk(s, r);
  }

  lemma EndedOtherReq(s: State, r: ReqId, phase: Phase, verdict: Verdict, q: ReqId)
    requires Inv(s) && r in s.reqs && CanEnd(s.reqs[r], phase, verdict) && q in s.reqs && q != r
    ensures ReqOk(Ended(s, r, phase, verdict), q)
  {
    assert ReqOk(s, r);
    assert ReqOk(s, q);
  }

  lemma EndedKept(s: State, r: ReqId, phase: Phase, verdict: Verdict)
    requires Inv(s) && r in s.reqs && CanEnd(s.reqs[r], phase, verdict)
    ensures Inv(Ended(s, r, phase, verdict))
  {
    var t := Ended(s, r, phase, verdict);
    assert ReqOk(s, r);
    forall i | i in t.rows ensures RowOk(t, i) { EndedRow(s, r, phase, verdict, i); }
    forall q | q in t.reqs ensures ReqOk(t, q) {
      if q == r { EndedOwnReq(s, r, phase, verdict); } else { EndedOtherReq(s, r, phase, verdict, q); }
    }
    forall i | i in t.locks ensures LockOk(t, i) { assert LockOk(s, i); }
    forall i ensures LogOk(t, i) { assert LogOk(s, i); }
    forall i, k | i in t.log && 0 <= k < |t.log[i]| ensures TurnOk(t, i, k) {
      if k < |s.log[i]| { assert TurnOk(s, i, k); }
    }
  }

  lemma SweepCommitRow(s: State, r: ReqId, i: Id)
    requires Inv(s) && Enabled(s, SweepCommit(r)) && i in s.rows
    ensures RowOk(Do(s, SweepCommit(r)), i)
  {
    var t, p := Do(s, SweepCommit(r)), s.reqs[r].phase;
    assert RowOk(s, i);
    if i in p.held && !s.rows[i].IsRevoked() {
      LegalAppend(s.rows[i].expiresAt, s.log[i], BulkRevoke);
      assert t.rows[i] == s.rows[i].Sweep(p.at) && t.log[i] == s.log[i] + [BulkRevoke];
    } else {
      assert t.rows[i] == s.rows[i] && t.log[i] == s.log[i];
    }
    assert t.ids == s.ids && t.tokens == s.tokens && t.age == s.age;
  }

  lemma SweepCommitOwnReq(s: State, r: ReqId)
    requires Inv(s) && Enabled(s, SweepCommit(r))
    ensures ReqOk(Do(s, SweepCommit(r)), r)
  {
    assert ReqOk(s, r);
  }

  lemma SweepCommitOtherReq(s: State, r: ReqId, q: ReqId)
    requires Inv(s) && Enabled(s, SweepCommit(r)) && q in s.reqs && q != r
    ensures ReqOk(Do(s, SweepCommit(r)), q)
  {
    assert ReqOk(s, r);
    assert ReqOk(s, q);
  }

  lemma SweepCommitLock(s: State, r: ReqId, i: Id)
    requires Inv(s) && Enabled(s, SweepCommit(r)) && i in Do(s, SweepCommit(r)).locks
    ensures LockOk(Do(s, SweepCommit(r)), i)
  {
    assert LockOk(s, i) && ReqOk(s, r);
  }

  lemma SweepCommitTurn(s: State, r: ReqId, i: Id, k: nat)
    requires Inv(s) && Enabled(s, SweepCommit(r)) && i in Do(s, SweepCommit(r)).log && k < |Do(s, SweepCommit(r)).log[i]|
    ensures TurnOk(Do(s, SweepCommit(r)), i, k)
  {
    if k < |s.log[i]| { assert TurnOk(s, i, k); }
  }

  lemma SweepCommitKept(s: State, r: ReqId)
    requires Inv(s) && Enabled(s, SweepCommit(r))
    ensures Inv(Do(s, SweepCommit(r)))
  {
    var t := Do(s, SweepCommit(r));
    forall i | i in t.rows ensures RowOk(t, i) { SweepCommitRow(s, r, i); }
    forall q | q in t.reqs ensures ReqOk(t, q) {
      if q == r { SweepCommitOwnReq(s, r); } else { SweepCommitOtherReq(s, r, q); }
    }
    forall i | i in t.locks ensures LockOk(t, i) { SweepCommitLock(s, r, i); }
    forall i ensures LogOk(t, i) { assert LogOk(s, i); }
    forall i, k | i in t.log && 0 <= k < |t.log[i]| ensures TurnOk(t, i, k) { SweepCommitTurn(s, r, i, k); }
  }

  lemma RollbackKept(s: State, r: ReqId)
    requires Inv(s) && Enabled(s, Rollback(r))
    ensures Inv(Do(s, Rollback(r)))
  {
    var t := Do(s, Rollback(r));
    if s.reqs[r].phase.Swept? {
      EndedKept(s, r, ReuseAnswered(s.reqs[r].phase.scope), ReuseV);
      assert Ended(s, r, ReuseAnswered(s.reqs[r].phase.scope), ReuseV) == t;
    } else {
      EndedKept(s, r, ExpiredAnswered, ExpiredV);
      assert Ended(s, r, ExpiredAnswered, ExpiredV) == t;
    }
  }

  lemma CrashKept(s: State, r: ReqId)
    requires Inv(s) && Enabled(s, Crash(r))
    ensures Inv(Do(s, Crash(r)))
  {
    var t := Do(s, Crash(r));
    EndedKept(s, r, Crashed, CrashedV);
  }

  lemma StepKept(s: State, a: Step)
    requires Inv(s) && Enabled(s, a)
    ensures Inv(Do(s, a))
  {
    match a
    case Tick(elapsed) => TickKept(s, elapsed);
    case Login(user, id, token, expiresAt) => LoginKept(s, user, id, token, expiresAt);
    case Arrive(r, presented, newToken, expiresAt) => ArriveKept(s, r, presented, newToken, expiresAt);
    case Lock(r, hit) => LockKept(s, r, hit);
    case Decide(r, next) => DecideKept(s, r, next);
    case Insert(r) => InsertKept(s, r);
    case Update(r) => UpdateKept(s, r);
    case Commit(r) => CommitKept(s, r);
    case Answer(r, signed) => AnswerKept(s, r, signed);
    case Snapshot(r) => SnapshotKept(s, r);
    case SweepRow(r, id) => SweepRowKept(s, r, id);
    case SweepCommit(r) => SweepCommitKept(s, r);
    case Rollback(r) => RollbackKept(s, r);
    case Crash(r) => CrashKept(s, r);
  }

  /** The invariant holds after any run from a state where it holds. */
  lemma {:induction false} RunKept(s: State, steps: seq<Step>)
    requires Inv(s) && Possible(s, steps)
    ensures Inv(After(s, steps))
    decreases |steps|
  {
    if steps != [] {
      RunKept(s, steps[..|steps| - 1]);
      StepKept(After(s, steps[..|steps| - 1]), steps[|steps| - 1]);
    }
  }

  lemma ReachableInv(s: State)
    requires Reachable(s)
    ensures Inv(s)
  {
    var clock: Time, users: set<UserId>, steps: seq<Step> :|
      Possible(Initial(clock, users), steps) && After(Initial(clock, users), steps) == s;
    InitialInv(clock, users);
    RunKept(Initial(clock, users), steps);
  }
}
