/** What a refresh is told, over whole runs: the pair, an error after the commit, or that
    its token is unknown. */
module SessionAnswers {
  import opened Options
  import opened SessionProtocol
  import opened SessionInvariant
  import opened SessionSafety
  import opened SessionSerial

  // ----- After the commit

  /** The user of a committed rotation is always found: the handler's error for a missing
      user never arises. */
  lemma UserIsFound(s: State, r: ReqId)
    requires Reachable(s) && r in s.reqs && s.reqs[r].Consumed()
    ensures s.reqs[r].sight.Some? && s.reqs[r].Next() in s.rows && s.rows[s.reqs[r].Next()].userId in s.users
  {
    ReachableInv(s);
    assert ReqOk(s, r);
    assert RowOk(s, s.reqs[r].Next());
  }

  predicate IsRefreshed(s: State, r: ReqId) { r in s.reqs && s.reqs[r].phase.Refreshed? }

  predicate IsLost(s: State, r: ReqId) { r in s.reqs && s.reqs[r].phase.Lost? }

  /** The step is one of this request. */
  predicate IsOf(a: Step, r: ReqId) { !a.Tick? && !a.Login? && a.r == r }

  // A step of one request leaves another's record alone: one lemma for the steps up to a
  // rotation's writes, and one for the rest.
  lemma EarlyStepsOfOthers(s: State, a: Step, q: ReqId)
    requires Enabled(s, a) && (a.Tick? || a.Login? || a.Arrive? || a.Lock? || a.Decide? || a.Insert? || a.Update?) && !IsOf(a, q)
    ensures q in Do(s, a).reqs <==> q in s.reqs
    ensures q in s.reqs ==> Do(s, a).reqs[q] == s.reqs[q]
  {
    match a
    case Tick(_) =>
    case Login(_, _, _, _) =>
    case Arrive(_, _, _, _) =>
    case Lock(_, Some(_)) =>
    case Lock(_, None) =>
    case Decide(_, _) =>
    case Insert(_) =>
    case Update(_) =>
  }

  lemma LateStepsOfOthers(s: State, a: Step, q: ReqId)
    requires Enabled(s, a) && (a.Commit? || a.Answer? || a.Snapshot? || a.SweepRow? || a.SweepCommit? || a.Rollback? || a.Crash?)
    requires !IsOf(a, q)
    ensures q in Do(s, a).reqs <==> q in s.reqs
    ensures q in s.reqs ==> Do(s, a).reqs[q] == s.reqs[q]
  {
    var t := Do(s, a);
    match a
    case Commit(r) => assert t.reqs == s.reqs[r := t.reqs[r]];
    case Answer(r, _) =>
    case Snapshot(r) =>
    case SweepRow(r, _) => assert t.reqs == s.reqs[r := t.reqs[r]];
    case SweepCommit(r) => assert t.reqs == s.reqs[r := t.reqs[r]];
    case Rollback(r) => assert t.reqs == s.reqs[r := t.reqs[r]];
    case Crash(r) => assert t.reqs == s.reqs[r := t.reqs[r]];
  }

  lemma StepsOfOthers(s: State, a: Step, q: ReqId)
    requires Enabled(s, a) && !IsOf(a, q)
    ensures q in Do(s, a).reqs <==> q in s.reqs
    ensures q in s.reqs ==> Do(s, a).reqs[q] == s.reqs[q]
  {
    if a.Tick? || a.Login? || a.Arrive? || a.Lock? || a.Decide? || a.Insert? || a.Update? {
      EarlyStepsOfOthers(s, a, q);
    } else {
      LateStepsOfOthers(s, a, q);
    }
  }

  /** A request's own step, other than its answer after the commit. */
  lemma OwnStepAnswersNothing(s: State, a: Step, r: ReqId)
    requires Enabled(s, a) && IsOf(a, r) && !a.Answer?
    ensures !IsRefreshed(s, r) && !IsLost(s, r) && !IsRefreshed(Do(s, a), r) && !IsLost(Do(s, a), r)
  {
    var t := Do(s, a);
    match a
    case Arrive(_, _, _, _) =>
    case Lock(_, Some(_)) =>
    case Lock(_, None) =>
    case Decide(_, _) =>
    case Insert(_) =>
    case Update(_) =>
    case Commit(_) => assert t.reqs[r].phase.Committed?;
    case Snapshot(_) =>
    case SweepRow(_, _) => assert t.reqs[r].phase.Sweeping?;
    case SweepCommit(_) => assert t.reqs[r].phase.Swept?;
    case Rollback(_) => assert t.reqs[r].phase.ReuseAnswered? || t.reqs[r].phase.ExpiredAnswered?;
    case Crash(_) => assert t.reqs[r].phase.Crashed?;
  }

  lemma AnswerStep(s: State, a: Step, r: ReqId)
    requires Inv(s) && Enabled(s, a)
    ensures IsRefreshed(Do(s, a), r) <==> IsRefreshed(s, r) || a == Answer(r, true)
    ensures IsLost(Do(s, a), r) <==> IsLost(s, r) || a == Answer(r, false)
  {
    if !IsOf(a, r) {
      StepsOfOthers(s, a, r);
    } else if !a.Answer? {
      OwnStepAnswersNothing(s, a, r);
    } else {
      assert ReqOk(s, r);
      assert RowOk(s, s.reqs[r].Target());
    }
  }

  /** Over every run: the client has the new pair exactly if the access token was signed
      after the commit, and has an error although the rotation is durable exactly if it
      was not. */
  lemma {:induction false} RefreshedIffSigned(clock: Time, users: set<UserId>, steps: seq<Step>, r: ReqId)
    requires Possible(Initial(clock, users), steps)
    ensures IsRefreshed(After(Initial(clock, users), steps), r) <==> exists k :: 0 <= k < |steps| && steps[k] == Answer(r, true)
    ensures IsLost(After(Initial(clock, users), steps), r) <==> exists k :: 0 <= k < |steps| && steps[k] == Answer(r, false)
    decreases |steps|
  {
    if steps != [] {
      var n := |steps| - 1;
      var before := steps[..n];
      RefreshedIffSigned(clock, users, before, r);
      InitialInv(clock, users);
      RunKept(Initial(clock, users), before);
      AnswerStep(After(Initial(clock, users), before), steps[n], r);
      assert forall k :: 0 <= k < n ==> before[k] == steps[k];
    }
  }

  // ----- Tokens without a row

  /** r waits for its row, or has had it. */
  predicate LooksFor(s: State, r: ReqId, presented: Token) {
    r in s.reqs && s.reqs[r].presented == presented && (s.reqs[r].phase.Arrived? || s.reqs[r].sight.Some?)
  }

  lemma OwnStepLooks(s: State, a: Step, r: ReqId, presented: Token, i: Id)
    requires Enabled(s, a) && LooksFor(s, r, presented) && IsOf(a, r)
    requires i in s.rows && s.rows[i].tokenHash == Sha256(presented)
    ensures LooksFor(Do(s, a), r, presented)
  {
  }

  lemma StillLooks(s: State, a: Step, r: ReqId, presented: Token, i: Id)
    requires Enabled(s, a) && LooksFor(s, r, presented)
    requires i in s.rows && s.rows[i].tokenHash == Sha256(presented)
    ensures LooksFor(Do(s, a), r, presented)
  {
    if IsOf(a, r) {
      OwnStepLooks(s, a, r, presented, i);
    } else {
      StepsOfOthers(s, a, r);
    }
  }

  /** A token that is in the table when its request arrives is never answered as unknown,
      and it is that row that the request locks. */
  lemma {:induction false} KnownTokenIsFound(s: State, steps: seq<Step>, r: ReqId, i: Id)
    requires Inv(s) && Possible(s, steps) && r in s.reqs && s.reqs[r].phase.Arrived?
    requires i in s.rows && s.rows[i].tokenHash == Sha256(s.reqs[r].presented)
    ensures LooksFor(After(s, steps), r, s.reqs[r].presented)
    ensures !After(s, steps).reqs[r].phase.UnknownAnswered?
    ensures After(s, steps).reqs[r].sight.Some? ==> After(s, steps).reqs[r].Target() == i
    decreases |steps|
  {
    var t := After(s, steps);
    if steps != [] {
      var before := steps[..|steps| - 1];
      KnownTokenIsFound(s, before, r, i);
      RunKept(s, before);
      RevokedRowsAreFrozen(s, before);
      StillLooks(After(s, before), steps[|steps| - 1], r, s.reqs[r].presented, i);
    }
    RunKept(s, steps);
    RevokedRowsAreFrozen(s, steps);
    assert ReqOk(t, r);
    if t.reqs[r].sight.Some? {
      TokenNamesOneRow(t, t.reqs[r].Target(), i);
    }
  }

  /** A token that is in no row gets no other answer. */
  lemma UnknownTokenIsRefused(s: State, r: ReqId)
    requires Reachable(s) && r in s.reqs && forall i :: i in s.rows ==> s.rows[i].tokenHash != Sha256(s.reqs[r].presented)
    ensures s.reqs[r].phase.Arrived? || s.reqs[r].phase.UnknownAnswered?
  {
    ReachableInv(s);
    assert ReqOk(s, r);
  }

  // ----- Logins and time

  /** A login step does to the table what the handler run alone does. */
  lemma LoginIsSerial(s: State, user: UserId, id: Id, token: Token, expiresAt: Time)
    requires Inv(s) && Enabled(s, Login(user, id, token, expiresAt))
    ensures EventFits(s.rows, LoggedIn(user, id, token, expiresAt))
    ensures Do(s, Login(user, id, token, expiresAt)).rows == Apply(s.rows, LoggedIn(user, id, token, expiresAt))
  {
    assert id in s.rows ==> RowOk(s, id);
  }

  /** A token left alone expires: once its time has passed, a refresh with it is refused,
      and the table stays as it is. */
  lemma UnusedTokenExpires(s: State, r: ReqId, presented: Token, o: Offer, i: Id, elapsed: nat)
      returns (steps: seq<Step>, t: State)
    requires s.locks.Keys == {} && r !in s.reqs && o.newToken !in s.tokens && o.next !in s.ids
    requires i in s.rows && s.rows[i].tokenHash == Sha256(presented) && !s.rows[i].IsRevoked()
    requires s.rows[i].expiresAt <= s.clock + elapsed && o.now == s.clock + elapsed
    ensures Possible(s, steps) && After(s, steps) == t
    ensures t.rows == s.rows && r in t.reqs && t.reqs[r].phase.ExpiredAnswered?
  {
    var u := Do(s, Tick(elapsed));
    var rest;
    rest, t := AloneIsSerial(u, r, presented, o, TokenExpired(i), true);
    FirstThen(s, Tick(elapsed), rest);
    steps := [Tick(elapsed)] + rest;
  }

  /** r presents this token, and if it rotates it decided so at time c or later. */
  predicate DecidesFrom(s: State, r: ReqId, presented: Token, c: Time) {
    && r in s.reqs && s.reqs[r].presented == presented && c <= s.clock
    && (s.reqs[r].Rotating() || s.reqs[r].Consumed() ==> c <= s.reqs[r].decidedAt)
  }

  // A request's own steps, up to a rotation's writes and from there on.
  lemma EarlyStepDecidesFrom(s: State, a: Step, r: ReqId, presented: Token, c: Time)
    requires Enabled(s, a) && IsOf(a, r) && DecidesFrom(s, r, presented, c)
    requires a.Arrive? || a.Lock? || a.Decide? || a.Insert? || a.Update? || a.Answer?
    ensures DecidesFrom(Do(s, a), r, presented, c)
  {
    match a
    case Lock(_, Some(_)) =>
    case Lock(_, None) =>
    case Decide(_, _) =>
    case Insert(_) =>
    case Update(_) =>
    case Answer(_, _) =>
  }

  lemma LateStepDecidesFrom(s: State, a: Step, r: ReqId, presented: Token, c: Time)
    requires Enabled(s, a) && IsOf(a, r) && DecidesFrom(s, r, presented, c)
    requires a.Commit? || a.Snapshot? || a.SweepRow? || a.SweepCommit? || a.Rollback? || a.Crash?
    ensures DecidesFrom(Do(s, a), r, presented, c)
  {
    var t := Do(s, a);
    match a
    case Commit(_) => assert t.reqs[r] == s.reqs[r].(phase := t.reqs[r].phase) && t.clock == s.clock;
    case Snapshot(_) =>
    case SweepRow(_, _) => assert t.reqs[r].phase.Sweeping? && t.clock == s.clock;
    case SweepCommit(_) => assert t.reqs[r].phase.Swept? && t.clock == s.clock;
    case Rollback(_) => assert (t.reqs[r].phase.ReuseAnswered? || t.reqs[r].phase.ExpiredAnswered?) && t.clock == s.clock;
    case Crash(_) => assert t.reqs[r].phase.Crashed? && t.clock == s.clock;
  }

  lemma EarlyClock(s: State, a: Step)
    requires Enabled(s, a) && (a.Tick? || a.Login? || a.Arrive? || a.Lock? || a.Decide? || a.Insert? || a.Update?)
    ensures s.clock <= Do(s, a).clock
  {
    match a
    case Tick(_) =>
    case Login(_, _, _, _) =>
    case Arrive(_, _, _, _) =>
    case Lock(_, Some(_)) =>
    case Lock(_, None) =>
    case Decide(_, _) =>
    case Insert(_) =>
    case Update(_) =>
  }

  lemma LateClock(s: State, a: Step)
    requires Enabled(s, a) && (a.Commit? || a.Answer? || a.Snapshot? || a.SweepRow? || a.SweepCommit? || a.Rollback? || a.Crash?)
    ensures Do(s, a).clock == s.clock
  {
    match a
    case Commit(_) =>
    case Answer(_, _) =>
    case Snapshot(_) =>
    case SweepRow(_, _) =>
    case SweepCommit(_) =>
    case Rollback(_) =>
    case Crash(_) =>
  }

  lemma StepDecidesFrom(s: State, a: Step, r: ReqId, presented: Token, c: Time)
    requires Enabled(s, a) && DecidesFrom(s, r, presented, c)
    ensures DecidesFrom(Do(s, a), r, presented, c)
  {
    if !IsOf(a, r) {
      StepsOfOthers(s, a, r);
      if a.Tick? || a.Login? || a.Arrive? || a.Lock? || a.Decide? || a.Insert? || a.Update? {
        EarlyClock(s, a);
      } else {
        LateClock(s, a);
      }
    } else if a.Commit? || a.Snapshot? || a.SweepRow? || a.SweepCommit? || a.Rollback? || a.Crash? {
      LateStepDecidesFrom(s, a, r, presented, c);
    } else {
      EarlyStepDecidesFrom(s, a, r, presented, c);
    }
  }

  lemma {:induction false} AlwaysDecidesFrom(s: State, steps: seq<Step>, r: ReqId, presented: Token, c: Time)
    requires Possible(s, steps) && DecidesFrom(s, r, presented, c)
    ensures DecidesFrom(After(s, steps), r, presented, c)
    decreases |steps|
  {
    if steps != [] {
      AlwaysDecidesFrom(s, steps[..|steps| - 1], r, presented, c);
      StepDecidesFrom(After(s, steps[..|steps| - 1]), steps[|steps| - 1], r, presented, c);
    }
  }

  /** What counts is the time of the decision, not that of the arrival or of the lock: a
      request that has not decided when its token expires never rotates. */
  lemma ExpiredTokenNeverRotates(s: State, steps: seq<Step>, r: ReqId, i: Id)
    requires Inv(s) && Possible(s, steps) && r in s.reqs && (s.reqs[r].phase.Arrived? || s.reqs[r].phase.Locked?)
    requires i in s.rows && s.rows[i].tokenHash == Sha256(s.reqs[r].presented) && s.rows[i].expiresAt <= s.clock
    ensures r in After(s, steps).reqs && !After(s, steps).reqs[r].Rotating() && !After(s, steps).reqs[r].Consumed()
  {
    var t := After(s, steps);
    AlwaysDecidesFrom(s, steps, r, s.reqs[r].presented, s.clock);
    RunKept(s, steps);
    RevokedRowsAreFrozen(s, steps);
    assert ReqOk(t, r);
    if t.reqs[r].Rotating() || t.reqs[r].Consumed() {
      TokenNamesOneRow(t, t.reqs[r].Target(), i);
    }
  }
}
