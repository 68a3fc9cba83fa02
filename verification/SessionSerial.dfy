/** Rotation one request at a time: the repository and handlers as a class, the
    serial specification they meet, and that the step machine, run without
    interleaving, does the same. */
module SessionSerial {
  import opened Options
  import opened SessionProtocol
  import SessionInvariant

  datatype Reply =
    | PairIssued(row: Id, next: Id)
    | ReuseDetected(row: Id, user: UserId)
    | TokenExpired(row: Id)
    | TokenUnknown

  /** What the handler needs beside the presented token: a new pair and the time. */
  datatype Offer = Offer(now: Time, newToken: Token, expiresAt: Time, next: Id)

  /** The reply is the right one: reuse is decided before expiry, expiry before
      rotation. */
  predicate Fits(rows: map<Id, Row>, presented: Token, o: Offer, reply: Reply) {
    if reply.TokenUnknown? then forall i :: i in rows ==> rows[i].tokenHash != Sha256(presented)
    else
      && reply.row in rows && rows[reply.row].tokenHash == Sha256(presented)
      && match reply
         case ReuseDetected(i, user) => rows[i].IsRevoked() && rows[i].userId == user
         case TokenExpired(i) => !rows[i].IsRevoked() && rows[i].IsExpired(o.now)
         case PairIssued(i, next) => !rows[i].IsRevoked() && !rows[i].IsExpired(o.now) && next == o.next
  }

  /** The verdict that a reply about a known token gives. */
  function VerdictOfReply(reply: Reply): Verdict
    requires !reply.TokenUnknown?
  {
    match reply
    case PairIssued(_, _) => RotatedV
    case ReuseDetected(_, _) => ReuseV
    case TokenExpired(_) => ExpiredV
  }

  /** The verdict of a turn, as histories of interleaved runs record it, is the verdict
      of the reply that the handler run alone gives on such a row, and of no other. */
  lemma FittingReplyHasSerialVerdict(rows: map<Id, Row>, presented: Token, o: Offer, reply: Reply)
    requires !reply.TokenUnknown? && reply.row in rows && rows[reply.row].tokenHash == Sha256(presented)
    requires reply.PairIssued? ==> reply.next == o.next
    requires reply.ReuseDetected? ==> reply.user == rows[reply.row].userId
    ensures Fits(rows, presented, o, reply) <==>
            VerdictOfReply(reply) ==
            SessionInvariant.SerialVerdict(rows[reply.row].IsRevoked(), rows[reply.row].expiresAt, o.now)
  {
    match reply
    case PairIssued(_, _) =>
    case ReuseDetected(_, _) =>
    case TokenExpired(_) =>
  }

  /** The table after a reply. */
  function Settle(rows: map<Id, Row>, o: Offer, reply: Reply): map<Id, Row>
    requires reply.PairIssued? ==> reply.row in rows
  {
    match reply
    case PairIssued(i, next) =>
      rows[next := Row(rows[i].userId, Sha256(o.newToken), o.expiresAt, None, None)][i := rows[i].Revoke(o.now, next)]
    case ReuseDetected(_, user) => SweptRows(rows, LiveRowsOf(rows, user), o.now)
    case _ => rows
  }

  // ----- The repository and the handlers

  class SessionRepository {
    const users: set<UserId>
    var rows: map<Id, Row>

    constructor (users: set<UserId>)
      ensures this.users == users && rows == map[]
    {
      this.users := users;
      rows := map[];
    }

    /** INSERT: the key is new and the self-referencing foreign key is met. */
    method Insert(id: Id, row: Row)
      requires id !in rows
      requires row.replacedBy.Some? ==> row.replacedBy.value in rows
      modifies this
      ensures rows == old(rows)[id := row]
    {
      rows := rows[id := row];
    }

    /** UPDATE by key, under the same foreign key. */
    method Update(id: Id, row: Row)
      requires id in rows
      requires row.replacedBy.Some? ==> row.replacedBy.value in rows
      modifies this
      ensures rows == old(rows)[id := row]
    {
      rows := rows[id := row];
    }

    method LockByRefreshTokenHash(hash: Digest) returns (found: Option<Id>)
      ensures found.Some? ==> found.value in rows && rows[found.value].tokenHash == hash
      ensures found.None? ==> forall i :: i in rows ==> rows[i].tokenHash != hash
    {
      var rest := rows.Keys;
      while rest != {}
        invariant rest <= rows.Keys
        invariant forall i :: i in rows && i !in rest ==> rows[i].tokenHash != hash
        decreases rest
      {
        var i :| i in rest;
        if rows[i].tokenHash == hash {
          return Some(i);
        }
        rest := rest - {i};
      }
      return None;
    }

    method RevokeAllByUserId(user: UserId, now: Time)
      modifies this
      ensures rows == SweptRows(old(rows), LiveRowsOf(old(rows), user), now)
    {
      var rest := rows.Keys;
      while rest != {}
        invariant rest <= rows.Keys == old(rows).Keys
        invariant forall i :: i in rest ==> rows[i] == old(rows)[i]
        invariant forall i :: i in rows && i !in rest ==>
                                rows[i] == SweptRows(old(rows), LiveRowsOf(old(rows), user), now)[i]
        decreases rest
      {
        var i :| i in rest;
        if rows[i].userId == user && rows[i].revokedAt.None? {
          rows := rows[i := rows[i].(revokedAt := Some(now))];
        }
        rest := rest - {i};
      }
    }

    /** LoginUserCommandHandler, once the credentials are verified: every login of a user
        that there is starts a new list. */
    method Login(user: UserId, id: Id, token: Token, expiresAt: Time) returns (ok: bool)
      requires id !in rows
      modifies this
      ensures ok == (user in users)
      ensures rows == if ok then old(rows)[id := Row(user, Sha256(token), expiresAt, None, None)] else old(rows)
    {
      if user !in users { return false; }
      Insert(id, Row(user, Sha256(token), expiresAt, None, None));
      ok := true;
    }

    /** RefreshSessionCommandHandler with the callback it passes to rotate. The client gets
        the new token if the row's user is found afterwards and an access token signed. */
    method Refresh(presented: Token, o: Offer, signed: bool) returns (reply: Reply, pair: Option<Token>)
      requires o.next !in rows
      modifies this
      ensures Fits(old(rows), presented, o, reply)
      ensures rows == Settle(old(rows), o, reply)
      ensures pair == if reply.PairIssued? && old(rows)[reply.row].userId in users && signed then Some(o.newToken) else None
    {
      var found := LockByRefreshTokenHash(Sha256(presented));
      if found.None? {
        return TokenUnknown, None;
      }
      var i := found.value;
      var current := rows[i];
      if current.IsRevoked() {
        RevokeAllByUserId(current.userId, o.now);
        return ReuseDetected(i, current.userId), None;
      }
      if current.IsExpired(o.now) {
        return TokenExpired(i), None;
      }
      Insert(o.next, Row(current.userId, Sha256(o.newToken), o.expiresAt, None, None));
      Update(i, current.Revoke(o.now, o.next));
      reply := PairIssued(i, o.next);
      if rows[o.next].userId !in users || !signed {
        return reply, None;
      }
      return reply, Some(o.newToken);
    }
  }

  // ----- Conservation

  datatype Event =
    | LoggedIn(user: UserId, id: Id, token: Token, expiresAt: Time)
    | Presented(presented: Token, offer: Offer, reply: Reply)

  predicate EventFits(rows: map<Id, Row>, e: Event) {
    match e
    case LoggedIn(_, id, _, _) => id !in rows
    case Presented(presented, o, reply) => o.next !in rows && Fits(rows, presented, o, reply)
  }

  function Apply(rows: map<Id, Row>, e: Event): map<Id, Row>
    requires EventFits(rows, e)
  {
    match e
    case LoggedIn(user, id, token, expiresAt) => rows[id := Row(user, Sha256(token), expiresAt, None, None)]
    case Presented(_, o, reply) => Settle(rows, o, reply)
  }

  /** A serial history of logins and refreshes from an empty table. */
  predicate SerialRun(events: seq<Event>)
    decreases |events|, 0
  {
    events == [] ||
    (SerialRun(events[..|events| - 1]) && EventFits(TableAfter(events[..|events| - 1]), events[|events| - 1]))
  }

  function TableAfter(events: seq<Event>): map<Id, Row>
    requires SerialRun(events)
    decreases |events|, 1
  {
    if events == [] then map[] else Apply(TableAfter(events[..|events| - 1]), events[|events| - 1])
  }

  /** A user's logins since that user's last detected reuse. */
  function LoginsSinceReuse(events: seq<Event>, user: UserId): nat {
    if events == [] then 0 else Counted(LoginsSinceReuse(events[..|events| - 1], user), events[|events| - 1], user)
  }

  function Counted(before: nat, e: Event, user: UserId): nat {
    if e.LoggedIn? && e.user == user then before + 1
    else if e.Presented? && e.reply.ReuseDetected? && e.reply.user == user then 0
    else before
  }

  /** A rotation trades one unrevoked row of its user for another. */
  lemma RotationConserves(rows: map<Id, Row>, o: Offer, i: Id, next: Id, user: UserId)
    requires i in rows && !rows[i].IsRevoked() && next !in rows
    ensures |LiveRowsOf(Settle(rows, o, PairIssued(i, next)), user)| == |LiveRowsOf(rows, user)|
  {
    var t := Settle(rows, o, PairIssued(i, next));
    if rows[i].userId == user {
      assert LiveRowsOf(t, user) == LiveRowsOf(rows, user) - {i} + {next};
    } else {
      assert LiveRowsOf(t, user) == LiveRowsOf(rows, user);
    }
  }

  lemma LoginAddsOne(rows: map<Id, Row>, id: Id, row: Row, user: UserId)
    requires id !in rows && !row.IsRevoked()
    ensures |LiveRowsOf(rows[id := row], user)| == |LiveRowsOf(rows, user)| + if row.userId == user then 1 else 0
  {
    assert LiveRowsOf(rows[id := row], user) == LiveRowsOf(rows, user) + if row.userId == user then {id} else {};
  }

  lemma ReuseLeavesNone(rows: map<Id, Row>, swept: UserId, at: Time, user: UserId)
    ensures LiveRowsOf(SweptRows(rows, LiveRowsOf(rows, swept), at), user)
         == if swept == user then {} else LiveRowsOf(rows, user)
  {
  }

  /** A login adds one unrevoked row of its user, a rotation none, and a detected
      reuse leaves none. */
  lemma EventCounts(rows: map<Id, Row>, e: Event, user: UserId)
    requires EventFits(rows, e)
    ensures |LiveRowsOf(Apply(rows, e), user)| == Counted(|LiveRowsOf(rows, user)|, e, user)
  {
    match e
    case LoggedIn(u, id, token, expiresAt) =>
      LoginAddsOne(rows, id, Row(u, Sha256(token), expiresAt, None, None), user);
    case Presented(_, o, reply) =>
      match reply {
        case PairIssued(i, next) => RotationConserves(rows, o, i, next, user);
        case ReuseDetected(_, u) => ReuseLeavesNone(rows, u, o.now, user);
        case _ =>
      }
  }

  /** Conservation: after any serial history a user's unrevoked rows are as many as
      the user's logins since the last reuse event. */
  lemma {:induction false} LiveRowsAreLoginsSinceReuse(events: seq<Event>, user: UserId)
    requires SerialRun(events)
    ensures |LiveRowsOf(TableAfter(events), user)| == LoginsSinceReuse(events, user)
  {
    if events != [] {
      var before := events[..|events| - 1];
      LiveRowsAreLoginsSinceReuse(before, user);
      EventCounts(TableAfter(before), events[|events| - 1], user);
    }
  }

  // ----- The step machine run without interleaving

  lemma {:induction false} Chained(s: State, first: seq<Step>, second: seq<Step>)
    requires Possible(s, first) && Possible(After(s, first), second)
    ensures Possible(s, first + second) && After(s, first + second) == After(After(s, first), second)
    decreases |second|
  {
    if second == [] {
      assert first + second == first;
    } else {
      var n := |second| - 1;
      Chained(s, first, second[..n]);
      assert (first + second)[..|first + second| - 1] == first + second[..n];
    }
  }

  lemma Extended(s: State, steps: seq<Step>, a: Step)
    requires Possible(s, steps) && Enabled(After(s, steps), a)
    ensures Possible(s, steps + [a]) && After(s, steps + [a]) == Do(After(s, steps), a)
  {
    assert (steps + [a])[..|steps + [a]| - 1] == steps;
  }

  lemma FirstThen(s: State, a: Step, rest: seq<Step>)
    requires Enabled(s, a) && Possible(Do(s, a), rest)
    ensures Possible(s, [a] + rest) && After(s, [a] + rest) == After(Do(s, a), rest)
  {
    Extended(s, [], a);
    assert [] + [a] == [a];
    Chained(s, [a], rest);
  }

  /** The request r finished with this phase after seeing row i. */
  function Finished(s: State, r: ReqId, presented: Token, o: Offer, i: Id, phase: Phase): Request
    requires i in s.rows
  {
    var ticket := if i in s.log then |s.log[i]| else 0;
    Request(presented, o.newToken, o.expiresAt, Some(Sight(i, s.rows[i], ticket)), s.clock, phase)
  }

  /** A new request may arrive and lock row i at once. */
  predicate CanRun(s: State, r: ReqId, presented: Token, o: Offer, i: Id) {
    && r !in s.reqs && o.newToken !in s.tokens && o.next !in s.ids && o.now == s.clock
    && i in s.rows && i !in s.locks && s.rows[i].tokenHash == Sha256(presented)
  }

  lemma ArriveThenLock(s: State, r: ReqId, presented: Token, o: Offer, i: Id)
    requires CanRun(s, r, presented, o, i)
    ensures Enabled(s, Arrive(r, presented, o.newToken, o.expiresAt))
    ensures var u := Do(s, Arrive(r, presented, o.newToken, o.expiresAt));
            && Enabled(u, Lock(r, Some(i)))
            && Do(u, Lock(r, Some(i))) == s.(reqs := s.reqs[r := Finished(s, r, presented, o, i, Locked)],
                                             locks := s.locks[i := Transaction(r)],
                                             tokens := s.tokens[o.newToken := ByRefresh(r)])
  {
    var u := Do(s, Arrive(r, presented, o.newToken, o.expiresAt));
    var t := Do(u, Lock(r, Some(i)));
    assert t.reqs[r] == Finished(s, r, presented, o, i, Locked);
    assert t.reqs == s.reqs[r := t.reqs[r]];
  }

  lemma ArriveAndLock(s: State, r: ReqId, presented: Token, o: Offer, i: Id) returns (steps: seq<Step>, t: State)
    requires CanRun(s, r, presented, o, i)
    ensures Possible(s, steps) && After(s, steps) == t
    ensures t == s.(reqs := s.reqs[r := Finished(s, r, presented, o, i, Locked)],
                    locks := s.locks[i := Transaction(r)],
                    tokens := s.tokens[o.newToken := ByRefresh(r)])
  {
    var arrive, lock := Arrive(r, presented, o.newToken, o.expiresAt), Lock(r, Some(i));
    ArriveThenLock(s, r, presented, o, i);
    Extended(s, [], arrive);
    Extended(s, [] + [arrive], lock);
    steps, t := [] + [arrive] + [lock], Do(Do(s, arrive), lock);
  }

  /** Arrival, lock and decision. */
  lemma OpenAlone(s: State, r: ReqId, presented: Token, o: Offer, i: Id) returns (steps: seq<Step>, t: State)
    requires CanRun(s, r, presented, o, i)
    ensures Possible(s, steps) && After(s, steps) == t
    ensures var phase := Decision(s.rows[i], s.clock, o.next);
            t == s.(reqs := s.reqs[r := Finished(s, r, presented, o, i, phase)],
                    locks := s.locks[i := Transaction(r)],
                    tokens := s.tokens[o.newToken := ByRefresh(r)],
                    ids := if phase.Built? then s.ids[o.next := ByRefresh(r)] else s.ids)
  {
    var u;
    steps, u := ArriveAndLock(s, r, presented, o, i);
    Extended(s, steps, Decide(r, o.next));
    steps, t := steps + [Decide(r, o.next)], Do(u, Decide(r, o.next));
    assert t.reqs == s.reqs[r := t.reqs[r]];
  }

  /** From a built successor to the answer: the pair, if the user is found and the token
      signed, else an error. */
  lemma RotateAlone(s: State, r: ReqId, signed: bool) returns (steps: seq<Step>, t: State)
    requires r in s.reqs && s.reqs[r].phase.Built? && s.reqs[r].sight.Some?
    ensures Possible(s, steps) && After(s, steps) == t
    ensures var q := s.reqs[r];
            && t.rows == s.rows[q.Next() := q.Successor()][q.Target() := q.Seen().Revoke(q.decidedAt, q.Next())]
            && steps != [] && steps[|steps| - 1] == Answer(r, signed)
            && t.reqs == s.reqs[r := q.(phase := if q.Seen().userId in s.users && signed then Refreshed(q.Next()) else Lost(q.Next()))]
            && t.locks == s.locks - {q.Target()} && t.clock == s.clock && t.users == s.users && t.ids == s.ids && t.tokens == s.tokens
  {
    steps := [];
    t := s;
    Extended(s, steps, Insert(r));
    steps, t := steps + [Insert(r)], Do(t, Insert(r));
    Extended(s, steps, Update(r));
    steps, t := steps + [Update(r)], Do(t, Update(r));
    Extended(s, steps, Commit(r));
    steps, t := steps + [Commit(r)], Do(t, Commit(r));
    Extended(s, steps, Answer(r, signed));
    steps, t := steps + [Answer(r, signed)], Do(t, Answer(r, signed));
  }

  /** The statement's progress once it holds all the rows it had to do. */
  function AllHeld(p: Phase): Phase
    requires p.Sweeping?
  {
    Sweeping(p.at, p.scope, {}, p.held + p.todo)
  }

  /** A step of the bulk UPDATE, and what is left to reach the same end. */
  lemma SweepRowShape(s: State, r: ReqId, i: Id)
    requires Enabled(s, SweepRow(r, i))
    ensures var q := s.reqs[r];
            var p := Sweeping(q.phase.at, q.phase.scope, q.phase.todo - {i}, q.phase.held + {i});
            && Do(s, SweepRow(r, i)) == s.(reqs := s.reqs[r := q.(phase := p)], locks := s.locks[i := Statement(r)])
            && AllHeld(p) == AllHeld(q.phase)
            && s.locks[i := Statement(r)].Keys + p.todo == s.locks.Keys + q.phase.todo
  {
    var p := s.reqs[r].phase;
    assert (p.held + {i}) + (p.todo - {i}) == p.held + p.todo;
  }

  /** One row first, and the rest of the statement after it. */
  lemma SweepOneThen(s: State, r: ReqId, i: Id, t: State)
    requires Enabled(s, SweepRow(r, i))
    requires var u := Do(s, SweepRow(r, i));
             && t == u.(reqs := u.reqs[r := u.reqs[r].(phase := AllHeld(u.reqs[r].phase))], locks := t.locks)
             && t.locks.Keys == u.locks.Keys + u.reqs[r].phase.todo
    ensures t == s.(reqs := s.reqs[r := s.reqs[r].(phase := AllHeld(s.reqs[r].phase))], locks := t.locks)
    ensures t.locks.Keys == s.locks.Keys + s.reqs[r].phase.todo
  {
    SweepRowShape(s, r, i);
    assert t.reqs == s.reqs[r := t.reqs[r]];
  }

  /** The bulk UPDATE reaches every row it still has to do, if none is locked. */
  lemma {:induction false} SweepAlone(s: State, r: ReqId) returns (steps: seq<Step>, t: State)
    requires r in s.reqs && s.reqs[r].phase.Sweeping?
    requires forall i :: i in s.reqs[r].phase.todo ==> i !in s.locks
    ensures Possible(s, steps) && After(s, steps) == t
    ensures t == s.(reqs := s.reqs[r := s.reqs[r].(phase := AllHeld(s.reqs[r].phase))], locks := t.locks)
    ensures t.locks.Keys == s.locks.Keys + s.reqs[r].phase.todo
    decreases s.reqs[r].phase.todo
  {
    var q := s.reqs[r];
    if q.phase.todo == {} {
      steps, t := [], s;
      assert q.phase.held + {} == q.phase.held;
      assert s.reqs == s.reqs[r := q];
    } else {
      var i :| i in q.phase.todo;
      SweepRowShape(s, r, i);
      var rest;
      rest, t := SweepAlone(Do(s, SweepRow(r, i)), r);
      FirstThen(s, SweepRow(r, i), rest);
      steps := [SweepRow(r, i)] + rest;
      SweepOneThen(s, r, i, t);
    }
  }

  /** The bulk revoke of a replay, when nothing but its own row is locked. */
  lemma SnapshotAndSweep(s: State, r: ReqId) returns (steps: seq<Step>, t: State)
    requires r in s.reqs && s.reqs[r].phase.Replaying? && s.reqs[r].sight.Some?
    requires s.locks.Keys == {s.reqs[r].Target()} && s.reqs[r].Target() in s.rows && s.rows[s.reqs[r].Target()].IsRevoked()
    ensures Possible(s, steps) && After(s, steps) == t
    ensures var user := s.reqs[r].Seen().userId;
            && t.reqs == s.reqs[r := s.reqs[r].(phase := Sweeping(s.clock, RowsOf(s.rows, user), {}, LiveRowsOf(s.rows, user)))]
            && t.rows == s.rows && t.clock == s.clock && t.users == s.users && t.ids == s.ids && t.tokens == s.tokens
            && t.locks.Keys == {s.reqs[r].Target()} + LiveRowsOf(s.rows, user)
  {
    Extended(s, [], Snapshot(r));
    var u := Do(s, Snapshot(r));
    var more;
    more, t := SweepAlone(u, r);
    Chained(s, [] + [Snapshot(r)], more);
    steps := [] + [Snapshot(r)] + more;
    assert {} + LiveRowsOf(s.rows, s.reqs[r].Seen().userId) == LiveRowsOf(s.rows, s.reqs[r].Seen().userId);
    assert t.reqs == s.reqs[r := t.reqs[r]];
  }

  /** A statement with nothing left to do commits, and its transaction rolls back. */
  lemma SweptThenRolledBack(s: State, r: ReqId)
    requires Enabled(s, SweepCommit(r)) && s.reqs[r].sight.Some?
    ensures var q := s.reqs[r];
            var u := Do(s, SweepCommit(r));
            && Enabled(u, Rollback(r))
            && var t := Do(u, Rollback(r));
            && t.rows == SweptRows(s.rows, q.phase.held, q.phase.at)
            && t.reqs == s.reqs[r := q.(phase := ReuseAnswered(q.phase.scope))]
            && t.locks == s.locks - q.phase.held - {q.Target()}
            && t.clock == s.clock && t.users == s.users && t.ids == s.ids && t.tokens == s.tokens
  {
    var t := Do(Do(s, SweepCommit(r)), Rollback(r));
    assert t.reqs == s.reqs[r := t.reqs[r]];
  }

  /** From a seen reuse to the answer, when nothing but its own row is locked. */
  lemma ReplayAlone(s: State, r: ReqId) returns (steps: seq<Step>, t: State)
    requires r in s.reqs && s.reqs[r].phase.Replaying? && s.reqs[r].sight.Some?
    requires s.locks.Keys == {s.reqs[r].Target()} && s.reqs[r].Target() in s.rows && s.rows[s.reqs[r].Target()].IsRevoked()
    ensures Possible(s, steps) && After(s, steps) == t
    ensures var user := s.reqs[r].Seen().userId;
            && t.rows == SweptRows(s.rows, LiveRowsOf(s.rows, user), s.clock)
            && t.reqs == s.reqs[r := s.reqs[r].(phase := ReuseAnswered(RowsOf(s.rows, user)))]
            && t.locks.Keys == {} && t.clock == s.clock && t.users == s.users && t.ids == s.ids && t.tokens == s.tokens
  {
    var u;
    steps, u := SnapshotAndSweep(s, r);
    SweptThenRolledBack(u, r);
    Extended(s, steps, SweepCommit(r));
    Extended(s, steps + [SweepCommit(r)], Rollback(r));
    steps, t := steps + [SweepCommit(r)] + [Rollback(r)], Do(Do(u, SweepCommit(r)), Rollback(r));
    assert t.reqs == s.reqs[r := t.reqs[r]];
  }

  lemma AloneUnknown(s: State, r: ReqId, presented: Token, o: Offer) returns (steps: seq<Step>, t: State)
    requires r !in s.reqs && o.newToken !in s.tokens && Fits(s.rows, presented, o, TokenUnknown)
    ensures Possible(s, steps) && After(s, steps) == t
    ensures t.rows == s.rows && t.locks == s.locks && r in t.reqs && t.reqs[r].phase.UnknownAnswered?
  {
    var arrive := Arrive(r, presented, o.newToken, o.expiresAt);
    Extended(s, [], arrive);
    steps, t := [] + [arrive], Do(s, arrive);
    Extended(s, steps, Lock(r, None));
    steps, t := steps + [Lock(r, None)], Do(t, Lock(r, None));
  }

  lemma AloneIssued(s: State, r: ReqId, presented: Token, o: Offer, i: Id, signed: bool) returns (steps: seq<Step>, t: State)
    requires CanRun(s, r, presented, o, i) && s.locks.Keys == {}
    requires Decision(s.rows[i], s.clock, o.next) == Built(o.next)
    ensures Possible(s, steps) && After(s, steps) == t && steps != []
    ensures t.rows == s.rows[o.next := Row(s.rows[i].userId, Sha256(o.newToken), o.expiresAt, None, None)]
                            [i := s.rows[i].Revoke(s.clock, o.next)]
    ensures t.locks.Keys == {} && r in t.reqs && steps[|steps| - 1] == Answer(r, signed)
    ensures t.reqs[r].phase == if s.rows[i].userId in s.users && signed then Refreshed(o.next) else Lost(o.next)
  {
    var opening, u := OpenAlone(s, r, presented, o, i);
    var more;
    more, t := RotateAlone(u, r, signed);
    Chained(s, opening, more);
    steps := opening + more;
  }

  lemma AloneReuse(s: State, r: ReqId, presented: Token, o: Offer, i: Id) returns (steps: seq<Step>, t: State)
    requires CanRun(s, r, presented, o, i) && s.locks.Keys == {} && s.rows[i].IsRevoked()
    ensures Possible(s, steps) && After(s, steps) == t
    ensures t.rows == SweptRows(s.rows, LiveRowsOf(s.rows, s.rows[i].userId), s.clock)
    ensures t.locks.Keys == {} && r in t.reqs && t.reqs[r].phase.ReuseAnswered?
  {
    var opening, u := OpenAlone(s, r, presented, o, i);
    var more;
    more, t := ReplayAlone(u, r);
    Chained(s, opening, more);
    steps := opening + more;
  }

  lemma AloneExpired(s: State, r: ReqId, presented: Token, o: Offer, i: Id) returns (steps: seq<Step>, t: State)
    requires CanRun(s, r, presented, o, i) && s.locks.Keys == {} && Decision(s.rows[i], s.clock, o.next) == Rejecting
    ensures Possible(s, steps) && After(s, steps) == t
    ensures t.rows == s.rows && t.locks.Keys == {} && r in t.reqs && t.reqs[r].phase.ExpiredAnswered?
  {
    var opening, u := OpenAlone(s, r, presented, o, i);
    Extended(u, [], Rollback(r));
    t := Do(u, Rollback(r));
    Chained(s, opening, [] + [Rollback(r)]);
    steps := opening + ([] + [Rollback(r)]);
  }

  /** A request that runs alone leaves the table the serial specification gives,
      and its phase says the serial reply. */
  lemma AloneIsSerial(s: State, r: ReqId, presented: Token, o: Offer, reply: Reply, signed: bool)
      returns (steps: seq<Step>, t: State)
    requires s.locks.Keys == {} && r !in s.reqs && o.newToken !in s.tokens && o.next !in s.ids && o.now == s.clock
    requires Fits(s.rows, presented, o, reply)
    ensures Possible(s, steps) && After(s, steps) == t
    ensures t.rows == Settle(s.rows, o, reply) && t.locks.Keys == {} && r in t.reqs
    ensures match reply
            case PairIssued(i, next) =>
              && steps != [] && steps[|steps| - 1] == Answer(r, signed)
              && t.reqs[r].phase == if s.rows[i].userId in s.users && signed then Refreshed(next) else Lost(next)
            case ReuseDetected(_, _) => t.reqs[r].phase.ReuseAnswered?
            case TokenExpired(_) => t.reqs[r].phase.ExpiredAnswered?
            case TokenUnknown => t.reqs[r].phase.UnknownAnswered?
  {
    match reply
    case PairIssued(i, _) => steps, t := AloneIssued(s, r, presented, o, i, signed);
    case ReuseDetected(i, _) => steps, t := AloneReuse(s, r, presented, o, i);
    case TokenExpired(i) => steps, t := AloneExpired(s, r, presented, o, i);
    case TokenUnknown => steps, t := AloneUnknown(s, r, presented, o);
  }
}
