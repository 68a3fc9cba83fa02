/**
 Refresh-token rotation as a step machine.

 Any number of refresh requests and logins interleave; each step is one
 statement or one synchronous stretch of handler code, so nothing that another
 connection could observe half-way is collapsed.

 Assumptions: identifiers and raw tokens are fresh; SHA-256 is injective (it is
 a datatype constructor here); PostgreSQL runs READ COMMITTED, so that
 SELECT ... FOR UPDATE is exclusive and returns the latest committed row, and an
 UPDATE works from a snapshot taken at its start and re-checks every row when it
 locks it.
 */
module SessionProtocol {
  import opened Options

  type Id = nat
  type UserId = nat
  type ReqId = nat
  type Token = nat
  type Time = int

  datatype Digest = Sha256(token: Token)

  /** The columns of a session row that the protocol reads or writes. */
  datatype Row = Row(userId: UserId, tokenHash: Digest, expiresAt: Time,
                     revokedAt: Option<Time>, replacedBy: Option<Id>)
  {
    predicate IsRevoked() { revokedAt.Some? }

    predicate IsExpired(now: Time) { expiresAt <= now }

    /** The aggregate after revoke(next): consumed, and linked to its successor. */
    function Revoke(now: Time, next: Id): Row {
      this.(revokedAt := Some(now), replacedBy := Some(next))
    }

    /** The row after the bulk UPDATE: revoked_at is set, unless it already was. */
    function Sweep(now: Time): Row {
      if IsRevoked() then this else this.(revokedAt := Some(now))
    }
  }

  /** The row read under the lock, and how many turns the row had seen before. */
  datatype Sight = Sight(id: Id, row: Row, ticket: nat)

  datatype Phase =
    | Arrived
      // Transaction open, row locked:
    | Locked                 // the locking SELECT returned
    | Built(next: Id)        // the callback returned; nothing is written yet
    | Inserted(next: Id)     // successor inserted in the open transaction
    | Updated(next: Id)      // predecessor updated in the open transaction
    | Replaying              // reuse seen, bulk revoke not started
    | Sweeping(at: Time, scope: set<Id>, todo: set<Id>, held: set<Id>)
    | Swept(scope: set<Id>)  // bulk revoke committed, exception on its way
    | Rejecting              // expiry seen, exception on its way
      // Transaction over:
    | Committed(next: Id)    // rotation committed, user lookup still to come
    | Refreshed(next: Id)
    | Lost(next: Id)         // committed, but the client got an error instead of the pair
    | ReuseAnswered(scope: set<Id>)
    | ExpiredAnswered
    | UnknownAnswered
    | Crashed

  datatype Request = Request(presented: Token, newToken: Token, expiresAt: Time,
                             sight: Option<Sight>, decidedAt: Time, phase: Phase)
  {
    /** The row it locked. */
    function Target(): Id
      requires sight.Some?
    {
      sight.value.id
    }

    /** That row as it was read under the lock. */
    function Seen(): Row
      requires sight.Some?
    {
      sight.value.row
    }

    predicate InTransaction() {
      phase.Locked? || Rotating() || OpenReplay() || phase.Rejecting?
    }

    predicate Rotating() { phase.Built? || phase.Inserted? || phase.Updated? }

    predicate OpenReplay() { phase.Replaying? || phase.Sweeping? || phase.Swept? }

    /** Its rotation is durable, whatever the client was told. */
    predicate Consumed() { phase.Committed? || phase.Refreshed? || phase.Lost? }

    predicate HasNext() { Rotating() || Consumed() }

    function Next(): Id
      requires HasNext()
    {
      match phase
      case Built(n) => n
      case Inserted(n) => n
      case Updated(n) => n
      case Committed(n) => n
      case Refreshed(n) => n
      case Lost(n) => n
    }

    predicate HasScope() { phase.Sweeping? || phase.Swept? || phase.ReuseAnswered? }

    function Scope(): set<Id>
      requires HasScope()
    {
      match phase
      case Sweeping(_, scope, _, _) => scope
      case Swept(scope) => scope
      case ReuseAnswered(scope) => scope
    }

    /** The successor row the callback builds. */
    function Successor(): Row
      requires sight.Some?
    {
      Row(Seen().userId, Sha256(newToken), expiresAt, None, None)
    }
  }

  /** Who generated an identifier or a token. */
  datatype Source = ByLogin(id: Id) | ByRefresh(r: ReqId)

  datatype Owner = Transaction(r: ReqId) | Statement(r: ReqId)

  /** One completed turn on a row: a refresh that had locked it, or a bulk revoke. */
  datatype Turn = Attempt(r: ReqId, at: Time, verdict: Verdict) | BulkRevoke

  datatype Verdict = RotatedV | ReuseV | ExpiredV | CrashedV

  /**
   rows, users and locks are the database; reqs the running handlers. The rest is history:
   who issued each identifier and token, commit order, and each row's turns. users are
   all that are ever registered: no handler deletes one.
   */
  datatype State = State(
    clock: Time,
    users: set<UserId>,
    rows: map<Id, Row>,
    locks: map<Id, Owner>,
    reqs: map<ReqId, Request>,
    ids: map<Id, Source>,
    tokens: map<Token, Source>,
    births: nat,
    age: map<Id, nat>,
    log: map<Id, seq<Turn>>)

  datatype Step =
    | Tick(elapsed: nat)
    | Login(user: UserId, id: Id, token: Token, expiresAt: Time)
    | Arrive(r: ReqId, presented: Token, newToken: Token, expiresAt: Time)
    | Lock(r: ReqId, hit: Option<Id>)
    | Decide(r: ReqId, next: Id)
    | Insert(r: ReqId)
    | Update(r: ReqId)
    | Commit(r: ReqId)
    | Answer(r: ReqId, signed: bool)
    | Snapshot(r: ReqId)
    | SweepRow(r: ReqId, id: Id)
    | SweepCommit(r: ReqId)
    | Rollback(r: ReqId)
    | Crash(r: ReqId)

  function Initial(clock: Time, users: set<UserId>): State {
    State(clock, users, map[], map[], map[], map[], map[], 0, map[], map[])
  }

  function RowsOf(rows: map<Id, Row>, user: UserId): set<Id> {
    set i | i in rows && rows[i].userId == user
  }

  function LiveRowsOf(rows: map<Id, Row>, user: UserId): set<Id> {
    set i | i in rows && rows[i].userId == user && !rows[i].IsRevoked()
  }

  predicate Enabled(s: State, a: Step) {
    match a
    case Tick(_) => true
    case Login(user, id, token, _) => user in s.users && id !in s.ids && token !in s.tokens
    case Arrive(r, _, newToken, _) => r !in s.reqs && newToken !in s.tokens
    case Lock(r, hit) =>
      r in s.reqs && s.reqs[r].phase.Arrived? &&
      (match hit
       case Some(i) => i in s.rows && s.rows[i].tokenHash == Sha256(s.reqs[r].presented) && i !in s.locks
       case None => forall i :: i in s.rows ==> s.rows[i].tokenHash != Sha256(s.reqs[r].presented))
    case Decide(r, next) => r in s.reqs && s.reqs[r].phase.Locked? && s.reqs[r].sight.Some? && next !in s.ids
    case Insert(r) => r in s.reqs && s.reqs[r].phase.Built?
    case Update(r) => r in s.reqs && s.reqs[r].phase.Inserted?
    case Commit(r) => r in s.reqs && s.reqs[r].phase.Updated? && s.reqs[r].sight.Some?
    case Answer(r, _) => r in s.reqs && s.reqs[r].phase.Committed? && s.reqs[r].sight.Some?
    case Snapshot(r) => r in s.reqs && s.reqs[r].phase.Replaying? && s.reqs[r].sight.Some?
    case SweepRow(r, i) =>
      r in s.reqs && s.reqs[r].phase.Sweeping? && i in s.reqs[r].phase.todo && i !in s.locks
    case SweepCommit(r) => r in s.reqs && s.reqs[r].phase.Sweeping? && s.reqs[r].phase.todo == {}
    case Rollback(r) =>
      r in s.reqs && s.reqs[r].sight.Some? && (s.reqs[r].phase.Swept? || s.reqs[r].phase.Rejecting?)
    case Crash(r) => r in s.reqs && s.reqs[r].sight.Some? && s.reqs[r].InTransaction()
  }

  function SetPhase(s: State, r: ReqId, phase: Phase): State
    requires r in s.reqs
  {
    s.(reqs := s.reqs[r := s.reqs[r].(phase := phase)])
  }

  /** Ends r's transaction: its row is unlocked and r's turn on it is recorded. */
  function Release(s: State, r: ReqId, phase: Phase, verdict: Verdict): State
    requires r in s.reqs && s.reqs[r].sight.Some?
  {
    var i := s.reqs[r].Target();
    var turn := Attempt(r, s.reqs[r].decidedAt, verdict);
    SetPhase(s, r, phase).(
      locks := s.locks - {i},
      log := if i in s.log then s.log[i := s.log[i] + [turn]] else s.log)
  }

  /** Rows after the bulk UPDATE of the held rows. */
  function SweptRows(rows: map<Id, Row>, held: set<Id>, at: Time): map<Id, Row> {
    map i | i in rows :: if i in held then rows[i].Sweep(at) else rows[i]
  }

  function SweptLog(s: State, held: set<Id>): map<Id, seq<Turn>> {
    map i | i in s.log ::
      if i in held && i in s.rows && !s.rows[i].IsRevoked() then s.log[i] + [BulkRevoke] else s.log[i]
  }

  /** What the callback decides on the locked row: reuse first, then expiry. */
  function Decision(row: Row, now: Time, next: Id): Phase {
    if row.IsRevoked() then Replaying else if row.IsExpired(now) then Rejecting else Built(next)
  }

  function DoDecide(s: State, r: ReqId, next: Id): State
    requires Enabled(s, Decide(r, next))
  {
    var phase := Decision(s.reqs[r].Seen(), s.clock, next);
    s.(reqs := s.reqs[r := s.reqs[r].(decidedAt := s.clock, phase := phase)],
       ids := if phase.Built? then s.ids[next := ByRefresh(r)] else s.ids)
  }

  /** Publishes the two writes of r's transaction: the whole successor row and the
      whole in-memory image of the predecessor. */
  function DoCommit(s: State, r: ReqId): State
    requires Enabled(s, Commit(r))
  {
    var q := s.reqs[r];
    var i, n := q.Target(), q.phase.next;
    Release(s, r, Committed(n), RotatedV).(
      rows := s.rows[n := q.Successor()][i := q.Seen().Revoke(q.decidedAt, n)],
      births := s.births + 1,
      age := s.age[n := s.births],
      log := Release(s, r, Committed(n), RotatedV).log[n := []])
  }

  function Do(s: State, a: Step): State
    requires Enabled(s, a)
  {
    match a
    case Tick(elapsed) => s.(clock := s.clock + elapsed)
    case Login(user, id, token, expiresAt) =>
      s.(rows := s.rows[id := Row(user, Sha256(token), expiresAt, None, None)],
         ids := s.ids[id := ByLogin(id)], tokens := s.tokens[token := ByLogin(id)],
         births := s.births + 1, age := s.age[id := s.births], log := s.log[id := []])
    case Arrive(r, presented, newToken, expiresAt) =>
      s.(reqs := s.reqs[r := Request(presented, newToken, expiresAt, None, s.clock, Arrived)],
         tokens := s.tokens[newToken := ByRefresh(r)])
    case Lock(r, Some(i)) =>
      var ticket := if i in s.log then |s.log[i]| else 0;
      s.(reqs := s.reqs[r := s.reqs[r].(sight := Some(Sight(i, s.rows[i], ticket)),
                                         decidedAt := s.clock, phase := Locked)],
         locks := s.locks[i := Transaction(r)])
    case Lock(r, None) => SetPhase(s, r, UnknownAnswered)
    case Decide(r, next) => DoDecide(s, r, next)
    case Insert(r) => SetPhase(s, r, Inserted(s.reqs[r].phase.next))
    case Update(r) => SetPhase(s, r, Updated(s.reqs[r].phase.next))
    case Commit(r) => DoCommit(s, r)
    case Answer(r, signed) =>
      var n := s.reqs[r].phase.next;
      SetPhase(s, r, if s.reqs[r].Successor().userId in s.users && signed then Refreshed(n) else Lost(n))
    case Snapshot(r) =>
      var user := s.reqs[r].Seen().userId;
      SetPhase(s, r, Sweeping(s.clock, RowsOf(s.rows, user), LiveRowsOf(s.rows, user), {}))
    case SweepRow(r, i) =>
      var p := s.reqs[r].phase;
      SetPhase(s, r, Sweeping(p.at, p.scope, p.todo - {i}, p.held + {i})).(
        locks := s.locks[i := Statement(r)])
    case SweepCommit(r) =>
      var p := s.reqs[r].phase;
      SetPhase(s, r, Swept(p.scope)).(
        locks := s.locks - p.held, rows := SweptRows(s.rows, p.held, p.at), log := SweptLog(s, p.held))
    case Rollback(r) =>
      if s.reqs[r].phase.Swept?
      then Release(s, r, ReuseAnswered(s.reqs[r].phase.scope), ReuseV)
      else Release(s, r, ExpiredAnswered, ExpiredV)
    case Crash(r) =>
      var held := if s.reqs[r].phase.Sweeping? then s.reqs[r].phase.held else {};
      var t := Release(s, r, Crashed, CrashedV);
      t.(locks := t.locks - held)
  }

  /** steps can be taken one after the other from s. */
  predicate Possible(s: State, steps: seq<Step>)
    decreases |steps|, 0
  {
    steps == [] ||
    (Possible(s, steps[..|steps| - 1]) && Enabled(After(s, steps[..|steps| - 1]), steps[|steps| - 1]))
  }

  function After(s: State, steps: seq<Step>): State
    requires Possible(s, steps)
    decreases |steps|, 1
  {
    if steps == [] then s else Do(After(s, steps[..|steps| - 1]), steps[|steps| - 1])
  }

  ghost predicate Reachable(s: State) {
    exists clock: Time, users: set<UserId>, steps: seq<Step> ::
      Possible(Initial(clock, users), steps) && After(Initial(clock, users), steps) == s
  }
}
