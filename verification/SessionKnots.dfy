/**
 When a detected replay is answered. The bulk revoke of a replay waits, on a
 connection of its own, for rows that other replays hold, and the handlers wait for
 their bulk revokes. A cycle that runs through a handler is invisible to the database,
 which never breaks it. A cycle of bulk revokes alone is a deadlock that the database
 sees, and breaks by aborting one of the statements; such an abort is a Crash here, and
 so one of the ways to be cut off.
 */
module SessionKnots {
  import opened Options
  import opened SessionProtocol
  import opened SessionInvariant
  import opened SessionSafety
  import opened SessionReplay
  import opened SessionSerial

  // ----- Waiting

  /** r has the lock and its row is revoked, so that it is bound to revoke in bulk, and
      that is not done yet. */
  predicate Pending(s: State, r: ReqId) {
    && r in s.reqs && s.reqs[r].sight.Some?
    && (s.reqs[r].phase.Sweeping? || s.reqs[r].phase.Replaying? || (s.reqs[r].phase.Locked? && s.reqs[r].Seen().IsRevoked()))
  }

  /** The rows its bulk revoke still has to lock; before its snapshot, those a snapshot
      taken now would give. */
  function Wanted(s: State, r: ReqId): set<Id>
    requires Pending(s, r)
  {
    if s.reqs[r].phase.Sweeping? then s.reqs[r].phase.todo else LiveRowsOf(s.rows, s.reqs[r].Seen().userId)
  }

  predicate WaitsFor(s: State, r: ReqId, holders: set<ReqId>) {
    Pending(s, r) && exists i :: i in Wanted(s, r) && i in s.locks && s.locks[i].r in holders
  }

  /** Each of these requests waits for one of them. */
  ghost predicate Knot(s: State, knot: set<ReqId>) {
    forall r {:trigger WaitsFor(s, r, knot)} :: r in knot ==> WaitsFor(s, r, knot)
  }

  /** r has met reuse and is not answered yet. */
  predicate SawReuse(s: State, r: ReqId) {
    Pending(s, r) || (r in s.reqs && s.reqs[r].sight.Some? && s.reqs[r].phase.Swept?)
  }

  // ----- A knot lasts

  /** A step of one request leaves another's record and locks alone. */
  lemma OthersKeepLocks(s: State, a: Step, q: ReqId)
    requires Inv(s) && Enabled(s, a) && q in s.reqs && (a.Tick? || a.Login? || a.r != q)
    ensures q in Do(s, a).reqs && Do(s, a).reqs[q] == s.reqs[q]
    ensures forall i :: i in s.locks && s.locks[i].r == q ==> i in Do(s, a).locks && Do(s, a).locks[i] == s.locks[i]
  {
    if !a.Tick? && !a.Login? && !a.Arrive? { assert ReqOk(s, a.r); }
  }

  /** What a waiting request can still do, short of being cut off: lock another row, take
      its snapshot, or decide. It gives no lock back. */
  lemma WaiterKeepsLocks(s: State, a: Step, r: ReqId, knot: set<ReqId>)
    requires Inv(s) && WaitsFor(s, r, knot) && Enabled(s, a) && !a.Tick? && !a.Login? && !a.Crash? && a.r == r
    ensures a.SweepRow? || a.Snapshot? || a.Decide?
    ensures Do(s, a).rows == s.rows
    ensures forall i :: i in s.locks ==> i in Do(s, a).locks && Do(s, a).locks[i] == s.locks[i]
  {
    assert ReqOk(s, r);
  }

  lemma LockKeptInKnot(s: State, a: Step, knot: set<ReqId>, i: Id)
    requires Inv(s) && Knot(s, knot) && Enabled(s, a) && !(a.Crash? && a.r in knot)
    requires i in s.locks && s.locks[i].r in knot
    ensures i in Do(s, a).locks && Do(s, a).locks[i] == s.locks[i]
  {
    var p := s.locks[i].r;
    assert WaitsFor(s, p, knot);
    if a.Tick? || a.Login? || a.r != p {
      OthersKeepLocks(s, a, p);
    } else {
      WaiterKeepsLocks(s, a, p, knot);
    }
  }

  /** A row that a member holds is not changed. */
  lemma RowKeptInKnot(s: State, a: Step, knot: set<ReqId>, i: Id)
    requires Inv(s) && Knot(s, knot) && Enabled(s, a) && !(a.Crash? && a.r in knot)
    requires i in s.rows && i in s.locks && s.locks[i].r in knot
    ensures i in Do(s, a).rows && Do(s, a).rows[i] == s.rows[i]
  {
    StepPreserves(s, a);
    assert WaitsFor(s, s.locks[i].r, knot);
    if a.Commit? {
      assert ReqOk(s, a.r);
    } else if a.SweepCommit? {
      assert ReqOk(s, a.r);
    }
  }

  lemma StillWaits(s: State, a: Step, knot: set<ReqId>, r: ReqId)
    requires Inv(s) && Knot(s, knot) && r in knot && Enabled(s, a) && !(a.Crash? && a.r in knot)
    ensures WaitsFor(Do(s, a), r, knot)
  {
    var t := Do(s, a);
    assert WaitsFor(s, r, knot);
    var i :| i in Wanted(s, r) && i in s.locks && s.locks[i].r in knot;
    LockKeptInKnot(s, a, knot, i);
    if !s.reqs[r].phase.Sweeping? {
      RowKeptInKnot(s, a, knot, i);
    }
    if a.Tick? || a.Login? || a.r != r {
      OthersKeepLocks(s, a, r);
    } else {
      WaiterKeepsLocks(s, a, r, knot);
      assert ReqOk(s, r);
    }
    assert i in Wanted(t, r);
  }

  /** No step of anyone unties a knot, short of cutting a member off. */
  lemma KnotLasts(s: State, a: Step, knot: set<ReqId>)
    requires Inv(s) && Knot(s, knot) && Enabled(s, a) && !(a.Crash? && a.r in knot)
    ensures Knot(Do(s, a), knot)
  {
    forall r | r in knot
      ensures WaitsFor(Do(s, a), r, knot)
    {
      StillWaits(s, a, knot, r);
    }
  }

  predicate CutsNone(steps: seq<Step>, knot: set<ReqId>) {
    forall k :: 0 <= k < |steps| && steps[k].Crash? ==> steps[k].r !in knot
  }

  lemma {:induction false} KnotIsForever(s: State, steps: seq<Step>, knot: set<ReqId>)
    requires Inv(s) && Knot(s, knot) && Possible(s, steps) && CutsNone(steps, knot)
    ensures Knot(After(s, steps), knot)
    decreases |steps|
  {
    if steps != [] {
      var before := steps[..|steps| - 1];
      KnotIsForever(s, before, knot);
      RunKept(s, before);
      KnotLasts(After(s, before), steps[|steps| - 1], knot);
    }
  }

  // ----- A request that waits for nobody can end

  predicate CrashFree(steps: seq<Step>) {
    forall k :: 0 <= k < |steps| ==> !steps[k].Crash?
  }

  function Open(s: State): set<ReqId> {
    set r | r in s.reqs && s.reqs[r].InTransaction()
  }

  /** From s to t only q moved: it may hold more, and no other row is live and locked. */
  ghost predicate OnlyMoves(s: State, t: State, q: ReqId) {
    && t.reqs.Keys == s.reqs.Keys && q in t.reqs && (forall p :: p in s.reqs && p != q ==> t.reqs[p] == s.reqs[p])
    && (forall i :: i in t.locks ==> (i in s.locks && t.locks[i] == s.locks[i]) || t.locks[i].r == q)
    && (forall i :: i in t.locks && i in t.rows && !t.rows[i].IsRevoked() ==>
          i in s.rows && !s.rows[i].IsRevoked() && s.rows[i].userId == t.rows[i].userId)
  }

  /** From s to t q has ended its transaction, and nobody else moved. */
  ghost predicate Ends(s: State, t: State, q: ReqId) {
    && OnlyMoves(s, t, q) && !t.reqs[q].InTransaction()
    && forall i :: i in t.locks ==> i in s.locks && t.locks[i] == s.locks[i]
  }

  lemma WriteMovesOnly(s: State, a: Step)
    requires Inv(s) && Enabled(s, a) && (a.Decide? || a.Insert? || a.Update? || a.Snapshot? || a.SweepRow?)
    ensures OnlyMoves(s, Do(s, a), a.r)
  {
    assert forall i :: i in s.locks ==> LockOk(s, i);
    assert a.SweepRow? ==> ReqOk(s, a.r);
  }

  lemma CommitMovesOnly(s: State, r: ReqId)
    requires Inv(s) && Enabled(s, Commit(r))
    ensures OnlyMoves(s, Do(s, Commit(r)), r)
  {
    CommitFacts(s, r);
    assert forall i :: i in s.locks ==> LockOk(s, i);
  }

  lemma SweepMovesOnly(s: State, r: ReqId)
    requires Inv(s) && Enabled(s, SweepCommit(r))
    ensures OnlyMoves(s, Do(s, SweepCommit(r)), r)
  {
  }

  lemma RollbackMovesOnly(s: State, r: ReqId)
    requires Inv(s) && Enabled(s, Rollback(r))
    ensures OnlyMoves(s, Do(s, Rollback(r)), r)
  {
    var t := Do(s, Rollback(r));
    assert t.rows == s.rows && t.locks == s.locks - {s.reqs[r].Target()};
    assert t.reqs == s.reqs[r := t.reqs[r]];
  }

  lemma EndsAfter(s: State, u: State, t: State, q: ReqId)
    requires OnlyMoves(s, u, q) && Ends(u, t, q) && Inv(t)
    ensures Ends(s, t, q)
  {
    forall i | i in t.locks
      ensures i in s.locks && t.locks[i] == s.locks[i]
    {
      assert LockOk(t, i);
    }
  }

  /** q waits for nobody: no row it still wants is locked. */
  predicate Unhindered(s: State, q: ReqId) {
    Pending(s, q) ==> forall i :: i in Wanted(s, q) ==> i !in s.locks
  }

  /** How far an open transaction is from its end, the rows to lock left aside. */
  function Distance(phase: Phase): nat {
    match phase
    case Locked => 6
    case Replaying => 5
    case Sweeping(_, _, _, _) => 4
    case Swept(_) => 3
    case Built(_) => 3
    case Inserted(_) => 2
    case Updated(_) => 1
    case Rejecting => 1
    case _ => 0
  }

  function Left(phase: Phase): set<Id> {
    if phase.Sweeping? then phase.todo else {}
  }

  /** Whether it is bound to be answered as reuse does not change on the way. */
  predicate SameFate(s: State, t: State, q: ReqId) {
    SawReuse(s, q) ==> SawReuse(t, q) || (q in t.reqs && t.reqs[q].phase.ReuseAnswered?)
  }

  /** q alone moved, it is nearer its end or there, and still waits for nobody. */
  ghost predicate Onward(s: State, t: State, q: ReqId) {
    && q in s.reqs && OnlyMoves(s, t, q) && SameFate(s, t, q) && Unhindered(t, q)
    && (!t.reqs[q].InTransaction()
        || Distance(t.reqs[q].phase) < Distance(s.reqs[q].phase)
        || (Distance(t.reqs[q].phase) == Distance(s.reqs[q].phase) && Left(t.reqs[q].phase) < Left(s.reqs[q].phase)))
  }

  lemma DecideOnward(s: State, q: ReqId, next: Id)
    requires Inv(s) && Unhindered(s, q) && Enabled(s, Decide(q, next))
    ensures Onward(s, Do(s, Decide(q, next)), q)
  {
    WriteMovesOnly(s, Decide(q, next));
    assert Pending(s, q) <==> s.reqs[q].Seen().IsRevoked();
  }

  lemma WriteOnward(s: State, a: Step)
    requires Inv(s) && Enabled(s, a) && (a.Insert? || a.Update?)
    ensures Onward(s, Do(s, a), a.r)
  {
    WriteMovesOnly(s, a);
  }

  lemma CommitOnward(s: State, q: ReqId)
    requires Inv(s) && Enabled(s, Commit(q))
    ensures Onward(s, Do(s, Commit(q)), q)
  {
    CommitMovesOnly(s, q);
  }

  lemma SnapshotOnward(s: State, q: ReqId)
    requires Inv(s) && Unhindered(s, q) && Enabled(s, Snapshot(q))
    ensures Onward(s, Do(s, Snapshot(q)), q)
  {
    WriteMovesOnly(s, Snapshot(q));
  }

  lemma SweepRowOnward(s: State, q: ReqId, i: Id)
    requires Inv(s) && Unhindered(s, q) && Enabled(s, SweepRow(q, i))
    ensures Onward(s, Do(s, SweepRow(q, i)), q)
  {
    assert ReqOk(s, q);
    WriteMovesOnly(s, SweepRow(q, i));
  }

  lemma SweepCommitOnward(s: State, q: ReqId)
    requires Inv(s) && Enabled(s, SweepCommit(q))
    ensures Onward(s, Do(s, SweepCommit(q)), q)
  {
    assert ReqOk(s, q);
    SweepMovesOnly(s, q);
  }

  lemma RollbackOnward(s: State, q: ReqId)
    requires Inv(s) && Enabled(s, Rollback(q))
    ensures Onward(s, Do(s, Rollback(q)), q)
  {
    RollbackMovesOnly(s, q);
    var phase := s.reqs[q].phase;
    assert Do(s, Rollback(q)).reqs[q].phase == if phase.Swept? then ReuseAnswered(phase.scope) else ExpiredAnswered;
  }

  /** The next step of an unhindered open transaction: of one that has not decided or
      decided otherwise, and of one that has met reuse. */
  lemma NextRotationStep(s: State, q: ReqId) returns (a: Step)
    requires Inv(s) && q in Open(s) && Unhindered(s, q) && !s.reqs[q].OpenReplay()
    ensures Enabled(s, a) && !a.Crash? && !a.Tick? && !a.Login? && a.r == q && Onward(s, Do(s, a), q)
  {
    assert ReqOk(s, q);
    match s.reqs[q].phase
    case Locked =>
      var n := FreshExists(s.ids.Keys);
      a := Decide(q, n);
      DecideOnward(s, q, n);
    case Built(_) => a := Insert(q); WriteOnward(s, a);
    case Inserted(_) => a := Update(q); WriteOnward(s, a);
    case Updated(_) => a := Commit(q); CommitOnward(s, q);
    case Rejecting => a := Rollback(q); RollbackOnward(s, q);
  }

  lemma NextReplayStep(s: State, q: ReqId) returns (a: Step)
    requires Inv(s) && q in Open(s) && Unhindered(s, q) && s.reqs[q].OpenReplay()
    ensures Enabled(s, a) && !a.Crash? && !a.Tick? && !a.Login? && a.r == q && Onward(s, Do(s, a), q)
  {
    assert ReqOk(s, q);
    match s.reqs[q].phase
    case Replaying => a := Snapshot(q); SnapshotOnward(s, q);
    case Swept(_) => a := Rollback(q); RollbackOnward(s, q);
    case Sweeping(_, _, todo, _) =>
      if todo == {} {
        a := SweepCommit(q);
        SweepCommitOnward(s, q);
      } else {
        var i :| i in todo;
        a := SweepRow(q, i);
        SweepRowOnward(s, q, i);
      }
  }

  lemma NextStep(s: State, q: ReqId) returns (a: Step)
    requires Inv(s) && q in Open(s) && Unhindered(s, q)
    ensures Enabled(s, a) && !a.Crash? && !a.Tick? && !a.Login? && a.r == q && Onward(s, Do(s, a), q)
  {
    if s.reqs[q].OpenReplay() {
      a := NextReplayStep(s, q);
    } else {
      a := NextRotationStep(s, q);
    }
  }

  lemma CrashFreeJoin(first: seq<Step>, second: seq<Step>)
    requires CrashFree(first) && CrashFree(second)
    ensures CrashFree(first + second)
  {
  }

  /** One step onward, and a run to the end from there. */
  lemma StepAndRun(s: State, a: Step, rest: seq<Step>, t: State, q: ReqId)
    requires Enabled(s, a) && !a.Crash? && Onward(s, Do(s, a), q)
    requires CrashFree(rest) && Possible(Do(s, a), rest) && t == After(Do(s, a), rest)
    requires Inv(t) && Ends(Do(s, a), t, q) && (SawReuse(Do(s, a), q) ==> t.reqs[q].phase.ReuseAnswered?)
    requires Do(s, a).reqs[q].phase.ReuseAnswered? ==> t.reqs[q].phase.ReuseAnswered?
    ensures CrashFree([a] + rest) && Possible(s, [a] + rest) && t == After(s, [a] + rest)
    ensures Ends(s, t, q) && (SawReuse(s, q) ==> t.reqs[q].phase.ReuseAnswered?)
  {
    EndsAfter(s, Do(s, a), t, q);
    FirstThen(s, a, rest);
    CrashFreeJoin([a], rest);
  }

  lemma EndIsEnd(s: State, t: State, q: ReqId)
    requires Onward(s, t, q) && Inv(t) && !t.reqs[q].InTransaction()
    ensures Ends(t, t, q) && !SawReuse(t, q)
  {
  }

  /** An unhindered open transaction can be run to its end, alone. */
  lemma {:induction false} RunToEnd(s: State, q: ReqId) returns (steps: seq<Step>, t: State)
    requires Inv(s) && q in Open(s) && Unhindered(s, q)
    ensures CrashFree(steps) && Possible(s, steps) && t == After(s, steps)
    ensures Inv(t) && Ends(s, t, q)
    ensures SawReuse(s, q) ==> t.reqs[q].phase.ReuseAnswered?
    decreases Distance(s.reqs[q].phase), Left(s.reqs[q].phase)
  {
    var a := NextStep(s, q);
    var u := Do(s, a);
    StepKept(s, a);
    var rest;
    if u.reqs[q].InTransaction() {
      rest, t := RunToEnd(u, q);
    } else {
      rest, t := [], u;
      EndIsEnd(s, u, q);
    }
    StepAndRun(s, a, rest, t, q);
    steps := [a] + rest;
  }

  // ----- Who is answered

  /** A knot that is there after q ended was there before. */
  lemma KnotWasThere(s: State, t: State, q: ReqId, knot: set<ReqId>)
    requires Inv(t) && Ends(s, t, q) && Knot(t, knot)
    ensures Knot(s, knot)
  {
    forall r | r in knot
      ensures WaitsFor(s, r, knot)
    {
      assert WaitsFor(t, r, knot);
      var i :| i in Wanted(t, r) && i in t.locks && t.locks[i].r in knot;
      assert i in Wanted(s, r);
    }
  }

  lemma OpenShrinks(s: State, t: State, q: ReqId)
    requires Ends(s, t, q) && q in Open(s)
    ensures Open(t) == Open(s) - {q}
  {
  }

  lemma OwnersAreOpen(s: State)
    requires Inv(s)
    ensures forall i :: i in s.locks ==> s.locks[i].r in Open(s)
  {
    forall i | i in s.locks
      ensures s.locks[i].r in Open(s)
    {
      assert LockOk(s, i);
    }
  }

  /** If r has met reuse and is in no knot, some open transaction waits for nobody: or
      else all the open ones together were a knot. */
  lemma SomebodyIsFree(s: State, r: ReqId) returns (q: ReqId)
    requires Inv(s) && SawReuse(s, r) && forall knot :: Knot(s, knot) ==> r !in knot
    ensures q in Open(s) && Unhindered(s, q)
  {
    OwnersAreOpen(s);
    assert r in Open(s) && !Knot(s, Open(s));
    q :| q in Open(s) && !WaitsFor(s, q, Open(s));
  }

  /** r can be answered, by a continuation in which nobody is cut off. */
  ghost predicate CanBeAnswered(s: State, r: ReqId) {
    exists steps :: CrashFree(steps) && Possible(s, steps) && Answers(s, steps, r)
  }

  predicate Answers(s: State, steps: seq<Step>, r: ReqId)
    requires Possible(s, steps)
  {
    r in After(s, steps).reqs && After(s, steps).reqs[r].phase.ReuseAnswered?
  }

  /** From s to t only open transactions moved, and no lock was taken that is still held. */
  ghost predicate Settles(s: State, t: State) {
    && t.reqs.Keys == s.reqs.Keys
    && (forall q :: q in s.reqs && !s.reqs[q].InTransaction() ==> t.reqs[q] == s.reqs[q])
    && (forall i :: i in t.locks ==> i in s.locks && t.locks[i] == s.locks[i])
  }

  /** Free transactions are run to their end, one after the other, until r is answered:
      ending one never ties a knot. */
  lemma {:induction false} AnsweredOutsideKnots(s: State, r: ReqId) returns (steps: seq<Step>)
    requires Inv(s) && SawReuse(s, r) && forall knot :: Knot(s, knot) ==> r !in knot
    ensures CrashFree(steps) && Possible(s, steps) && Answers(s, steps, r) && Settles(s, After(s, steps))
    decreases |Open(s)|
  {
    var q := SomebodyIsFree(s, r);
    var t;
    steps, t := RunToEnd(s, q);
    assert Settles(s, t);
    if q != r {
      OpenShrinks(s, t, q);
      forall knot | Knot(t, knot)
        ensures r !in knot
      {
        KnotWasThere(s, t, q, knot);
      }
      var rest := AnsweredOutsideKnots(t, r);
      Chained(s, steps, rest);
      CrashFreeJoin(steps, rest);
      steps := steps + rest;
    }
  }

  lemma KnottedIsNotAnswered(s: State, steps: seq<Step>, knot: set<ReqId>, r: ReqId)
    requires Inv(s) && Knot(s, knot) && r in knot && Possible(s, steps) && CutsNone(steps, knot)
    ensures !Answers(s, steps, r)
  {
    KnotIsForever(s, steps, knot);
    assert WaitsFor(After(s, steps), r, knot);
  }

  /** The exact form of "a replay is answered". A request that has met reuse can still be
      answered, without anybody being cut off, if and only if it is in no knot. */
  lemma AnsweredIffInNoKnot(s: State, r: ReqId)
    requires Reachable(s) && SawReuse(s, r)
    ensures CanBeAnswered(s, r) <==> forall knot :: Knot(s, knot) ==> r !in knot
  {
    ReachableInv(s);
    if CanBeAnswered(s, r) {
      var steps :| CrashFree(steps) && Possible(s, steps) && Answers(s, steps, r);
      forall knot | Knot(s, knot)
        ensures r !in knot
      {
        if r in knot {
          KnottedIsNotAnswered(s, steps, knot, r);
        }
      }
    } else if forall knot :: Knot(s, knot) ==> r !in knot {
      var steps := AnsweredOutsideKnots(s, r);
    }
  }

  /** In particular if no other request of the same user has met reuse. */
  lemma LoneReplayIsAnswered(s: State, r: ReqId)
    requires Reachable(s) && SawReuse(s, r)
    requires forall q :: Pending(s, q) && q != r ==> s.reqs[q].Seen().userId != s.reqs[r].Seen().userId
    ensures CanBeAnswered(s, r)
  {
    ReachableInv(s);
    forall knot | Knot(s, knot)
      ensures r !in knot
    {
      if r in knot {
        WaitsForAnother(s, r, knot);
      }
    }
    AnsweredIffInNoKnot(s, r);
  }

  /** Who waits in a knot waits for another pending request of the same user. */
  lemma WaitsForAnother(s: State, r: ReqId, knot: set<ReqId>)
    requires Inv(s) && Knot(s, knot) && r in knot
    ensures Pending(s, r)
    ensures exists q :: q in knot && q != r && Pending(s, q) && s.reqs[q].Seen().userId == s.reqs[r].Seen().userId
  {
    assert WaitsFor(s, r, knot);
    var i :| i in Wanted(s, r) && i in s.locks && s.locks[i].r in knot;
    var q := s.locks[i].r;
    assert WaitsFor(s, q, knot);
    assert LockOk(s, i) && ReqOk(s, q) && ReqOk(s, r);
  }

  // ----- Who gets a lock

  /** q has arrived with the token of row i, and has not locked it yet. */
  predicate Asks(s: State, q: ReqId, i: Id) {
    q in s.reqs && s.reqs[q].phase.Arrived? && i in s.rows && s.rows[i].tokenHash == Sha256(s.reqs[q].presented)
  }

  predicate HeldBy(s: State, i: Id, knot: set<ReqId>) {
    i in s.locks && s.locks[i].r in knot
  }

  /** q can get past its SELECT ... FOR UPDATE without anybody being cut off. */
  ghost predicate CanProceed(s: State, q: ReqId) {
    exists steps :: CrashFree(steps) && Possible(s, steps) && Proceeds(s, steps, q)
  }

  predicate Proceeds(s: State, steps: seq<Step>, q: ReqId)
    requires Possible(s, steps)
  {
    q in After(s, steps).reqs && !After(s, steps).reqs[q].phase.Arrived?
  }

  lemma StillAsks(s: State, a: Step, knot: set<ReqId>, q: ReqId, i: Id)
    requires Inv(s) && Knot(s, knot) && Enabled(s, a) && !(a.Crash? && a.r in knot)
    requires Asks(s, q, i) && HeldBy(s, i, knot)
    ensures Asks(Do(s, a), q, i) && HeldBy(Do(s, a), i, knot)
  {
    LockKeptInKnot(s, a, knot, i);
    StepPreserves(s, a);
    if !a.Tick? && !a.Login? && a.r == q {
      assert a.Lock?;
      if a.hit.Some? { TokenNamesOneRow(s, a.hit.value, i); }
    } else {
      OthersKeepLocks(s, a, q);
    }
  }

  lemma {:induction false} AsksForever(s: State, steps: seq<Step>, knot: set<ReqId>, q: ReqId, i: Id)
    requires Inv(s) && Knot(s, knot) && Possible(s, steps) && CutsNone(steps, knot)
    requires Asks(s, q, i) && HeldBy(s, i, knot)
    ensures Asks(After(s, steps), q, i) && HeldBy(After(s, steps), i, knot)
    decreases |steps|
  {
    if steps != [] {
      var before := steps[..|steps| - 1];
      AsksForever(s, before, knot, q, i);
      RunKept(s, before);
      KnotIsForever(s, before, knot);
      StillAsks(After(s, before), steps[|steps| - 1], knot, q, i);
    }
  }

  /** The holder of a row outside every knot can be run to its end. */
  lemma HolderEnds(s: State, i: Id) returns (steps: seq<Step>, t: State)
    requires Inv(s) && i in s.locks && forall knot :: Knot(s, knot) ==> s.locks[i].r !in knot
    ensures CrashFree(steps) && Possible(s, steps) && t == After(s, steps) && Settles(s, t) && Inv(t)
    ensures i !in t.locks
  {
    var p := s.locks[i].r;
    OwnersAreOpen(s);
    if SawReuse(s, p) {
      steps := AnsweredOutsideKnots(s, p);
      t := After(s, steps);
      RunKept(s, steps);
    } else {
      steps, t := RunToEnd(s, p);
    }
    assert i in t.locks ==> LockOk(t, i);
  }

  /** A refresh that waits for its row gets it, without anybody being cut off, if and
      only if the row is held by no member of a knot. */
  lemma ProceedsIffNotHeldInKnot(s: State, q: ReqId, i: Id)
    requires Reachable(s) && Asks(s, q, i)
    ensures CanProceed(s, q) <==> forall knot :: Knot(s, knot) ==> !HeldBy(s, i, knot)
  {
    ReachableInv(s);
    if CanProceed(s, q) {
      var steps :| CrashFree(steps) && Possible(s, steps) && Proceeds(s, steps, q);
      forall knot | Knot(s, knot)
        ensures !HeldBy(s, i, knot)
      {
        if HeldBy(s, i, knot) {
          AsksForever(s, steps, knot, q, i);
        }
      }
    } else if forall knot :: Knot(s, knot) ==> !HeldBy(s, i, knot) {
      var steps, t := [], s;
      if i in s.locks {
        steps, t := HolderEnds(s, i);
        RevokedRowsAreFrozen(s, steps);
      }
      Extended(s, steps, Lock(q, Some(i)));
      CrashFreeJoin(steps, [Lock(q, Some(i))]);
      assert Proceeds(s, steps + [Lock(q, Some(i))], q);
    }
  }

  /** To get the lock is not to be answered: a refresh that locks a revoked row, while a
      member of a knot holds a live row of the same user, joins the knot. */
  lemma ReplayJoinsKnot(s: State, q: ReqId, i: Id, knot: set<ReqId>, j: Id)
    requires Inv(s) && Knot(s, knot) && Enabled(s, Lock(q, Some(i))) && s.rows[i].IsRevoked()
    requires j in LiveRowsOf(s.rows, s.rows[i].userId) && HeldBy(s, j, knot)
    ensures Knot(Do(s, Lock(q, Some(i))), knot + {q})
  {
    var t := Do(s, Lock(q, Some(i)));
    KnotLasts(s, Lock(q, Some(i)), knot);
    assert j in Wanted(t, q);
    forall r | r in knot + {q}
      ensures WaitsFor(t, r, knot + {q})
    {
      if r in knot {
        assert WaitsFor(t, r, knot);
      }
    }
  }
}
