/**
 Registration against an external identity provider: a step machine over the user
 table and the provider's identities, in which any number of registrations
 interleave and any of them can stop between two steps.
 */
module Registration {
  import opened Options

  type Id = string

  datatype User = User(externalId: Id, email: string, displayName: Option<string>, platformAdmin: bool)

  /** Which of the four places a taken email is noticed at. */
  datatype Gate = Precheck | Provider | Recheck | Constraint

  datatype Phase =
    | Started
    | Prechecked
    | Accepted(externalId: Id)
    | Rechecked(externalId: Id)
    | Done(userId: Id)
    | Rejected(gate: Gate)
    | Broken

  datatype Request = Request(email: string, displayName: Option<string>, phase: Phase)

  datatype State = State(users: map<Id, User>, identities: map<string, Id>, requests: map<nat, Request>)

  datatype Step =
    | Begin(r: nat, email: string, displayName: Option<string>)
    | CheckEmail(r: nat)
    | CallProvider(r: nat, newIdentity: Id)
      // The provider creates the identity, if it can, but its answer is an error.
    | LoseAnswer(r: nat, newIdentity: Id)
      // The provider fails and creates nothing.
    | ProviderFails(r: nat)
    | CheckEmailAgain(r: nat)
    | Save(r: nat, newUser: Id)
    | Crash(r: nat)

  predicate Taken(s: State, email: string) {
    exists u :: u in s.users && s.users[u].email == email
  }

  predicate At(s: State, r: nat, phase: Phase) {
    r in s.requests && s.requests[r].phase == phase
  }

  /** The request the provider has accepted, on its way to the user table. */
  predicate Holds(q: Request, externalId: Id) {
    q.phase == Accepted(externalId) || q.phase == Rechecked(externalId)
  }

  predicate Finished(phase: Phase) {
    phase.Done? || phase.Rejected? || phase.Broken?
  }

  predicate NewIdentity(s: State, externalId: Id) {
    forall e :: e in s.identities ==> s.identities[e] != externalId
  }

  predicate Enabled(s: State, a: Step) {
    match a
    case Begin(r, _, _) => r !in s.requests
    case CheckEmail(r) => At(s, r, Started)
    case CallProvider(r, x) => At(s, r, Prechecked) && NewIdentity(s, x)
    case LoseAnswer(r, x) => At(s, r, Prechecked) && NewIdentity(s, x)
    case ProviderFails(r) => At(s, r, Prechecked)
    case CheckEmailAgain(r) => r in s.requests && s.requests[r].phase.Accepted?
    case Save(r, u) => r in s.requests && s.requests[r].phase.Rechecked? && u !in s.users
    case Crash(r) => r in s.requests && !Finished(s.requests[r].phase)
  }

  function Goto(s: State, r: nat, phase: Phase): State
    requires r in s.requests
  {
    s.(requests := s.requests[r := s.requests[r].(phase := phase)])
  }

  /** The INSERT and the two UNIQUE constraints of the user table. */
  function Insert(users: map<Id, User>, id: Id, user: User): Option<map<Id, User>> {
    if exists u :: u in users && (users[u].email == user.email || users[u].externalId == user.externalId) then None
    else Some(users[id := user])
  }

  function Do(s: State, a: Step): State
    requires Enabled(s, a)
  {
    match a
    case Begin(r, email, displayName) => s.(requests := s.requests[r := Request(email, displayName, Started)])
    case CheckEmail(r) => Goto(s, r, if Taken(s, s.requests[r].email) then Rejected(Precheck) else Prechecked)
    case CallProvider(r, x) =>
      if s.requests[r].email in s.identities then Goto(s, r, Rejected(Provider))
      else Goto(s, r, Accepted(x)).(identities := s.identities[s.requests[r].email := x])
    case LoseAnswer(r, x) =>
      if s.requests[r].email in s.identities then Goto(s, r, Broken)
      else Goto(s, r, Broken).(identities := s.identities[s.requests[r].email := x])
    case ProviderFails(r) => Goto(s, r, Broken)
    case CheckEmailAgain(r) =>
      Goto(s, r, if Taken(s, s.requests[r].email) then Rejected(Recheck) else Rechecked(s.requests[r].phase.externalId))
    case Save(r, u) =>
      var q := s.requests[r];
      var saved := Insert(s.users, u, User(q.phase.externalId, q.email, q.displayName, false));
      if saved.None? then Goto(s, r, Rejected(Constraint)) else Goto(s, r, Done(u)).(users := saved.value)
    case Crash(r) => Goto(s, r, Broken)
  }

  const EMPTY: State := State(map[], map[], map[])

  predicate Possible(s: State, steps: seq<Step>)
    decreases |steps|, 0
  {
    steps == [] ||
    (Possible(s, steps[..|steps| - 1]) && Enabled(After(s, steps[..|steps| - 1]), steps[|steps| - 1]))
  }

  function After(s: State, steps: seq<Step>): State
    requires Possible(s, steps)
    decreases |steps|, 1
  {
    if steps == [] then s else Do(After(s, steps[..|steps| - 1]), steps[|steps| - 1])
  }

  ghost predicate Reachable(s: State) {
    exists steps :: Possible(EMPTY, steps) && After(EMPTY, steps) == s
  }

  lemma Then(s: State, steps: seq<Step>, a: Step) returns (longer: seq<Step>, t: State)
    requires Possible(s, steps) && Enabled(After(s, steps), a)
    ensures longer == steps + [a] && Possible(s, longer)
    ensures t == After(s, longer) == Do(After(s, steps), a)
  {
    longer := steps + [a];
    assert longer[..|longer| - 1] == steps;
    t := After(s, longer);
  }

  // ----- What every interleaving keeps

  /** The user's identity is the one the provider registered for the user's email. */
  predicate Identified(s: State, u: Id)
    requires u in s.users
  {
    s.users[u].email in s.identities && s.identities[s.users[u].email] == s.users[u].externalId
  }

  ghost predicate Agree(s: State) {
    && (forall u {:trigger Identified(s, u)} :: u in s.users ==> Identified(s, u))
    && (forall u, v :: u in s.users && v in s.users && s.users[u].email == s.users[v].email ==> u == v)
    && (forall u, v :: u in s.users && v in s.users && s.users[u].externalId == s.users[v].externalId ==> u == v)
    && (forall e, f :: e in s.identities && f in s.identities && s.identities[e] == s.identities[f] ==> e == f)
  }

  /** What a request in flight, or done, relies on. */
  ghost predicate RequestOk(s: State, r: nat)
    requires r in s.requests
  {
    var q := s.requests[r];
    && (q.phase.Accepted? || q.phase.Rechecked? ==>
          && q.email in s.identities && s.identities[q.email] == q.phase.externalId
          && !Taken(s, q.email)
          && forall g :: g in s.requests && g != r && s.requests[g].email == q.email ==>
                           !s.requests[g].phase.Accepted? && !s.requests[g].phase.Rechecked?)
    && (q.phase.Done? ==>
          && q.phase.userId in s.users
          && s.users[q.phase.userId].email == q.email && s.users[q.phase.userId].displayName == q.displayName
          && forall g :: g in s.requests && g != r && s.requests[g].phase.Done? ==>
                           s.requests[g].phase.userId != q.phase.userId)
  }

  ghost predicate Inv(s: State) {
    Agree(s) && forall r {:trigger RequestOk(s, r)} :: r in s.requests ==> RequestOk(s, r)
  }

  lemma StepAgrees(s: State, a: Step)
    requires Inv(s) && Enabled(s, a)
    ensures Agree(Do(s, a))
  {
    var t := Do(s, a);
    if a.Save? {
      assert RequestOk(s, a.r);
    }
    forall u | u in t.users
      ensures Identified(t, u)
    {
      assert u in s.users ==> Identified(s, u);
    }
  }

  lemma OwnStepKeeps(s: State, a: Step)
    requires Inv(s) && Enabled(s, a)
    ensures RequestOk(Do(s, a), a.r)
  {
    assert a.r in s.requests ==> RequestOk(s, a.r);
    assert forall u :: u in s.users ==> Identified(s, u);
    assert forall g :: g in s.requests ==> RequestOk(s, g);
  }

  lemma OthersStepKeeps(s: State, a: Step, r: nat)
    requires Inv(s) && Enabled(s, a) && r in s.requests && r != a.r
    ensures RequestOk(Do(s, a), r)
  {
    var t, q := Do(s, a), s.requests[r];
    assert t.requests[r] == q && RequestOk(s, r);
    assert a.r in s.requests ==> RequestOk(s, a.r);
    if q.phase.Accepted? || q.phase.Rechecked? {
      assert !Taken(t, q.email) by {
        StepTakes(s, a, q.email);
      }
    }
  }

  lemma {:induction false} RunKeeps(s: State, steps: seq<Step>)
    requires Inv(s) && Possible(s, steps)
    ensures Inv(After(s, steps))
    decreases |steps|
  {
    if steps != [] {
      var before := steps[..|steps| - 1];
      RunKeeps(s, before);
      var p, a := After(s, before), steps[|steps| - 1];
      StepAgrees(p, a);
      forall r | r in Do(p, a).requests
        ensures RequestOk(Do(p, a), r)
      {
        if r == a.r {
          OwnStepKeeps(p, a);
        } else {
          OthersStepKeeps(p, a, r);
        }
      }
    }
  }

  lemma ReachableInv(s: State)
    requires Reachable(s)
    ensures Inv(s)
  {
    var steps :| Possible(EMPTY, steps) && After(EMPTY, steps) == s;
    RunKeeps(EMPTY, steps);
  }

  /** In every interleaving: each local user is known to the provider under the same
      email and external id, and no two users share an email or an external id. */
  lemma UsersAndIdentitiesAgree(s: State)
    requires Reachable(s)
    ensures Agree(s)
  {
    ReachableInv(s);
  }

  // ----- The provider decides

  /** A request that the provider has accepted is never refused for its email: of the
      two checks after the call, neither the second look nor the UNIQUE constraints
      ever fire. It ends with its user or it crashes. */
  lemma AcceptedIsNeverRejected(s: State, a: Step)
    requires Inv(s) && Enabled(s, a) && a.r in s.requests && exists x :: Holds(s.requests[a.r], x)
    ensures !Do(s, a).requests[a.r].phase.Rejected?
    ensures s.requests[a.r].email in s.identities
    ensures a.Save? ==> Do(s, a).users == s.users[a.newUser :=
      User(s.identities[s.requests[a.r].email], s.requests[a.r].email, s.requests[a.r].displayName, false)]
  {
    assert RequestOk(s, a.r);
    if a.Save? {
      forall u | u in s.users
        ensures s.users[u].externalId != s.requests[a.r].phase.externalId
      {
        assert Identified(s, u);
      }
    }
  }

  /** A locally taken email never gets an identity: the provider has one already. */
  lemma TakenEmailIsAConflict(s: State, a: Step)
    requires Inv(s) && Enabled(s, a) && (a.CallProvider? || a.LoseAnswer?)
    requires Taken(s, s.requests[a.r].email)
    ensures Do(s, a).identities == s.identities
    ensures a.CallProvider? ==> Do(s, a).requests[a.r].phase == Rejected(Provider)
  {
    var u :| u in s.users && s.users[u].email == s.requests[a.r].email;
    assert Identified(s, u);
  }

  /** Of all registrations of one email at most one ever succeeds, and once one has, no
      other is accepted by the provider and on its way. */
  lemma OneSuccessPerEmail(s: State, r: nat, g: nat)
    requires Reachable(s) && r in s.requests && g in s.requests && s.requests[r].email == s.requests[g].email
    requires s.requests[r].phase.Done? && (s.requests[g].phase.Done? || exists x :: Holds(s.requests[g], x))
    ensures r == g
  {
    ReachableInv(s);
    assert RequestOk(s, r) && RequestOk(s, g);
  }

  // ----- Who is refused

  /** Every request that was refused asked for an email that has an identity. */
  ghost predicate RefusedHaveIdentity(s: State) {
    forall r :: r in s.requests && s.requests[r].phase.Rejected? ==> s.requests[r].email in s.identities
  }

  lemma RefusalStep(s: State, a: Step)
    requires Inv(s) && RefusedHaveIdentity(s) && Enabled(s, a)
    ensures RefusedHaveIdentity(Do(s, a))
  {
    var t := Do(s, a);
    forall r | r in t.requests && t.requests[r].phase.Rejected?
      ensures t.requests[r].email in t.identities
    {
      if r == a.r && r in s.requests && !s.requests[r].phase.Rejected? {
        RefusedAtThisStep(s, a);
      }
    }
  }

  lemma RefusedAtThisStep(s: State, a: Step)
    requires Inv(s) && Enabled(s, a) && a.r in s.requests && Do(s, a).requests[a.r].phase.Rejected?
    requires !s.requests[a.r].phase.Rejected?
    ensures s.requests[a.r].email in s.identities
  {
    assert RequestOk(s, a.r);
    if a.CheckEmail? {
      var u :| u in s.users && s.users[u].email == s.requests[a.r].email;
      assert Identified(s, u);
    }
  }

  lemma {:induction false} RefusedInEveryRun(steps: seq<Step>)
    requires Possible(EMPTY, steps)
    ensures RefusedHaveIdentity(After(EMPTY, steps))
    decreases |steps|
  {
    if steps != [] {
      RefusedInEveryRun(steps[..|steps| - 1]);
      RunKeeps(EMPTY, steps[..|steps| - 1]);
      RefusalStep(After(EMPTY, steps[..|steps| - 1]), steps[|steps| - 1]);
    }
  }

  /** Nobody is refused without a reason: in every interleaving, failures of the provider
      included, a refused registration asked for an email that the provider has an
      identity for. */
  lemma OnlyKnownEmailsAreRefused(s: State, r: nat)
    requires Reachable(s) && r in s.requests && s.requests[r].phase.Rejected?
    ensures s.requests[r].email in s.identities
  {
    var steps :| Possible(EMPTY, steps) && After(EMPTY, steps) == s;
    RefusedInEveryRun(steps);
  }

  // ----- When a taken email reaches the provider

  predicate Saves(s: State, a: Step, email: string)
    requires Enabled(s, a)
  {
    a.Save? && s.requests[a.r].email == email && Do(s, a).requests[a.r].phase.Done?
  }

  /** The k-th step of the run saves a user with this email. */
  predicate SavedAt(s: State, steps: seq<Step>, k: nat, email: string)
    requires Possible(s, steps) && k < |steps|
  {
    PrefixPossible(s, steps, k);
    PrefixPossible(s, steps, k + 1);
    assert steps[..k + 1][..k] == steps[..k];
    Saves(After(s, steps[..k]), steps[k], email)
  }

  lemma {:induction false} PrefixPossible(s: State, steps: seq<Step>, k: nat)
    requires Possible(s, steps) && k <= |steps|
    ensures Possible(s, steps[..k])
    decreases |steps|
  {
    if k == |steps| {
      assert steps[..k] == steps;
    } else {
      PrefixPossible(s, steps[..|steps| - 1], k);
      assert steps[..|steps| - 1][..k] == steps[..k];
    }
  }

  /** An email is taken after a run exactly when it was before or the run saves it. */
  lemma {:induction false} TakenIff(s: State, steps: seq<Step>, email: string)
    requires Possible(s, steps)
    ensures Taken(After(s, steps), email) <==>
            Taken(s, email) || exists k :: 0 <= k < |steps| && SavedAt(s, steps, k, email)
    decreases |steps|
  {
    if steps != [] {
      var n := |steps| - 1;
      var before := steps[..n];
      TakenIff(s, before, email);
      forall k | 0 <= k < n
        ensures SavedAt(s, before, k, email) == SavedAt(s, steps, k, email)
      {
        assert before[..k] == steps[..k];
      }
      StepTakes(After(s, before), steps[n], email);
      assert SavedAt(s, steps, n, email) == Saves(After(s, before), steps[n], email);
    }
  }

  lemma StepTakes(s: State, a: Step, email: string)
    requires Enabled(s, a)
    ensures Taken(Do(s, a), email) <==> Taken(s, email) || Saves(s, a, email)
  {
    var t := Do(s, a);
    if Taken(s, email) {
      var u :| u in s.users && s.users[u].email == email;
      assert u in t.users && t.users[u].email == email;
    }
    if Saves(s, a, email) {
      assert t.users[a.newUser].email == email;
    }
  }

  /** A taken email is kept from the provider unless it is saved between the check
      and the call, and then it does reach the provider: both directions. */
  lemma TakenEmailReachesProviderIff(s: State, r: nat, checked: State, between: seq<Step>, called: State)
    requires Enabled(s, CheckEmail(r)) && checked == Do(s, CheckEmail(r))
    requires Possible(checked, between) && called == After(checked, between)
    requires At(called, r, Prechecked)
    ensures Taken(called, s.requests[r].email) <==>
            exists k :: 0 <= k < |between| && SavedAt(checked, between, k, s.requests[r].email)
  {
    TakenIff(checked, between, s.requests[r].email);
    if Taken(s, s.requests[r].email) {
      FinishedStays(checked, between, r);
    }
  }

  lemma FinishedStep(s: State, a: Step, r: nat)
    requires Enabled(s, a) && r in s.requests && Finished(s.requests[r].phase)
    ensures r in Do(s, a).requests && Do(s, a).requests[r] == s.requests[r]
  {
  }

  lemma {:induction false} FinishedStays(s: State, steps: seq<Step>, r: nat)
    requires Possible(s, steps) && r in s.requests && Finished(s.requests[r].phase)
    ensures r in After(s, steps).requests && After(s, steps).requests[r] == s.requests[r]
    decreases |steps|
  {
    if steps != [] {
      FinishedStays(s, steps[..|steps| - 1], r);
      FinishedStep(After(s, steps[..|steps| - 1]), steps[|steps| - 1], r);
    }
  }

  /** From nothing, two registrations of one email both pass the first check. */
  lemma BothChecked(email: string) returns (steps: seq<Step>, t: State)
    ensures Possible(EMPTY, steps) && t == After(EMPTY, steps)
    ensures t.users == map[] && t.identities == map[]
    ensures t.requests == map[0 := Request(email, Option.None, Prechecked), 1 := Request(email, Option.None, Prechecked)]
  {
    steps, t := Then(EMPTY, [], Begin(0, email, Option.None));
    steps, t := Then(EMPTY, steps, Begin(1, email, Option.None));
    steps, t := Then(EMPTY, steps, CheckEmail(0));
    steps, t := Then(EMPTY, steps, CheckEmail(1));
  }

  /** Then the first is saved. */
  lemma FirstSaved(email: string) returns (steps: seq<Step>, t: State)
    ensures Possible(EMPTY, steps) && t == After(EMPTY, steps)
    ensures Taken(t, email) && At(t, 1, Prechecked) && t.requests[1].email == email && t.identities == map[email := "identity"]
  {
    steps, t := BothChecked(email);
    steps, t := Then(EMPTY, steps, CallProvider(0, "identity"));
    steps, t := Then(EMPTY, steps, CheckEmailAgain(0));
    steps, t := Then(EMPTY, steps, Save(0, "user"));
    assert "user" in t.users && t.users["user"].email == email;
  }

  /** And the second calls the provider with a taken email, and is refused there. */
  lemma TakenEmailCanReachProvider(email: string) returns (s: State, call: Step)
    ensures Reachable(s) && call.CallProvider? && Enabled(s, call)
    ensures s.requests[call.r].email == email && Taken(s, email)
    ensures Do(s, call).requests[call.r].phase == Rejected(Provider) && Do(s, call).identities == s.identities
  {
    var steps;
    steps, s := FirstSaved(email);
    call := CallProvider(1, "other");
    assert "identity" != "other";
  }

  // ----- Orphans

  /** An identity that no local user has and no request is about to give to one. */
  ghost predicate Orphan(s: State, email: string) {
    && email in s.identities
    && !Taken(s, email)
    && forall r :: r in s.requests && s.requests[r].email == email ==>
                     !s.requests[r].phase.Accepted? && !s.requests[r].phase.Rechecked?
  }

  /** An identity is orphaned by exactly two events: its request stops after the
      provider accepted it, or the provider's answer is lost. */
  lemma OrphanedIff(s: State, a: Step, email: string)
    requires Inv(s) && Enabled(s, a) && !Orphan(s, email)
    ensures Orphan(Do(s, a), email) <==>
            && a.r in s.requests && s.requests[a.r].email == email
            && ((a.Crash? && exists x :: Holds(s.requests[a.r], x)) || (a.LoseAnswer? && email !in s.identities))
  {
    StepTakes(s, a, email);
    assert a.r in s.requests ==> RequestOk(s, a.r);
    if Orphan(Do(s, a), email) && email in s.identities {
      LeftByItsHolder(s, a, email);
    } else if Orphan(Do(s, a), email) {
      assert s.requests[a.r].email == email && Do(s, a).requests[a.r].email == email;
    } else if a.LoseAnswer? && a.r in s.requests && s.requests[a.r].email == email && email !in s.identities {
      var t := Do(s, a);
      assert !Taken(s, email) by {
        assert forall u :: u in s.users ==> Identified(s, u);
      }
      forall r | r in t.requests && t.requests[r].email == email
        ensures !t.requests[r].phase.Accepted? && !t.requests[r].phase.Rechecked?
      {
        assert RequestOk(s, r);
      }
    }
  }

  lemma LeftByItsHolder(s: State, a: Step, email: string)
    requires Inv(s) && Enabled(s, a) && !Orphan(s, email) && email in s.identities && Orphan(Do(s, a), email)
    ensures a.Crash? && s.requests[a.r].email == email && exists x :: Holds(s.requests[a.r], x)
  {
    StepTakes(s, a, email);
    var t := Do(s, a);
    var r :| r in s.requests && s.requests[r].email == email && (s.requests[r].phase.Accepted? || s.requests[r].phase.Rechecked?);
    assert r in t.requests;
    assert r == a.r;
    assert Holds(s.requests[r], s.requests[r].phase.externalId);
    AcceptedIsNeverRejected(s, a);
  }

  lemma OrphanStays(s: State, a: Step, email: string)
    requires Orphan(s, email) && Enabled(s, a)
    ensures Orphan(Do(s, a), email)
  {
    StepTakes(s, a, email);
  }

  /** Nothing repairs an orphan: in every continuation the email stays orphaned, so
      that no registration of it ever succeeds. */
  lemma {:induction false} OrphanIsForever(s: State, steps: seq<Step>, email: string)
    requires Orphan(s, email) && Possible(s, steps)
    ensures Orphan(After(s, steps), email)
    decreases |steps|
  {
    if steps != [] {
      OrphanIsForever(s, steps[..|steps| - 1], email);
      OrphanStays(After(s, steps[..|steps| - 1]), steps[|steps| - 1], email);
    }
  }

  lemma OrphanedEmailNeverRegisters(s: State, steps: seq<Step>, email: string, r: nat)
    requires Inv(s) && Orphan(s, email) && Possible(s, steps)
    requires r in After(s, steps).requests && After(s, steps).requests[r].email == email
    ensures !After(s, steps).requests[r].phase.Done?
  {
    OrphanIsForever(s, steps, email);
    RunKeeps(s, steps);
    assert RequestOk(After(s, steps), r);
  }

  // ----- One registration at a time

  /** The shared builder: its fields survive from one build to the next. */
  class UserBuilder {
    var externalId: Id
    var email: string
    var displayName: Option<string>
    var platformAdmin: bool

    constructor ()
    {
      externalId, email, displayName, platformAdmin := "", "", Option.None, false;
    }

    method WithExternalId(externalId: Id)
      modifies this
      ensures this.externalId == externalId
      ensures email == old(email) && displayName == old(displayName) && platformAdmin == old(platformAdmin)
    {
      this.externalId := externalId;
    }

    method WithEmail(email: string)
      modifies this
      ensures this.email == email
      ensures externalId == old(externalId) && displayName == old(displayName) && platformAdmin == old(platformAdmin)
    {
      this.email := email;
    }

    method WithDisplayName(displayName: Option<string>)
      modifies this
      ensures this.displayName == displayName
      ensures externalId == old(externalId) && email == old(email) && platformAdmin == old(platformAdmin)
    {
      this.displayName := displayName;
    }

    method WithPlatformAdmin(platformAdmin: bool)
      modifies this
      ensures this.platformAdmin == platformAdmin
      ensures externalId == old(externalId) && email == old(email) && displayName == old(displayName)
    {
      this.platformAdmin := platformAdmin;
    }

    method Build() returns (user: User)
      ensures user == User(externalId, email, displayName, platformAdmin)
    {
      user := User(externalId, email, displayName, platformAdmin);
    }
  }

  /** What one registration does when nothing interleaves and nothing crashes. */
  function Registered(s: State, email: string, displayName: Option<string>, newIdentity: Id, newUser: Id): (State, Phase) {
    if Taken(s, email) then (s, Rejected(Precheck))
    else if email in s.identities then (s, Rejected(Provider))
    else
      var accepted := s.(identities := s.identities[email := newIdentity]);
      var saved := Insert(s.users, newUser, User(newIdentity, email, displayName, false));
      if saved.None? then (accepted, Rejected(Constraint)) else (accepted.(users := saved.value), Done(newUser))
  }

  predicate HasEmail(users: map<Id, User>, email: string) {
    exists u :: u in users && users[u].email == email
  }

  /** How the local half of a registration ends on this user table. */
  function Created(users: map<Id, User>, externalId: Id, email: string, newUser: Id): Phase {
    if HasEmail(users, email) then Rejected(Recheck)
    else if exists u :: u in users && users[u].externalId == externalId then Rejected(Constraint)
    else Done(newUser)
  }

  class RegisterUserHandler {
    var users: map<Id, User>
    var identities: map<string, Id>
    const builder: UserBuilder

    constructor (users: map<Id, User>, identities: map<string, Id>, builder: UserBuilder)
      ensures this.users == users && this.identities == identities && this.builder == builder
    {
      this.users, this.identities, this.builder := users, identities, builder;
    }

    /** CreateUserCommandHandler: the second look at the email, and the insert. The
        row depends on the arguments only, whatever the builder was left with. */
    method CreateUser(externalId: Id, email: string, displayName: Option<string>, newUser: Id) returns (end: Phase)
      modifies this`users, builder
      ensures end == Created(old(users), externalId, email, newUser)
      ensures users == if end.Done? then old(users)[newUser := User(externalId, email, displayName, false)] else old(users)
    {
      if exists u :: u in users && users[u].email == email { return Rejected(Recheck); }
      builder.WithExternalId(externalId);
      builder.WithEmail(email);
      builder.WithDisplayName(displayName);
      builder.WithPlatformAdmin(false);
      var user := builder.Build();
      var saved := Insert(users, newUser, user);
      if saved.None? { return Rejected(Constraint); }
      users := saved.value;
      end := Done(newUser);
    }

    /** RegisterUserCommandHandler. */
    method Register(email: string, displayName: Option<string>, newIdentity: Id, newUser: Id) returns (end: Phase)
      modifies this, builder
      ensures (State(users, identities, map[]), end)
           == Registered(State(old(users), old(identities), map[]), email, displayName, newIdentity, newUser)
    {
      if exists u :: u in users && users[u].email == email { return Rejected(Precheck); }
      if email in identities { return Rejected(Provider); }
      identities := identities[email := newIdentity];
      end := CreateUser(newIdentity, email, displayName, newUser);
    }
  }

  /** A new request up to its first check. */
  lemma CheckedAlone(s: State, r: nat, email: string, displayName: Option<string>) returns (steps: seq<Step>, t: State)
    requires r !in s.requests
    ensures Possible(s, steps) && t == After(s, steps)
    ensures t == s.(requests := s.requests[r := Request(email, displayName, if Taken(s, email) then Rejected(Precheck) else Prechecked)])
  {
    steps, t := Then(s, [], Begin(r, email, displayName));
    steps, t := Then(s, steps, CheckEmail(r));
    assert t.requests == s.requests[r := t.requests[r]];
  }

  /** The provider's answer to a request that has passed the check. */
  lemma CalledAlone(s: State, steps: seq<Step>, r: nat, newIdentity: Id) returns (longer: seq<Step>, t: State)
    requires Possible(s, steps) && At(After(s, steps), r, Prechecked) && NewIdentity(After(s, steps), newIdentity)
    ensures Possible(s, longer) && t == After(s, longer) && r in t.requests
    ensures var p := After(s, steps);
            var email := p.requests[r].email;
            && t.users == p.users && t.requests[r].email == email && t.requests[r].displayName == p.requests[r].displayName
            && t.identities == (if email in p.identities then p.identities else p.identities[email := newIdentity])
            && t.requests[r].phase == if email in p.identities then Rejected(Provider) else Accepted(newIdentity)
  {
    longer, t := Then(s, steps, CallProvider(r, newIdentity));
  }

  /** The rest of a request that the provider has accepted: the second look, and the save. */
  lemma AcceptedAlone(s: State, steps: seq<Step>, r: nat, newUser: Id) returns (longer: seq<Step>, t: State)
    requires Possible(s, steps) && r in After(s, steps).requests && After(s, steps).requests[r].phase.Accepted?
    requires newUser !in After(s, steps).users
    ensures Possible(s, longer) && t == After(s, longer) && r in t.requests
    ensures var p := After(s, steps);
            var q := p.requests[r];
            && t.identities == p.identities
            && t.requests[r].phase == Created(p.users, q.phase.externalId, q.email, newUser)
            && t.users == if t.requests[r].phase.Done? then p.users[newUser := User(q.phase.externalId, q.email, q.displayName, false)]
                          else p.users
  {
    longer, t := Then(s, steps, CheckEmailAgain(r));
    if !Taken(After(s, steps), After(s, steps).requests[r].email) {
      longer, t := Then(s, longer, Save(r, newUser));
    }
  }

  /** Run alone, a request goes through the machine to the same end. */
  lemma RegisteredIsAloneRun(s: State, r: nat, email: string, displayName: Option<string>, newIdentity: Id, newUser: Id)
    returns (steps: seq<Step>, t: State)
    requires r !in s.requests && NewIdentity(s, newIdentity) && newUser !in s.users
    ensures Possible(s, steps) && t == After(s, steps) && r in t.requests
    ensures var (end, phase) := Registered(s, email, displayName, newIdentity, newUser);
            t.users == end.users && t.identities == end.identities && t.requests[r].phase == phase
  {
    steps, t := CheckedAlone(s, r, email, displayName);
    if !Taken(s, email) {
      var called, u := CalledAlone(s, steps, r, newIdentity);
      steps, t := called, u;
      if email !in s.identities {
        assert !Taken(u, email);
        steps, t := AcceptedAlone(s, called, r, newUser);
      }
    }
  }

  /** Serial and failure-free, there are no orphans: the local emails are exactly the
      provider's, and a registration succeeds if and only if its email is new. */
  lemma SerialRegistration(s: State, email: string, displayName: Option<string>, newIdentity: Id, newUser: Id)
    requires Agree(s) && NewIdentity(s, newIdentity) && newUser !in s.users
    requires forall e :: e in s.identities ==> Taken(s, e)
    ensures var (t, end) := Registered(s, email, displayName, newIdentity, newUser);
            && Agree(t) && (forall e :: e in t.identities <==> Taken(t, e))
            && (end.Done? <==> !Taken(s, email)) && Taken(t, email)
            && (!end.Done? ==> t == s)
  {
    var (t, end) := Registered(s, email, displayName, newIdentity, newUser);
    assert forall u :: u in s.users ==> Identified(s, u);
    if !Taken(s, email) {
      assert email !in s.identities;
      var user := User(newIdentity, email, displayName, false);
      AddedUser(s, newUser, user);
    }
  }

  function Added(s: State, id: Id, user: User): State {
    s.(users := s.users[id := user], identities := s.identities[user.email := user.externalId])
  }

  /** A new user with a new identity of the same email. */
  lemma AddedUser(s: State, id: Id, user: User)
    requires Agree(s) && NewIdentity(s, user.externalId) && id !in s.users && user.email !in s.identities
    requires forall e :: e in s.identities ==> Taken(s, e)
    ensures Insert(s.users, id, user) == Some(s.users[id := user])
    ensures Agree(Added(s, id, user)) && forall e :: e in Added(s, id, user).identities <==> Taken(Added(s, id, user), e)
  {
    AddedAgrees(s, id, user);
    forall e
      ensures e in Added(s, id, user).identities <==> Taken(Added(s, id, user), e)
    {
      AddedTaken(s, id, user, e);
    }
  }

  lemma AddedAgrees(s: State, id: Id, user: User)
    requires Agree(s) && NewIdentity(s, user.externalId) && id !in s.users && user.email !in s.identities
    ensures Insert(s.users, id, user) == Some(s.users[id := user]) && Agree(Added(s, id, user))
  {
    var t := Added(s, id, user);
    forall u | u in s.users
      ensures Identified(t, u) && s.users[u].email != user.email && s.users[u].externalId != user.externalId
    {
      assert Identified(s, u);
    }
    assert t.users[id] == user;
  }

  lemma AddedTaken(s: State, id: Id, user: User, e: string)
    requires Agree(s) && id !in s.users
    requires e in s.identities ==> Taken(s, e)
    ensures e in Added(s, id, user).identities <==> Taken(Added(s, id, user), e)
  {
    var t := Added(s, id, user);
    assert forall u :: u in s.users ==> Identified(s, u);
    if e == user.email {
      assert t.users[id].email == e;
    } else if e in s.identities {
      var u :| u in s.users && s.users[u].email == e;
      assert t.users[u].email == e;
    }
  }
}
