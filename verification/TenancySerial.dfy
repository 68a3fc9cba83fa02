/** The tenancy handlers one at a time: as methods over the repositories, proved to
    do what the step machine does when nothing interleaves, and what they keep. */
module TenancySerial {
  import opened Options
  import opened TenancyProtocol
  import opened TenancySafety

  /** How many repository calls are left at most. */
  function Rank(phase: Phase): nat {
    match phase
    case Started => 4
    case AppFound => 3
    case Loaded(_) => 3
    case TenantFound => 3
    case MemberTenantFound => 3
    case SlugFree => 2
    case Changed(_) => 2
    case OwnerConfirmed => 2
    case MemberUserFound(_) => 2
    case Done(_) => 0
    case Failed(_) => 0
    case _ => 1
  }

  /** The phases a handler of this job goes through. */
  predicate Fits(job: Job, phase: Phase) {
    || phase.Started? || Finished(phase)
    || (job.Create? && (phase.AppFound? || phase.SlugFree? || phase.TenantSaved?))
    || (job.Update? && (phase.Loaded? || phase.Changed? || phase.Probed?))
    || (job.Delete? && (phase.TenantFound? || phase.OwnerConfirmed? || phase.MembersDeleted?))
    || (job.AddMember? && (phase.MemberTenantFound? || phase.MemberUserFound? || phase.MemberFree?))
  }

  /** The machine run to the end of one handler; identifiers from newId on are unused. */
  function RunToEnd(st: Store, job: Job, phase: Phase, newId: Id): (Store, Phase)
    requires Fits(job, phase)
    decreases Rank(phase)
  {
    if Finished(phase) then (st, phase)
    else
      var (st', phase') := Advance(st, job, phase, newId);
      RunToEnd(st', job, phase', newId + 1)
  }

  /** Four calls end every handler. */
  lemma Unrolled(st: Store, job: Job, newId: Id)
    ensures var (s1, p1) := Advance(st, job, Started, newId);
            var (s2, p2) := Advance(s1, job, p1, newId + 1);
            var (s3, p3) := Advance(s2, job, p2, newId + 2);
            RunToEnd(st, job, Started, newId) == Advance(s3, job, p3, newId + 3)
  {
    var (s1, p1) := Advance(st, job, Started, newId);
    var (s2, p2) := Advance(s1, job, p1, newId + 1);
    var (s3, p3) := Advance(s2, job, p2, newId + 2);
    var (s4, p4) := Advance(s3, job, p3, newId + 3);
    assert RunToEnd(s4, job, p4, newId + 4) == (s4, p4);
    assert RunToEnd(s3, job, p3, newId + 3) == (s4, p4);
    assert RunToEnd(s2, job, p2, newId + 2) == (s4, p4);
    assert RunToEnd(s1, job, p1, newId + 1) == (s4, p4);
  }

  class TenancyService {
    var store: Store

    constructor (store: Store)
      ensures this.store == store
    {
      this.store := store;
    }

    method SaveTenant(id: Id, t: Tenant) returns (ok: bool)
      modifies this
      ensures ok == InsertTenant(old(store), id, t).Ok?
      ensures store == if ok then InsertTenant(old(store), id, t).value else old(store)
    {
      var r := InsertTenant(store, id, t);
      ok := r.Ok?;
      if ok { store := r.value; }
    }

    method SaveMembership(id: Id, m: Membership) returns (ok: bool)
      modifies this
      ensures ok == InsertMember(old(store), id, m).Ok?
      ensures store == if ok then InsertMember(old(store), id, m).value else old(store)
    {
      var r := InsertMember(store, id, m);
      ok := r.Ok?;
      if ok { store := r.value; }
    }

    /** CreateTenantCommandHandler: two saves, with nothing to undo the first. */
    method CreateTenant(appId: Id, name: string, slug: string, creator: Id, newId: Id) returns (end: Phase)
      modifies this
      ensures (store, end) == RunToEnd(old(store), Create(appId, name, slug, creator), Started, newId)
    {
      Unrolled(store, Create(appId, name, slug, creator), newId);
      if appId !in store.apps { return Failed(Nothing); }
      if SlugTaken(store, appId, slug) { return Failed(Nothing); }
      var ok := SaveTenant(newId + 2, Tenant(appId, name, slug));
      if !ok { return Failed(Nothing); }
      ok := SaveMembership(newId + 3, Membership(newId + 2, creator, OWNER));
      end := if ok then Done(false) else Failed(TenantOnly(newId + 2));
    }

    /** UpdateTenantCommandHandler: load, check the slug if it changes, save. */
    method UpdateTenant(id: Id, newName: Option<string>, newSlug: Option<string>, newId: Id) returns (end: Phase)
      modifies this
      ensures (store, end) == RunToEnd(old(store), Update(id, newName, newSlug), Started, newId)
    {
      Unrolled(store, Update(id, newName, newSlug), newId);
      if id !in store.tenants { return Failed(Nothing); }
      var tenant := store.tenants[id];
      if newSlug.Some? && newSlug.value != tenant.slug && SlugTaken(store, tenant.appId, newSlug.value) {
        return Failed(Nothing);
      }
      var r := TenancyProtocol.UpdateTenant(store, id, tenant, Edited(tenant, newName, newSlug));
      if r.Ok? {
        store := r.value;
        return Done(false);
      }
      return Failed(Nothing);
    }

    /** DeleteTenantCommandHandler: memberships first, then the tenant. */
    method DeleteTenant(id: Id, requester: Id, newId: Id) returns (end: Phase)
      modifies this
      ensures (store, end) == RunToEnd(old(store), Delete(id, requester), Started, newId)
    {
      Unrolled(store, Delete(id, requester), newId);
      if id !in store.tenants { return Failed(Nothing); }
      if !OwnerIn(store, id, requester) { return Failed(Nothing); }
      store := DeleteMembersOf(store, id);
      store := TenancyProtocol.DeleteTenant(store, id);
      return Done(false);
    }

    /** AddTenantMemberCommandHandler. */
    method AddTenantMember(id: Id, user: Option<Id>, role: Role, newId: Id) returns (end: Phase)
      modifies this
      ensures (store, end) == RunToEnd(old(store), AddMember(id, user, role), Started, newId)
    {
      Unrolled(store, AddMember(id, user, role), newId);
      if id !in store.tenants { return Failed(Nothing); }
      if user.None? { return Failed(Nothing); }
      if IsMember(store, id, user.value) { return Failed(Nothing); }
      var ok := SaveMembership(newId + 3, Membership(id, user.value, role));
      end := if ok then Done(false) else Failed(Nothing);
    }
  }

  // ----- What each handler does, run alone

  ghost predicate Unused(st: Store, newId: Id) {
    forall k :: k >= newId ==> k !in st.tenants && k !in st.members
  }

  /** An unknown app or a slug that a tenant of the app holds is refused, without a trace;
      else the tenant is there with exactly these columns, and its creator is its owner
      unless the creator is no user, when the tenant is left without one. */
  lemma CreateDoes(st: Store, appId: Id, name: string, slug: string, creator: Id, newId: Id)
    requires Consistent(st) && Unused(st, newId)
    ensures var (end, phase) := RunToEnd(st, Create(appId, name, slug, creator), Started, newId);
            var tenants := st.tenants[newId + 2 := Tenant(appId, name, slug)];
            if appId !in st.apps || (exists t :: t in st.tenants && st.tenants[t].appId == appId && st.tenants[t].slug == slug)
            then phase == Failed(Nothing) && end == st
            else if creator !in st.users
            then phase == Failed(TenantOnly(newId + 2)) && end == st.(tenants := tenants)
            else && phase == Done(false)
                 && end == st.(tenants := tenants, members := st.members[newId + 3 := Membership(newId + 2, creator, OWNER)])
  {
    var job := Create(appId, name, slug, creator);
    Unrolled(st, job, newId);
    if appId in st.apps && !SlugTaken(st, appId, slug) {
      var saved := InsertTenant(st, newId + 2, Tenant(appId, name, slug)).value;
      assert !IsMember(saved, newId + 2, creator);
    }
  }

  /** An unknown tenant, or a new slug that another tenant of the app holds, is refused,
      without a trace; else the tenant ends with the given name and slug, each as before
      if not given, and nothing else changes. */
  lemma UpdateDoes(st: Store, id: Id, newName: Option<string>, newSlug: Option<string>, newId: Id)
    requires Consistent(st)
    ensures var (end, phase) := RunToEnd(st, Update(id, newName, newSlug), Started, newId);
            if id !in st.tenants then phase == Failed(Nothing) && end == st
            else
              var before := st.tenants[id];
              if newSlug.Some? && exists t :: t in st.tenants && t != id && st.tenants[t].appId == before.appId &&
                                              st.tenants[t].slug == newSlug.value
              then phase == Failed(Nothing) && end == st
              else
                && phase == Done(false)
                && end == st.(tenants := st.tenants[id := Tenant(before.appId,
                                                                 if newName.Some? then newName.value else before.name,
                                                                 if newSlug.Some? then newSlug.value else before.slug)])
  {
    Unrolled(st, Update(id, newName, newSlug), newId);
  }

  /** Only an owner deletes: if the tenant is there and the requester has a membership of
      it with the role OWNER, the tenant and all its memberships are gone, and nothing
      else; otherwise the request is refused, without a trace. */
  lemma DeleteDoes(st: Store, id: Id, requester: Id, newId: Id)
    ensures var (end, phase) := RunToEnd(st, Delete(id, requester), Started, newId);
            if id in st.tenants && exists m ::
                 m in st.members && st.members[m].tenantId == id && st.members[m].userId == requester && st.members[m].role == OWNER
            then && phase == Done(false) && end.apps == st.apps && end.users == st.users
                 && (forall t :: t in end.tenants <==> t in st.tenants && t != id)
                 && (forall t :: t in end.tenants ==> end.tenants[t] == st.tenants[t])
                 && (forall m :: m in end.members <==> m in st.members && st.members[m].tenantId != id)
                 && (forall m :: m in end.members ==> end.members[m] == st.members[m])
            else phase == Failed(Nothing) && end == st
  {
    Unrolled(st, Delete(id, requester), newId);
    if m :| m in st.members && st.members[m].tenantId == id && st.members[m].userId == requester && st.members[m].role == OWNER {
      assert st.members[m] == Membership(id, requester, OWNER);
    }
  }

  /** An unknown tenant or user, or a user who is a member already, is refused, without a
      trace; else the user is a member, with the role asked for. */
  lemma AddMemberDoes(st: Store, id: Id, user: Option<Id>, role: Role, newId: Id)
    requires Unused(st, newId)
    ensures var (end, phase) := RunToEnd(st, AddMember(id, user, role), Started, newId);
            if || id !in st.tenants || user.None? || user.value !in st.users
               || exists m :: m in st.members && st.members[m].tenantId == id && st.members[m].userId == user.value
            then phase == Failed(Nothing) && end == st
            else phase == Done(false) && end == st.(members := st.members[newId + 3 := Membership(id, user.value, role)])
  {
    Unrolled(st, AddMember(id, user, role), newId);
  }

  // ----- At handler boundaries

  ghost predicate EveryTenantOwned(st: Store) {
    forall t :: t in st.tenants ==> Owned(st, t)
  }

  /** The create that gets past its checks but whose creator is not a user. */
  predicate Strands(st: Store, job: Job) {
    job.Create? && job.appId in st.apps && !SlugTaken(st, job.appId, job.slug) && job.creator !in st.users
  }

  lemma OwnerStaysToEnd(st: Store, job: Job, newId: Id, t: Id)
    requires t in st.tenants && Owned(st, t) && !(job.Delete? && job.tenantId == t)
    ensures Owned(RunToEnd(st, job, Started, newId).0, t)
  {
    Unrolled(st, job, newId);
    var (s1, p1) := Advance(st, job, Started, newId);
    var (s2, p2) := Advance(s1, job, p1, newId + 1);
    var (s3, p3) := Advance(s2, job, p2, newId + 2);
    OwnerStays(st, job, Started, newId, t);
    TenantStays(st, job, Started, newId, t);
    OwnerStays(s1, job, p1, newId + 1, t);
    TenantStays(s1, job, p1, newId + 1, t);
    OwnerStays(s2, job, p2, newId + 2, t);
    TenantStays(s2, job, p2, newId + 2, t);
    OwnerStays(s3, job, p3, newId + 3, t);
  }

  lemma TenantStays(st: Store, job: Job, phase: Phase, newId: Id, t: Id)
    requires t in st.tenants && !(job.Delete? && job.tenantId == t)
    ensures t in Advance(st, job, phase, newId).0.tenants
  {
  }

  function WithTenant(st: Store, id: Id, job: Job): Store
    requires job.Create?
  {
    st.(tenants := st.tenants[id := Tenant(job.appId, job.name, job.slug)])
  }

  function WithOwner(st: Store, member: Id, tenant: Id, owner: Id): Store {
    st.(members := st.members[member := Membership(tenant, owner, OWNER)])
  }

  /** Where a create that passes its checks ends: the tenant is there, and its owner
      too if the creator is a user. */
  lemma CreateEnds(st: Store, job: Job, newId: Id)
    requires Consistent(st) && Unused(st, newId)
    requires job.Create? && job.appId in st.apps && !SlugTaken(st, job.appId, job.slug)
    ensures RunToEnd(st, job, Started, newId).0 ==
            if job.creator in st.users then WithOwner(WithTenant(st, newId + 2, job), newId + 3, newId + 2, job.creator)
            else WithTenant(st, newId + 2, job)
  {
    Unrolled(st, job, newId);
    var saved := InsertTenant(st, newId + 2, Tenant(job.appId, job.name, job.slug)).value;
    assert saved == WithTenant(st, newId + 2, job);
    assert !IsMember(saved, newId + 2, job.creator);
  }

  lemma NewTenantOwnedIff(st: Store, job: Job, newId: Id, owned: bool)
    requires Consistent(st) && EveryTenantOwned(st) && Unused(st, newId) && job.Create?
    ensures var saved := WithTenant(st, newId + 2, job);
            EveryTenantOwned(if owned then WithOwner(saved, newId + 3, newId + 2, job.creator) else saved) <==> owned
  {
    var saved := WithTenant(st, newId + 2, job);
    var end := if owned then WithOwner(saved, newId + 3, newId + 2, job.creator) else saved;
    forall t | t in st.tenants
      ensures Owned(end, t)
    {
      var m :| m in st.members && st.members[m].tenantId == t && st.members[m].role == OWNER;
      assert m in end.members && end.members[m] == st.members[m];
    }
    if owned {
      assert end.members[newId + 3] == Membership(newId + 2, job.creator, OWNER);
    } else {
      assert !Owned(end, newId + 2);
    }
  }

  lemma CreateAlone(st: Store, job: Job, newId: Id)
    requires Consistent(st) && EveryTenantOwned(st) && Unused(st, newId) && job.Create?
    ensures EveryTenantOwned(RunToEnd(st, job, Started, newId).0) <==> !Strands(st, job)
  {
    if job.appId in st.apps && !SlugTaken(st, job.appId, job.slug) {
      CreateEnds(st, job, newId);
      NewTenantOwnedIff(st, job, newId, job.creator in st.users);
    } else {
      Unrolled(st, job, newId);
    }
  }

  lemma DeleteAlone(st: Store, job: Job, newId: Id)
    requires EveryTenantOwned(st) && job.Delete?
    ensures EveryTenantOwned(RunToEnd(st, job, Started, newId).0)
  {
    Unrolled(st, job, newId);
    var end := RunToEnd(st, job, Started, newId).0;
    forall t | t in end.tenants ensures Owned(end, t) {
      if t == job.tenantId { assert end == st; } else { OwnerStaysToEnd(st, job, newId, t); }
    }
  }

  lemma EditAlone(st: Store, job: Job, newId: Id)
    requires EveryTenantOwned(st) && (job.Update? || job.AddMember?)
    ensures EveryTenantOwned(RunToEnd(st, job, Started, newId).0)
  {
    Unrolled(st, job, newId);
    var end := RunToEnd(st, job, Started, newId).0;
    assert end.tenants.Keys == st.tenants.Keys;
    forall t | t in end.tenants ensures Owned(end, t) { OwnerStaysToEnd(st, job, newId, t); }
  }

  lemma ConsistentToEnd(st: Store, job: Job, newId: Id)
    requires Consistent(st)
    ensures Consistent(RunToEnd(st, job, Started, newId).0)
  {
    Unrolled(st, job, newId);
    var (s1, p1) := Advance(st, job, Started, newId);
    var (s2, p2) := Advance(s1, job, p1, newId + 1);
    var (s3, p3) := Advance(s2, job, p2, newId + 2);
    AdvanceConsistent(st, job, Started, newId);
    AdvanceConsistent(s1, job, p1, newId + 1);
    AdvanceConsistent(s2, job, p2, newId + 2);
    AdvanceConsistent(s3, job, p3, newId + 3);
  }

  /** When handlers run one at a time and are not cut off, every tenant keeps an
      owner at every handler boundary, except exactly when a create gets past its
      checks for a creator that is not a user: then its second save is rejected. */
  lemma OwnersAtBoundaries(st: Store, job: Job, newId: Id)
    requires Consistent(st) && EveryTenantOwned(st) && Unused(st, newId)
    ensures EveryTenantOwned(RunToEnd(st, job, Started, newId).0) <==> !Strands(st, job)
  {
    if job.Create? {
      CreateAlone(st, job, newId);
    } else if job.Delete? {
      DeleteAlone(st, job, newId);
    } else {
      EditAlone(st, job, newId);
    }
  }

  lemma UnusedToEnd(st: Store, job: Job, newId: Id)
    requires Unused(st, newId)
    ensures Unused(RunToEnd(st, job, Started, newId).0, newId + 4)
  {
    Unrolled(st, job, newId);
  }

  /** The tables after these handlers, one after the other. */
  function RunJobs(st: Store, jobs: seq<Job>, newId: Id): Store
    decreases |jobs|
  {
    if jobs == [] then st else RunJobs(RunToEnd(st, jobs[0], Started, newId).0, jobs[1..], newId + 4)
  }

  predicate NoneStrands(st: Store, jobs: seq<Job>, newId: Id)
    decreases |jobs|
  {
    jobs == [] ||
    (!Strands(st, jobs[0]) && NoneStrands(RunToEnd(st, jobs[0], Started, newId).0, jobs[1..], newId + 4))
  }

  /** After any serial, uninterrupted history whose creators are users, every tenant
      has an owner. */
  lemma {:induction false} SerialHistoryKeepsOwners(st: Store, jobs: seq<Job>, newId: Id)
    requires Consistent(st) && EveryTenantOwned(st) && Unused(st, newId) && NoneStrands(st, jobs, newId)
    ensures EveryTenantOwned(RunJobs(st, jobs, newId)) && Consistent(RunJobs(st, jobs, newId))
    decreases |jobs|
  {
    if jobs != [] {
      OwnersAtBoundaries(st, jobs[0], newId);
      ConsistentToEnd(st, jobs[0], newId);
      UnusedToEnd(st, jobs[0], newId);
      SerialHistoryKeepsOwners(RunToEnd(st, jobs[0], Started, newId).0, jobs[1..], newId + 4);
    }
  }
}
