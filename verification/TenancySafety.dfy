/** What the tenancy tables keep in every interleaving of the handlers. */
module TenancySafety {
  import opened Options
  import opened TenancyProtocol

  // ----- Constraints

  /** Unique slugs per app, unique memberships, no orphans. */
  ghost predicate Consistent(st: Store) {
    && (forall t :: t in st.tenants ==> st.tenants[t].appId in st.apps)
    && (forall t, u ::
          t in st.tenants && u in st.tenants && st.tenants[t].appId == st.tenants[u].appId &&
          st.tenants[t].slug == st.tenants[u].slug
          ==> t == u)
    && (forall m :: m in st.members ==> st.members[m].tenantId in st.tenants && st.members[m].userId in st.users)
    && (forall m, n ::
          m in st.members && n in st.members && st.members[m].tenantId == st.members[n].tenantId &&
          st.members[m].userId == st.members[n].userId
          ==> m == n)
  }

  lemma InsertTenantConsistent(st: Store, id: Id, t: Tenant)
    requires Consistent(st) && InsertTenant(st, id, t).Ok?
    ensures Consistent(InsertTenant(st, id, t).value)
  {
  }

  lemma UpdateTenantConsistent(st: Store, id: Id, probed: Tenant, image: Tenant)
    requires Consistent(st) && UpdateTenant(st, id, probed, image).Ok?
    ensures Consistent(UpdateTenant(st, id, probed, image).value)
  {
  }

  lemma InsertMemberConsistent(st: Store, id: Id, m: Membership)
    requires Consistent(st) && InsertMember(st, id, m).Ok?
    ensures Consistent(InsertMember(st, id, m).value)
  {
  }

  lemma DeletesConsistent(st: Store, id: Id)
    requires Consistent(st)
    ensures Consistent(DeleteMembersOf(st, id)) && Consistent(DeleteTenant(st, id))
  {
  }

  lemma AdvanceConsistent(st: Store, job: Job, phase: Phase, newId: Id)
    requires Consistent(st)
    ensures Consistent(Advance(st, job, phase, newId).0)
  {
    match job
    case Create(appId, name, slug, creator) =>
      if phase.SlugFree? && InsertTenant(st, newId, Tenant(appId, name, slug)).Ok? {
        InsertTenantConsistent(st, newId, Tenant(appId, name, slug));
      } else if phase.TenantSaved? && InsertMember(st, newId, Membership(phase.id, creator, OWNER)).Ok? {
        InsertMemberConsistent(st, newId, Membership(phase.id, creator, OWNER));
      }
    case Update(id, _, _) =>
      if phase.Probed? && phase.row.Some? && UpdateTenant(st, id, phase.row.value, phase.image).Ok? {
        UpdateTenantConsistent(st, id, phase.row.value, phase.image);
      } else if phase.Probed? && phase.row.None? && InsertTenant(st, id, phase.image).Ok? {
        InsertTenantConsistent(st, id, phase.image);
      }
    case Delete(id, _) =>
      DeletesConsistent(st, id);
    case AddMember(id, _, role) =>
      if phase.MemberFree? && InsertMember(st, newId, Membership(id, phase.userId, role)).Ok? {
        InsertMemberConsistent(st, newId, Membership(id, phase.userId, role));
      }
  }

  /** In every interleaving slugs stay unique per app, (tenant, user) pairs stay
      unique, and every membership points to a tenant and a user that exist. */
  lemma {:induction false} AlwaysConsistent(s: State, steps: seq<Step>)
    requires Consistent(s.store) && Possible(s, steps)
    ensures Consistent(After(s, steps).store)
    decreases |steps|
  {
    if steps != [] {
      var before := steps[..|steps| - 1];
      AlwaysConsistent(s, before);
      var t := After(s, before);
      match steps[|steps| - 1]
      case Advances(h, newId) => AdvanceConsistent(t.store, t.handlers[h].job, t.handlers[h].phase, newId);
      case _ =>
    }
  }

  /** A handler that throws has left the tables as its last step found them. */
  lemma RejectedStepChangesNothing(st: Store, job: Job, phase: Phase, newId: Id)
    requires !Finished(phase) && Advance(st, job, phase, newId).1.Failed?
    ensures Advance(st, job, phase, newId).0 == st
  {
  }

  // ----- What the checks alone do not give

  /** A create past its check saves exactly if the app is there, the id is new and, at
      that moment, no tenant of the app holds the slug. */
  lemma CreateSavesIff(s: State, g: nat, id: Id)
    requires Enabled(s, Advances(g, id)) && s.handlers[g].job.Create? && s.handlers[g].phase == SlugFree
    ensures var job, t := s.handlers[g].job, Do(s, Advances(g, id));
            if && job.appId in s.store.apps && id !in s.store.tenants
               && forall u :: u in s.store.tenants && s.store.tenants[u].slug == job.slug ==> s.store.tenants[u].appId != job.appId
            then && t.handlers[g].phase == TenantSaved(id)
                 && t.store == s.store.(tenants := s.store.tenants[id := Tenant(job.appId, job.name, job.slug)])
            else t.handlers[g].phase == Failed(Nothing) && t.store == s.store
  {
  }

  predicate HoldsSlug(st: Store, id: Id, appId: Id, slug: string) {
    id in st.tenants && st.tenants[id].appId == appId && st.tenants[id].slug == slug
  }

  /** The two statements that take its slug from a tenant, each when it takes effect: the
      second delete of a delete, and an update to another slug. */
  predicate FreesSlug(s: State, a: Step, id: Id)
    requires Enabled(s, a) && id in s.store.tenants
  {
    && a.Advances?
    && var h, st := s.handlers[a.h], s.store;
    || (h.job.Delete? && h.phase == MembersDeleted && h.job.tenantId == id)
    || (h.job.Update? && h.phase.Probed? && h.phase.row.Some? && h.job.tenantId == id &&
        h.phase.image.slug != h.phase.row.value.slug && h.phase.image.slug != st.tenants[id].slug &&
        UpdateTenant(st, id, h.phase.row.value, h.phase.image).Ok?)
  }

  lemma SlugLostIff(s: State, a: Step, id: Id, appId: Id, slug: string)
    requires Enabled(s, a) && HoldsSlug(s.store, id, appId, slug)
    ensures !HoldsSlug(Do(s, a).store, id, appId, slug) <==> FreesSlug(s, a, id)
  {
  }

  /** Step k takes its slug from the tenant. */
  predicate FreesSlugAt(s: State, steps: seq<Step>, k: nat, id: Id)
    requires Possible(s, steps)
  {
    && k < |steps|
    && (PrefixPossible(s, steps, k);
        id in After(s, steps[..k]).store.tenants && FreesSlug(After(s, steps[..k]), steps[k], id))
  }

  lemma {:induction false} SlugIsHeldOrFreed(s: State, steps: seq<Step>, id: Id, appId: Id, slug: string)
    requires Possible(s, steps) && HoldsSlug(s.store, id, appId, slug)
    ensures HoldsSlug(After(s, steps).store, id, appId, slug) || exists k :: FreesSlugAt(s, steps, k, id)
    decreases |steps|
  {
    if steps != [] {
      var n := |steps| - 1;
      var before := steps[..n];
      SlugIsHeldOrFreed(s, before, id, appId, slug);
      if HoldsSlug(After(s, before).store, id, appId, slug) {
        SlugLostIff(After(s, before), steps[n], id, appId, slug);
        assert FreesSlug(After(s, before), steps[n], id) ==> FreesSlugAt(s, steps, n, id);
      } else {
        var k: nat :| FreesSlugAt(s, before, k, id);
        assert before[..k] == steps[..k];
        assert FreesSlugAt(s, steps, k, id);
      }
    }
  }

  /** Two creates can both pass the slug check. Once one has saved its tenant, the other
      one fails and changes nothing, unless between the two saves that tenant is deleted
      or takes another slug. */
  lemma SecondSlugIsRejected(s: State, h: nat, id: Id, window: seq<Step>, t: State, g: nat, id': Id)
    requires Enabled(s, Advances(h, id)) && s.handlers[h].job.Create? && s.handlers[h].phase == SlugFree
    requires Do(s, Advances(h, id)).handlers[h].phase == TenantSaved(id)
    requires Possible(Do(s, Advances(h, id)), window) && t == After(Do(s, Advances(h, id)), window)
    requires Enabled(t, Advances(g, id')) && t.handlers[g].job.Create? && t.handlers[g].phase == SlugFree
    requires t.handlers[g].job.appId == s.handlers[h].job.appId && t.handlers[g].job.slug == s.handlers[h].job.slug
    ensures || (Do(t, Advances(g, id')).handlers[g].phase == Failed(Nothing) && Do(t, Advances(g, id')).store == t.store)
            || exists k :: FreesSlugAt(Do(s, Advances(h, id)), window, k, id)
  {
    var job, u := s.handlers[h].job, Do(s, Advances(h, id));
    SlugIsHeldOrFreed(u, window, id, job.appId, job.slug);
    if HoldsSlug(t.store, id, job.appId, job.slug) {
      CreateSavesIff(t, g, id');
    }
  }

  /** An add-member past its check saves exactly if tenant and user are there, the id is
      new and, at that moment, the user is not a member. */
  lemma MemberSavesIff(s: State, g: nat, id: Id)
    requires Enabled(s, Advances(g, id)) && s.handlers[g].job.AddMember? && s.handlers[g].phase.MemberFree?
    ensures var tenant, user, t := s.handlers[g].job.tenantId, s.handlers[g].phase.userId, Do(s, Advances(g, id));
            if && tenant in s.store.tenants && user in s.store.users && id !in s.store.members
               && forall m :: m in s.store.members && s.store.members[m].tenantId == tenant ==> s.store.members[m].userId != user
            then && t.handlers[g].phase == Done(false)
                 && t.store == s.store.(members := s.store.members[id := Membership(tenant, user, s.handlers[g].job.role)])
            else t.handlers[g].phase == Failed(Nothing) && t.store == s.store
  {
  }

  predicate HoldsMember(st: Store, m: Id, tenantId: Id, userId: Id) {
    m in st.members && st.members[m].tenantId == tenantId && st.members[m].userId == userId
  }

  /** The statements that take the memberships of a tenant: both deletes of a delete. */
  predicate FreesMembers(s: State, a: Step, tenantId: Id)
    requires Enabled(s, a)
  {
    && a.Advances?
    && var h := s.handlers[a.h];
    h.job.Delete? && h.job.tenantId == tenantId && (h.phase == OwnerConfirmed || h.phase == MembersDeleted)
  }

  lemma MemberLostIff(s: State, a: Step, m: Id, tenantId: Id, userId: Id)
    requires Enabled(s, a) && HoldsMember(s.store, m, tenantId, userId)
    ensures !HoldsMember(Do(s, a).store, m, tenantId, userId) <==> FreesMembers(s, a, tenantId)
  {
  }

  /** Step k takes the tenant's memberships. */
  predicate FreesMembersAt(s: State, steps: seq<Step>, k: nat, tenantId: Id)
    requires Possible(s, steps)
  {
    k < |steps| && (PrefixPossible(s, steps, k); FreesMembers(After(s, steps[..k]), steps[k], tenantId))
  }

  lemma {:induction false} MemberIsHeldOrFreed(s: State, steps: seq<Step>, m: Id, tenantId: Id, userId: Id)
    requires Possible(s, steps) && HoldsMember(s.store, m, tenantId, userId)
    ensures HoldsMember(After(s, steps).store, m, tenantId, userId) || exists k :: FreesMembersAt(s, steps, k, tenantId)
    decreases |steps|
  {
    if steps != [] {
      var n := |steps| - 1;
      var before := steps[..n];
      MemberIsHeldOrFreed(s, before, m, tenantId, userId);
      if HoldsMember(After(s, before).store, m, tenantId, userId) {
        MemberLostIff(After(s, before), steps[n], m, tenantId, userId);
        assert FreesMembers(After(s, before), steps[n], tenantId) ==> FreesMembersAt(s, steps, n, tenantId);
      } else {
        var k: nat :| FreesMembersAt(s, before, k, tenantId);
        assert before[..k] == steps[..k];
        assert FreesMembersAt(s, steps, k, tenantId);
      }
    }
  }

  /** The same for two add-members of one user past their checks: the second one fails,
      unless a delete takes the tenant's memberships in between. */
  lemma SecondMemberIsRejected(s: State, h: nat, id: Id, window: seq<Step>, t: State, g: nat, id': Id)
    requires Enabled(s, Advances(h, id)) && s.handlers[h].job.AddMember? && s.handlers[h].phase.MemberFree?
    requires Do(s, Advances(h, id)).handlers[h].phase == Done(false)
    requires Possible(Do(s, Advances(h, id)), window) && t == After(Do(s, Advances(h, id)), window)
    requires Enabled(t, Advances(g, id')) && t.handlers[g].job.AddMember? && t.handlers[g].phase == s.handlers[h].phase
    requires t.handlers[g].job.tenantId == s.handlers[h].job.tenantId
    ensures || (Do(t, Advances(g, id')).handlers[g].phase == Failed(Nothing) && Do(t, Advances(g, id')).store == t.store)
            || exists k :: FreesMembersAt(Do(s, Advances(h, id)), window, k, s.handlers[h].job.tenantId)
  {
    var tenant, user, u := s.handlers[h].job.tenantId, s.handlers[h].phase.userId, Do(s, Advances(h, id));
    MemberIsHeldOrFreed(u, window, id, tenant, user);
    if HoldsMember(t.store, id, tenant, user) {
      MemberSavesIff(t, g, id');
    }
  }

  /** Without the cascade, deleting a tenant row keeps the tables consistent exactly
      when no membership of it is left, and a member can join between the two deletes. */
  lemma CascadeIsNeededIff(st: Store, id: Id)
    requires Consistent(st)
    ensures Consistent(st.(tenants := st.tenants - {id})) <==>
            forall m :: m in st.members ==> st.members[m].tenantId != id
    ensures Consistent(DeleteTenant(st, id))
  {
  }

  // ----- Owners

  predicate Owned(st: Store, t: Id) {
    exists m :: m in st.members && st.members[m].tenantId == t && st.members[m].role == OWNER
  }

  predicate Ownerless(st: Store, t: Id) { t in st.tenants && !Owned(st, t) }

  /** Between its two saves, or failed at the second. */
  predicate CreateExplains(h: Handler, t: Id) {
    h.job.Create? && (h.phase == TenantSaved(t) || h.phase == Failed(TenantOnly(t)))
  }

  /** Between its two deletes, or cut off there. */
  predicate DeleteExplains(h: Handler, t: Id) {
    h.job.Delete? && h.job.tenantId == t && (h.phase == MembersDeleted || h.phase == Failed(MembersGone))
  }

  /** Its upsert re-inserted a tenant that was deleted after it was loaded. */
  predicate UpdateExplains(h: Handler, t: Id) {
    h.job.Update? && h.job.tenantId == t && h.phase == Done(true)
  }

  predicate Explains(h: Handler, t: Id) { CreateExplains(h, t) || DeleteExplains(h, t) || UpdateExplains(h, t) }

  ghost predicate Explained(s: State) {
    forall t {:trigger Ownerless(s.store, t)} :: Ownerless(s.store, t) ==>
                                                   exists h :: h in s.handlers && Explains(s.handlers[h], t)
  }

  /** A tenant is new or owned before this step, and without an owner after it. */
  predicate LosesOwner(s: State, a: Step, t: Id)
    requires Enabled(s, a)
  {
    !Ownerless(s.store, t) && Ownerless(Do(s, a).store, t)
  }

  /** Every call of a handler keeps the owner of every tenant, except a call of a delete
      of that tenant. */
  lemma OwnerStays(st: Store, job: Job, phase: Phase, newId: Id, t: Id)
    requires t in st.tenants && Owned(st, t) && !(job.Delete? && job.tenantId == t)
    ensures Owned(Advance(st, job, phase, newId).0, t)
  {
    var m :| m in st.members && st.members[m].tenantId == t && st.members[m].role == OWNER;
    var st' := Advance(st, job, phase, newId).0;
    assert m in st'.members && st'.members[m] == st.members[m];
  }

  /** The three statements that can leave a tenant without an owner, each when it
      takes effect: the first save of a create, the first delete of a delete, and the
      insert of an update's save. */
  predicate LossGuard(s: State, a: Step, t: Id)
    requires Enabled(s, a)
  {
    && a.Advances?
    && var h, st := s.handlers[a.h], s.store;
    || (h.job.Create? && h.phase == SlugFree && a.newId == t &&
        InsertTenant(st, t, Tenant(h.job.appId, h.job.name, h.job.slug)).Ok?)
    || (h.job.Delete? && h.phase == OwnerConfirmed && h.job.tenantId == t && Owned(st, t))
    || (h.job.Update? && h.phase.Probed? && h.phase.row.None? && h.job.tenantId == t &&
        InsertTenant(st, t, h.phase.image).Ok?)
  }

  /** The statements that end such a lack, each when it takes effect: the insert of an
      owner by a create or an add-member, and the second delete of a delete. */
  predicate EndGuard(s: State, a: Step, t: Id)
    requires Enabled(s, a)
  {
    && a.Advances?
    && var h, st := s.handlers[a.h], s.store;
    || (h.job.Create? && h.phase == TenantSaved(t) && InsertMember(st, a.newId, Membership(t, h.job.creator, OWNER)).Ok?)
    || (h.job.AddMember? && h.phase.MemberFree? && h.job.tenantId == t && h.job.role == OWNER &&
        InsertMember(st, a.newId, Membership(t, h.phase.userId, OWNER)).Ok?)
    || (h.job.Delete? && h.phase == MembersDeleted && h.job.tenantId == t)
  }

  /** A tenant comes to lack an owner exactly in a step of the three kinds. */
  lemma LosesOwnerIff(s: State, a: Step, t: Id)
    requires Consistent(s.store) && Enabled(s, a)
    ensures LosesOwner(s, a, t) <==> LossGuard(s, a, t)
  {
    if a.Advances? {
      var h, st := s.handlers[a.h], Do(s, a).store;
      if t in s.store.tenants && Owned(s.store, t) && !(h.job.Delete? && h.job.tenantId == t) {
        OwnerStays(s.store, h.job, h.phase, a.newId, t);
      }
      if LossGuard(s, a, t) {
        assert forall m :: m in st.members ==> st.members[m].tenantId != t;
      }
    }
  }

  /** A lack of an owner ends exactly in a step of the other kinds. */
  lemma LackEndsIff(s: State, a: Step, t: Id)
    requires Consistent(s.store) && Enabled(s, a) && Ownerless(s.store, t)
    ensures !Ownerless(Do(s, a).store, t) <==> EndGuard(s, a, t)
  {
    var st := Do(s, a).store;
    if EndGuard(s, a, t) {
      if !s.handlers[a.h].job.Delete? {
        assert st.members[a.newId].tenantId == t && st.members[a.newId].role == OWNER;
      }
    }
  }

  /** So a tenant lacks an owner after a step if and only if the step left it so, or it
      did before and the step did not end that. */
  lemma OwnerlessStep(s: State, a: Step, t: Id)
    requires Consistent(s.store) && Enabled(s, a)
    ensures Ownerless(Do(s, a).store, t) <==> LossGuard(s, a, t) || (Ownerless(s.store, t) && !EndGuard(s, a, t))
    ensures LossGuard(s, a, t) ==> !Ownerless(s.store, t)
  {
    LosesOwnerIff(s, a, t);
    if Ownerless(s.store, t) {
      LackEndsIff(s, a, t);
    }
  }

  lemma LossExplains(s: State, a: Step, t: Id)
    requires Enabled(s, a) && LossGuard(s, a, t)
    ensures Explains(Do(s, a).handlers[a.h], t)
  {
  }

  /** After the second save of a create its tenant has an owner. */
  lemma SecondSaveOwns(st: Store, job: Job, phase: Phase, newId: Id)
    requires job.Create? && phase.TenantSaved?
    ensures var (st', phase') := Advance(st, job, phase, newId);
            phase' == Failed(TenantOnly(phase.id)) || (phase' == Done(false) && Owned(st', phase.id))
  {
    var st' := Advance(st, job, phase, newId).0;
    if st' != st { assert newId in st'.members && st'.members[newId].tenantId == phase.id; }
  }

  lemma ExplainedStep(s: State, a: Step)
    requires Consistent(s.store) && Explained(s) && Enabled(s, a)
    ensures Explained(Do(s, a))
  {
    var s' := Do(s, a);
    forall t | Ownerless(s'.store, t) ensures exists h :: h in s'.handlers && Explains(s'.handlers[h], t) {
      if Ownerless(s.store, t) {
        var h :| h in s.handlers && Explains(s.handlers[h], t);
        if a.Advances? && a.h == h && s.handlers[h].job.Create? {
          SecondSaveOwns(s.store, s.handlers[h].job, s.handlers[h].phase, a.newId);
        }
        assert h in s'.handlers && Explains(s'.handlers[h], t);
      } else {
        LosesOwnerIff(s, a, t);
        LossExplains(s, a, t);
        assert a.h in s'.handlers && Explains(s'.handlers[a.h], t);
      }
    }
  }

  /** In every interleaving, crashes included, a tenant without an owner is explained
      by a create between its saves or stopped there, a delete between its deletes or
      stopped there, or an update that re-inserted it. */
  lemma {:induction false} OwnerlessIsExplained(steps: seq<Step>)
    requires Possible(EMPTY, steps)
    ensures Explained(After(EMPTY, steps))
    decreases |steps|
  {
    if steps != [] {
      OwnerlessIsExplained(steps[..|steps| - 1]);
      AlwaysConsistent(EMPTY, steps[..|steps| - 1]);
      ExplainedStep(After(EMPTY, steps[..|steps| - 1]), steps[|steps| - 1]);
    }
  }

  lemma {:induction false} PrefixPossible(s: State, steps: seq<Step>, k: nat)
    requires Possible(s, steps) && k <= |steps|
    ensures Possible(s, steps[..k])
    ensures k < |steps| ==> Enabled(After(s, steps[..k]), steps[k]) &&
                            steps[..k + 1][..k] == steps[..k] && Possible(s, steps[..k + 1])
    decreases |steps|
  {
    if k == |steps| {
      assert steps[..k] == steps;
    } else if k < |steps| - 1 {
      PrefixPossible(s, steps[..|steps| - 1], k);
      assert steps[..|steps| - 1][..k] == steps[..k] && steps[..|steps| - 1][..k + 1] == steps[..k + 1];
    } else {
      assert steps[..k + 1] == steps;
    }
  }

  /** Step k is one of the three that leave t without an owner. */
  predicate LossAt(steps: seq<Step>, k: nat, t: Id)
    requires Possible(EMPTY, steps) && k < |steps|
  {
    PrefixPossible(EMPTY, steps, k);
    LossGuard(After(EMPTY, steps[..k]), steps[k], t)
  }

  /** Step k inserts an owner of t or takes the row of t. */
  predicate EndAt(steps: seq<Step>, k: nat, t: Id)
    requires Possible(EMPTY, steps) && k < |steps|
  {
    PrefixPossible(EMPTY, steps, k);
    EndGuard(After(EMPTY, steps[..k]), steps[k], t)
  }

  /** k is a loss, and nothing after it ended the lack. */
  predicate LastLoss(steps: seq<Step>, k: nat, t: Id)
    requires Possible(EMPTY, steps)
  {
    k < |steps| && LossAt(steps, k, t) && forall j :: k < j < |steps| ==> !EndAt(steps, j, t)
  }

  lemma PrefixAgrees(steps: seq<Step>, n: nat, j: nat, t: Id)
    requires Possible(EMPTY, steps) && j < n <= |steps|
    ensures Possible(EMPTY, steps[..n])
    ensures LossAt(steps[..n], j, t) == LossAt(steps, j, t) && EndAt(steps[..n], j, t) == EndAt(steps, j, t)
  {
    PrefixPossible(EMPTY, steps, n);
    assert steps[..n][..j] == steps[..j];
  }

  lemma LastLossExtends(steps: seq<Step>, k: nat, t: Id)
    requires Possible(EMPTY, steps) && steps != [] && k < |steps| - 1
    ensures LastLoss(steps, k, t) <==> LastLoss(steps[..|steps| - 1], k, t) && !EndAt(steps, |steps| - 1, t)
  {
    var n := |steps| - 1;
    forall j | 0 <= j < n
      ensures LossAt(steps[..n], j, t) == LossAt(steps, j, t) && EndAt(steps[..n], j, t) == EndAt(steps, j, t)
    {
      PrefixAgrees(steps, n, j, t);
    }
  }

  ghost predicate HasLastLoss(steps: seq<Step>, t: Id)
    requires Possible(EMPTY, steps)
  {
    exists k :: LastLoss(steps, k, t)
  }

  lemma LastLossSplits(steps: seq<Step>, k: nat, t: Id)
    requires Possible(EMPTY, steps) && steps != [] && LastLoss(steps, k, t)
    ensures var n := |steps| - 1;
            LossAt(steps, n, t) || (HasLastLoss(steps[..n], t) && !EndAt(steps, n, t))
  {
    if k < |steps| - 1 {
      LastLossExtends(steps, k, t);
    }
  }

  lemma LastLossStays(steps: seq<Step>, k: nat, t: Id)
    requires Possible(EMPTY, steps) && steps != [] && k < |steps| - 1
    requires LastLoss(steps[..|steps| - 1], k, t) && !EndAt(steps, |steps| - 1, t)
    ensures HasLastLoss(steps, t)
  {
    LastLossExtends(steps, k, t);
  }

  lemma LastLossStep(steps: seq<Step>, t: Id)
    requires Possible(EMPTY, steps) && steps != []
    ensures var n := |steps| - 1;
            HasLastLoss(steps, t) <==> LossAt(steps, n, t) || (HasLastLoss(steps[..n], t) && !EndAt(steps, n, t))
  {
    var n := |steps| - 1;
    if HasLastLoss(steps, t) {
      var k: nat :| LastLoss(steps, k, t);
      LastLossSplits(steps, k, t);
    } else if LossAt(steps, n, t) {
      assert LastLoss(steps, n, t);
    } else if HasLastLoss(steps[..n], t) && !EndAt(steps, n, t) {
      var k: nat :| LastLoss(steps[..n], k, t);
      LastLossStays(steps, k, t);
    }
  }

  /** The exact form of "every tenant has an owner". After any run, crashes included,
      a tenant lacks an owner if and only if one of the three steps left it so and no
      later step inserted an owner or took its row. */
  lemma {:induction false} OwnerlessIff(steps: seq<Step>, t: Id)
    requires Possible(EMPTY, steps)
    ensures Ownerless(After(EMPTY, steps).store, t) <==> exists k :: LastLoss(steps, k, t)
    decreases |steps|
  {
    if steps != [] {
      var before := steps[..|steps| - 1];
      OwnerlessIff(before, t);
      AlwaysConsistent(EMPTY, before);
      OwnerlessStep(After(EMPTY, before), steps[|steps| - 1], t);
      LastLossStep(steps, t);
    }
  }

  /** At most one step is the last loss: so every lack has exactly one origin, which is
      a create, a delete or an update and tells which. */
  lemma LastLossUnique(steps: seq<Step>, j: nat, k: nat, t: Id)
    requires Possible(EMPTY, steps) && LastLoss(steps, j, t) && LastLoss(steps, k, t)
    ensures j == k
  {
    if j < k {
      NotLostTwice(steps, j, k, t);
    } else if k < j {
      NotLostTwice(steps, k, j, t);
    }
  }

  lemma NotLostTwice(steps: seq<Step>, j: nat, k: nat, t: Id)
    requires Possible(EMPTY, steps) && j < k && LastLoss(steps, j, t)
    ensures !LastLoss(steps, k, t)
  {
    if k < |steps| {
      PrefixPossible(EMPTY, steps, k);
      var before := steps[..k];
      forall i | 0 <= i < k
        ensures LossAt(before, i, t) == LossAt(steps, i, t) && EndAt(before, i, t) == EndAt(steps, i, t)
      {
        PrefixAgrees(steps, k, i, t);
      }
      assert LastLoss(before, j, t);
      OwnerlessIff(before, t);
      AlwaysConsistent(EMPTY, before);
      OwnerlessStep(After(EMPTY, before), steps[k], t);
    }
  }
}
