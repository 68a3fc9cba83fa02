/**
 What the tenancy handlers have seen before they write, over whole interleaved runs: a
 check and the write that relies on it are different moments, and between them others
 write too.
 */
module TenancyHistory {
  import opened Options
  import opened TenancyProtocol
  import opened TenancySafety

  /** The tables after the first k steps. */
  function StoreAt(steps: seq<Step>, k: nat): Store
    requires Possible(EMPTY, steps) && k <= |steps|
  {
    PrefixPossible(EMPTY, steps, k);
    After(EMPTY, steps[..k]).store
  }

  // ----- Moments

  /** After j steps the user has a membership of the tenant with the role OWNER. */
  predicate OwnsAt(steps: seq<Step>, j: nat, tenant: Id, user: Id)
    requires Possible(EMPTY, steps)
  {
    j <= |steps| && exists m :: m in StoreAt(steps, j).members && StoreAt(steps, j).members[m].tenantId == tenant &&
                                StoreAt(steps, j).members[m].userId == user && StoreAt(steps, j).members[m].role == OWNER
  }

  /** After j steps the user has no membership of the tenant. */
  predicate OutsideAt(steps: seq<Step>, j: nat, tenant: Id, user: Id)
    requires Possible(EMPTY, steps)
  {
    j <= |steps| && forall m :: m in StoreAt(steps, j).members && StoreAt(steps, j).members[m].tenantId == tenant ==>
                                  StoreAt(steps, j).members[m].userId != user
  }

  /** After j steps no tenant of the app holds the slug. */
  predicate SlugFreeAt(steps: seq<Step>, j: nat, appId: Id, slug: string)
    requires Possible(EMPTY, steps)
  {
    j <= |steps| && forall t :: t in StoreAt(steps, j).tenants && StoreAt(steps, j).tenants[t].slug == slug ==>
                                  StoreAt(steps, j).tenants[t].appId != appId
  }

  /** After j steps the tenant is there with these columns. */
  predicate TenantIsAt(steps: seq<Step>, j: nat, id: Id, t: Tenant)
    requires Possible(EMPTY, steps)
  {
    j <= |steps| && id in StoreAt(steps, j).tenants && StoreAt(steps, j).tenants[id] == t
  }

  /** After j steps the tenant is not there. */
  predicate NoTenantAt(steps: seq<Step>, j: nat, id: Id)
    requires Possible(EMPTY, steps)
  {
    j <= |steps| && id !in StoreAt(steps, j).tenants
  }

  /** After j steps the app is there. */
  predicate AppIsAt(steps: seq<Step>, j: nat, appId: Id)
    requires Possible(EMPTY, steps)
  {
    j <= |steps| && appId in StoreAt(steps, j).apps
  }

  /** After j steps the tenant is there. */
  predicate TenantThereAt(steps: seq<Step>, j: nat, id: Id)
    requires Possible(EMPTY, steps)
  {
    j <= |steps| && id in StoreAt(steps, j).tenants
  }

  lemma SamePrefix(steps: seq<Step>, n: nat, j: nat)
    requires Possible(EMPTY, steps) && j <= n <= |steps|
    ensures Possible(EMPTY, steps[..n]) && StoreAt(steps[..n], j) == StoreAt(steps, j)
  {
    PrefixPossible(EMPTY, steps, n);
    assert steps[..n][..j] == steps[..j];
  }

  // ----- What a handler at a phase has seen

  /** The row an update wants to save: the loaded one, with what the command gives. */
  predicate IsImage(image: Tenant, loaded: Tenant, newName: Option<string>, newSlug: Option<string>) {
    && image.appId == loaded.appId
    && image.name == (if newName.Some? then newName.value else loaded.name)
    && image.slug == (if newSlug.Some? then newSlug.value else loaded.slug)
  }

  /** Loaded after j steps, with the slug checked after c if it changes, and made into
      this image. */
  predicate Prepared(steps: seq<Step>, j: nat, c: nat, job: Job, image: Tenant)
    requires Possible(EMPTY, steps) && job.Update?
  {
    && j <= c <= |steps| && job.tenantId in StoreAt(steps, j).tenants
    && var loaded := StoreAt(steps, j).tenants[job.tenantId];
    && IsImage(image, loaded, job.newName, job.newSlug)
    && (image.slug != loaded.slug ==> SlugFreeAt(steps, c, loaded.appId, image.slug))
  }

  predicate RowAt(steps: seq<Step>, i: nat, id: Id, row: Option<Tenant>)
    requires Possible(EMPTY, steps)
  {
    if row.Some? then TenantIsAt(steps, i, id, row.value) else NoTenantAt(steps, i, id)
  }

  ghost predicate UpdateHasSeen(steps: seq<Step>, job: Job, phase: Phase)
    requires Possible(EMPTY, steps) && job.Update?
  {
    && (phase.Loaded? ==> exists j :: TenantIsAt(steps, j, job.tenantId, phase.loaded))
    && (phase.Changed? ==> exists j, c :: Prepared(steps, j, c, job, phase.image))
    && (phase.Probed? ==> exists j, c, i ::
          c <= i && Prepared(steps, j, c, job, phase.image) && RowAt(steps, i, job.tenantId, phase.row))
  }

  /** The first check of a create or an add-member: its app or its tenant is there. */
  ghost predicate HasFound(steps: seq<Step>, job: Job, phase: Phase)
    requires Possible(EMPTY, steps)
  {
    && (job.Create? && (phase.AppFound? || phase.SlugFree?) ==> exists i :: AppIsAt(steps, i, job.appId))
    && (job.AddMember? && (phase.MemberTenantFound? || phase.MemberUserFound? || phase.MemberFree?) ==>
          exists i :: TenantThereAt(steps, i, job.tenantId))
  }

  ghost predicate HasSeen(steps: seq<Step>, job: Job, phase: Phase)
    requires Possible(EMPTY, steps)
  {
    HasFound(steps, job, phase) &&
    match job
    case Create(appId, _, slug, _) => phase.SlugFree? ==> exists j :: SlugFreeAt(steps, j, appId, slug)
    case Update(_, _, _) => UpdateHasSeen(steps, job, phase)
    case Delete(id, requester) => phase.OwnerConfirmed? || phase.MembersDeleted? ==> exists j :: OwnsAt(steps, j, id, requester)
    case AddMember(id, user, _) =>
      && (phase.MemberUserFound? || phase.MemberFree? ==> user == Some(phase.userId))
      && (phase.MemberFree? ==> exists j :: OutsideAt(steps, j, id, phase.userId))
  }

  // ----- Every handler of every run has

  lemma OneStepLater(steps: seq<Step>, job: Job, phase: Phase)
    requires Possible(EMPTY, steps) && steps != [] && Possible(EMPTY, steps[..|steps| - 1])
    requires HasSeen(steps[..|steps| - 1], job, phase)
    ensures HasSeen(steps, job, phase)
  {
    var n := |steps| - 1;
    var before := steps[..n];
    forall j: nat | j <= n
      ensures StoreAt(before, j) == StoreAt(steps, j)
    {
      SamePrefix(steps, n, j);
    }
    FoundLater(steps, job, phase);
    match job
    case Create(appId, _, slug, _) =>
      if phase.SlugFree? {
        var j: nat :| SlugFreeAt(before, j, appId, slug);
        assert SlugFreeAt(steps, j, appId, slug);
      }
    case Update(_, _, _) => UpdateLater(steps, job, phase);
    case Delete(id, requester) =>
      if phase.OwnerConfirmed? || phase.MembersDeleted? {
        var j: nat :| OwnsAt(before, j, id, requester);
        assert OwnsAt(steps, j, id, requester);
      }
    case AddMember(id, _, _) =>
      if phase.MemberFree? {
        var j: nat :| OutsideAt(before, j, id, phase.userId);
        assert OutsideAt(steps, j, id, phase.userId);
      }
  }

  lemma FoundLater(steps: seq<Step>, job: Job, phase: Phase)
    requires Possible(EMPTY, steps) && steps != [] && Possible(EMPTY, steps[..|steps| - 1])
    requires HasFound(steps[..|steps| - 1], job, phase)
    ensures HasFound(steps, job, phase)
  {
    var n := |steps| - 1;
    var before := steps[..n];
    if job.Create? && (phase.AppFound? || phase.SlugFree?) {
      var i: nat :| AppIsAt(before, i, job.appId);
      SamePrefix(steps, n, i);
      assert AppIsAt(steps, i, job.appId);
    } else if job.AddMember? && (phase.MemberTenantFound? || phase.MemberUserFound? || phase.MemberFree?) {
      var i: nat :| TenantThereAt(before, i, job.tenantId);
      SamePrefix(steps, n, i);
      assert TenantThereAt(steps, i, job.tenantId);
    }
  }

  lemma PreparedLater(steps: seq<Step>, n: nat, j: nat, c: nat, job: Job, image: Tenant)
    requires Possible(EMPTY, steps) && n <= |steps| && Possible(EMPTY, steps[..n]) && job.Update?
    requires Prepared(steps[..n], j, c, job, image)
    ensures Prepared(steps, j, c, job, image)
  {
    SamePrefix(steps, n, j);
    SamePrefix(steps, n, c);
  }

  lemma UpdateLater(steps: seq<Step>, job: Job, phase: Phase)
    requires Possible(EMPTY, steps) && steps != [] && Possible(EMPTY, steps[..|steps| - 1]) && job.Update?
    requires UpdateHasSeen(steps[..|steps| - 1], job, phase)
    ensures UpdateHasSeen(steps, job, phase)
  {
    var n := |steps| - 1;
    var before := steps[..n];
    if phase.Loaded? {
      var j: nat :| TenantIsAt(before, j, job.tenantId, phase.loaded);
      SamePrefix(steps, n, j);
      assert TenantIsAt(steps, j, job.tenantId, phase.loaded);
    } else if phase.Changed? {
      var j: nat, c: nat :| Prepared(before, j, c, job, phase.image);
      PreparedLater(steps, n, j, c, job, phase.image);
    } else if phase.Probed? {
      var j: nat, c: nat, i: nat :| c <= i && Prepared(before, j, c, job, phase.image) && RowAt(before, i, job.tenantId, phase.row);
      PreparedLater(steps, n, j, c, job, phase.image);
      SamePrefix(steps, n, i);
      assert RowAt(steps, i, job.tenantId, phase.row);
    }
  }

  // The handler that makes a call after these steps.

  lemma UpdateLoads(steps: seq<Step>, job: Job, newId: Id)
    requires Possible(EMPTY, steps) && job.Update?
    ensures UpdateHasSeen(steps, job, Advance(StoreAt(steps, |steps|), job, Started, newId).1)
  {
    var next := Advance(StoreAt(steps, |steps|), job, Started, newId).1;
    assert next.Loaded? ==> TenantIsAt(steps, |steps|, job.tenantId, next.loaded);
  }

  lemma UpdateIsOver(st: Store, job: Job, phase: Phase, newId: Id)
    requires job.Update? && !phase.Started? && !phase.Loaded? && !phase.Changed?
    ensures var next := Advance(st, job, phase, newId).1;
            !next.Loaded? && !next.Changed? && !next.Probed?
  {
  }

  lemma UpdatePrepares(steps: seq<Step>, job: Job, phase: Phase, newId: Id)
    requires Possible(EMPTY, steps) && job.Update? && UpdateHasSeen(steps, job, phase) && phase.Loaded?
    ensures UpdateHasSeen(steps, job, Advance(StoreAt(steps, |steps|), job, phase, newId).1)
  {
    var next := Advance(StoreAt(steps, |steps|), job, phase, newId).1;
    if next.Changed? {
      var j: nat :| TenantIsAt(steps, j, job.tenantId, phase.loaded);
      assert Prepared(steps, j, |steps|, job, next.image);
    }
  }

  lemma UpdateProbes(steps: seq<Step>, job: Job, phase: Phase, newId: Id)
    requires Possible(EMPTY, steps) && job.Update? && UpdateHasSeen(steps, job, phase) && phase.Changed?
    ensures UpdateHasSeen(steps, job, Advance(StoreAt(steps, |steps|), job, phase, newId).1)
  {
    var next := Advance(StoreAt(steps, |steps|), job, phase, newId).1;
    var j: nat, c: nat :| Prepared(steps, j, c, job, phase.image);
    assert RowAt(steps, |steps|, job.tenantId, next.row);
  }

  lemma UpdateMoves(steps: seq<Step>, job: Job, phase: Phase, newId: Id)
    requires Possible(EMPTY, steps) && job.Update? && UpdateHasSeen(steps, job, phase)
    ensures UpdateHasSeen(steps, job, Advance(StoreAt(steps, |steps|), job, phase, newId).1)
  {
    if phase.Loaded? {
      UpdatePrepares(steps, job, phase, newId);
    } else if phase.Changed? {
      UpdateProbes(steps, job, phase, newId);
    } else if phase.Started? {
      UpdateLoads(steps, job, newId);
    } else {
      UpdateIsOver(StoreAt(steps, |steps|), job, phase, newId);
    }
  }

  lemma FindSees(steps: seq<Step>, job: Job, phase: Phase, newId: Id)
    requires Possible(EMPTY, steps) && HasFound(steps, job, phase)
    ensures HasFound(steps, job, Advance(StoreAt(steps, |steps|), job, phase, newId).1)
  {
    var next := Advance(StoreAt(steps, |steps|), job, phase, newId).1;
    if job.Create? && next.AppFound? && phase.Started? {
      assert AppIsAt(steps, |steps|, job.appId);
    } else if job.AddMember? && next.MemberTenantFound? && phase.Started? {
      assert TenantThereAt(steps, |steps|, job.tenantId);
    }
  }

  lemma CallSees(steps: seq<Step>, job: Job, phase: Phase, newId: Id)
    requires Possible(EMPTY, steps) && HasSeen(steps, job, phase)
    ensures HasSeen(steps, job, Advance(StoreAt(steps, |steps|), job, phase, newId).1)
  {
    var n, st := |steps|, StoreAt(steps, |steps|);
    var next := Advance(st, job, phase, newId).1;
    FindSees(steps, job, phase, newId);
    match job
    case Create(appId, _, slug, _) =>
      if next.SlugFree? && phase.AppFound? { assert SlugFreeAt(steps, n, appId, slug); }
    case Update(_, _, _) => UpdateMoves(steps, job, phase, newId);
    case Delete(id, requester) =>
      if next.OwnerConfirmed? && phase.TenantFound? { assert OwnsAt(steps, n, id, requester); }
    case AddMember(id, _, _) =>
      if next.MemberFree? && phase.MemberUserFound? { assert OutsideAt(steps, n, id, phase.userId); }
  }

  /** In every run every handler has seen what its phase says it has. */
  lemma {:induction false} EveryHandlerHasSeen(steps: seq<Step>, h: nat)
    requires Possible(EMPTY, steps) && h in After(EMPTY, steps).handlers
    ensures HasSeen(steps, After(EMPTY, steps).handlers[h].job, After(EMPTY, steps).handlers[h].phase)
    decreases |steps|
  {
    var n := |steps| - 1;
    var before, a := steps[..n], steps[n];
    var s := After(EMPTY, before);
    if h in s.handlers {
      EveryHandlerHasSeen(before, h);
      if a.Advances? && a.h == h {
        assert before[..n] == before;
        CallSees(before, s.handlers[h].job, s.handlers[h].phase, a.newId);
      }
    }
    OneStepLater(steps, After(EMPTY, steps).handlers[h].job, After(EMPTY, steps).handlers[h].phase);
  }

  // ----- Writes and the moments they rely on

  /** The handler that step k moves, as it is before that step. */
  predicate Moves(steps: seq<Step>, k: nat, h: nat, job: Job, phase: Phase)
    requires Possible(EMPTY, steps)
  {
    && k < |steps| && steps[k].Advances? && steps[k].h == h
    && (PrefixPossible(EMPTY, steps, k); After(EMPTY, steps[..k]).handlers[h] == Handler(job, phase))
  }

  /** Only an owner deletes. In every interleaving, a step that takes a tenant's row or a
      membership of it is one of a delete whose requester, at an earlier moment, had a
      membership of the tenant with the role OWNER. */
  lemma OnlyAnOwnerDeletes(steps: seq<Step>, k: nat, t: Id) returns (h: nat, requester: Id, phase: Phase, j: nat)
    requires Possible(EMPTY, steps) && k < |steps|
    requires || (t in StoreAt(steps, k).tenants && t !in StoreAt(steps, k + 1).tenants)
             || exists m :: m in StoreAt(steps, k).members && StoreAt(steps, k).members[m].tenantId == t &&
                            !(m in StoreAt(steps, k + 1).members && StoreAt(steps, k + 1).members[m] == StoreAt(steps, k).members[m])
    ensures Moves(steps, k, h, Delete(t, requester), phase) && j <= k && OwnsAt(steps, j, t, requester)
  {
    PrefixPossible(EMPTY, steps, k);
    assert steps[..k + 1][..k] == steps[..k];
    var s := After(EMPTY, steps[..k]);
    h := steps[k].h;
    requester, phase := s.handlers[h].job.requester, s.handlers[h].phase;
    EveryHandlerHasSeen(steps[..k], h);
    assert phase == OwnerConfirmed || phase == MembersDeleted;
    j :| OwnsAt(steps[..k], j, t, requester);
    SamePrefix(steps, k, j);
  }

  /** A create saves only after a moment at which its app was there and one at which its
      slug was free, and an add-member only after one at which its tenant was there and
      one at which the user it found was not a member. */
  lemma SavesAfterCheck(steps: seq<Step>, k: nat, h: nat, job: Job, phase: Phase) returns (i: nat, j: nat)
    requires Possible(EMPTY, steps) && Moves(steps, k, h, job, phase)
    requires (job.Create? && phase.SlugFree?) || (job.AddMember? && phase.MemberFree?)
    ensures i <= k && j <= k
    ensures job.Create? ==> AppIsAt(steps, i, job.appId) && SlugFreeAt(steps, j, job.appId, job.slug)
    ensures job.AddMember? ==>
              TenantThereAt(steps, i, job.tenantId) && job.user == Some(phase.userId) && OutsideAt(steps, j, job.tenantId, phase.userId)
  {
    PrefixPossible(EMPTY, steps, k);
    EveryHandlerHasSeen(steps[..k], h);
    if job.Create? {
      i :| AppIsAt(steps[..k], i, job.appId);
      j :| SlugFreeAt(steps[..k], j, job.appId, job.slug);
    } else {
      i :| TenantThereAt(steps[..k], i, job.tenantId);
      j :| OutsideAt(steps[..k], j, job.tenantId, phase.userId);
    }
    SamePrefix(steps, k, i);
    SamePrefix(steps, k, j);
  }

  lemma {:induction false} FinishedStays(s: State, steps: seq<Step>, h: nat)
    requires Possible(s, steps) && h in s.handlers && Finished(s.handlers[h].phase)
    ensures h in After(s, steps).handlers && After(s, steps).handlers[h] == s.handlers[h]
    decreases |steps|
  {
    if steps != [] {
      FinishedStays(s, steps[..|steps| - 1], h);
    }
  }

  /** A handler that is cut off leaves the tables as they are and never writes again; a
      create may leave a tenant without its owner behind, a delete one without members. */
  lemma CutOffForGood(s: State, h: nat, steps: seq<Step>)
    requires Enabled(s, Crash(h)) && Possible(Do(s, Crash(h)), steps)
    ensures Do(s, Crash(h)).store == s.store
    ensures h in After(Do(s, Crash(h)), steps).handlers
    ensures After(Do(s, Crash(h)), steps).handlers[h].phase ==
            match s.handlers[h].phase {
              case TenantSaved(id) => Failed(TenantOnly(id))
              case MembersDeleted => Failed(MembersGone)
              case _ => Failed(Nothing)
            }
  {
    FinishedStays(Do(s, Crash(h)), steps, h);
  }

  /** What a save leaves: the columns in which the wanted row differs from the probed one
      are written to the row as it is now; without a probed row, the wanted row is
      inserted. A slug that another tenant of the app holds is rejected. */
  predicate SaveLeaves(before: Store, id: Id, probed: Option<Tenant>, wanted: Tenant, after: Store, phase: Phase) {
    if probed.None? then
      if id in before.tenants || wanted.appId !in before.apps || HeldByOther(before, id, wanted.appId, wanted.slug)
      then after == before && phase == Failed(Nothing)
      else after == before.(tenants := before.tenants[id := wanted]) && phase == Done(true)
    else if id !in before.tenants then after == before && phase == Done(false)
    else
      var now := before.tenants[id];
      var name := if wanted.name != probed.value.name then wanted.name else now.name;
      var slug := if wanted.slug != probed.value.slug then wanted.slug else now.slug;
      if slug != now.slug && HeldByOther(before, id, now.appId, slug)
      then after == before && phase == Failed(Nothing)
      else after == before.(tenants := before.tenants[id := Tenant(now.appId, name, slug)]) && phase == Done(false)
  }

  predicate HeldByOther(st: Store, id: Id, appId: Id, slug: string) {
    exists t :: t in st.tenants && t != id && st.tenants[t].appId == appId && st.tenants[t].slug == slug
  }

  lemma SaveStep(st: Store, job: Job, phase: Phase, newId: Id)
    requires job.Update? && phase.Probed?
    ensures var (after, next) := Advance(st, job, phase, newId);
            SaveLeaves(st, job.tenantId, phase.row, phase.image, after, next)
  {
  }

  /** What an update writes, in every interleaving. It loaded the tenant at one moment (j),
      checked its slug at another (c), probed the row at a third (i), and saves now (k): it
      writes the columns in which the loaded row, with what the command gives, differs
      from the probed one. */
  lemma UpdateWrites(steps: seq<Step>, k: nat, h: nat, job: Job, phase: Phase) returns (j: nat, c: nat, i: nat, wanted: Tenant)
    requires Possible(EMPTY, steps) && Moves(steps, k, h, job, phase) && job.Update? && phase.Probed?
    ensures j <= c <= i <= k && job.tenantId in StoreAt(steps, j).tenants
    ensures var loaded := StoreAt(steps, j).tenants[job.tenantId];
            && IsImage(wanted, loaded, job.newName, job.newSlug)
            && (wanted.slug != loaded.slug ==> SlugFreeAt(steps, c, loaded.appId, wanted.slug))
    ensures var probed := if job.tenantId in StoreAt(steps, i).tenants then Some(StoreAt(steps, i).tenants[job.tenantId]) else None;
            && Possible(EMPTY, steps[..k + 1]) && h in After(EMPTY, steps[..k + 1]).handlers
            && SaveLeaves(StoreAt(steps, k), job.tenantId, probed, wanted, StoreAt(steps, k + 1),
                          After(EMPTY, steps[..k + 1]).handlers[h].phase)
  {
    PrefixPossible(EMPTY, steps, k);
    assert steps[..k + 1][..k] == steps[..k];
    EveryHandlerHasSeen(steps[..k], h);
    wanted := phase.image;
    j, c, i :| c <= i && Prepared(steps[..k], j, c, job, wanted) && RowAt(steps[..k], i, job.tenantId, phase.row);
    PreparedLater(steps, k, j, c, job, wanted);
    SamePrefix(steps, k, i);
    SaveStep(StoreAt(steps, k), job, phase, steps[k].newId);
  }

  /** Lost updates, exactly. An update that was not given a name changes the stored name if
      and only if the name changed between its load and its probe and is not back: then it
      writes the old name back. */
  lemma NameIsRevertedIff(steps: seq<Step>, k: nat, h: nat, job: Job, phase: Phase) returns (j: nat, i: nat)
    requires Possible(EMPTY, steps) && Moves(steps, k, h, job, phase) && job.Update? && phase.Probed? && job.newName.None?
    requires phase.row.Some? && job.tenantId in StoreAt(steps, k).tenants && StoreAt(steps, k + 1) != StoreAt(steps, k)
    ensures j <= i <= k && job.tenantId in StoreAt(steps, j).tenants && job.tenantId in StoreAt(steps, i).tenants
    ensures job.tenantId in StoreAt(steps, k + 1).tenants
    ensures var id := job.tenantId;
            var loaded, probed := StoreAt(steps, j).tenants[id].name, StoreAt(steps, i).tenants[id].name;
            var before, after := StoreAt(steps, k).tenants[id].name, StoreAt(steps, k + 1).tenants[id].name;
            && (after != before <==> loaded != probed && loaded != before)
            && (after != before ==> after == loaded)
  {
    var c, wanted;
    j, c, i, wanted := UpdateWrites(steps, k, h, job, phase);
    PrefixPossible(EMPTY, steps, k);
    EveryHandlerHasSeen(steps[..k], h);
  }
}
