/** Concrete runs that mark the limits of the tenancy guarantees. */
module TenancyWitness {
  import opened Options
  import opened TenancyProtocol
  import opened TenancySafety

  lemma Extended(steps: seq<Step>, s: State, a: Step) returns (longer: seq<Step>, t: State)
    requires Possible(EMPTY, steps) && After(EMPTY, steps) == s && Enabled(s, a)
    ensures Possible(EMPTY, longer) && After(EMPTY, longer) == t && t == Do(s, a)
  {
    longer, t := steps + [a], Do(s, a);
    assert longer[..|longer| - 1] == steps;
  }

  /** One repository call of handler h, with this effect. */
  lemma Call(steps: seq<Step>, s: State, h: nat, newId: Id, store: Store, phase: Phase)
      returns (longer: seq<Step>, t: State)
    requires Possible(EMPTY, steps) && After(EMPTY, steps) == s
    requires h in s.handlers && !Finished(s.handlers[h].phase) && newId !in s.ids
    requires Advance(s.store, s.handlers[h].job, s.handlers[h].phase, newId) == (store, phase)
    ensures Possible(EMPTY, longer) && After(EMPTY, longer) == t
    ensures t == State(store, s.handlers[h := Handler(s.handlers[h].job, phase)], s.ids + {newId})
  {
    longer, t := Extended(steps, s, Advances(h, newId));
  }

  lemma Start(steps: seq<Step>, s: State, h: nat, job: Job) returns (longer: seq<Step>, t: State)
    requires Possible(EMPTY, steps) && After(EMPTY, steps) == s && h !in s.handlers
    ensures Possible(EMPTY, longer) && After(EMPTY, longer) == t
    ensures t == s.(handlers := s.handlers[h := Handler(job, Started)])
  {
    longer, t := Extended(steps, s, Begin(h, job));
  }

  const TENANT: Tenant := Tenant(0, "Garden", "garden")

  const CREATE: Job := Create(0, "Garden", "garden", 1)

  /** App 0 and users 1 and 2 exist, and handler 0 is about to save tenant 3. */
  lemma ReachSlugFree() returns (steps: seq<Step>, s: State)
    ensures Possible(EMPTY, steps) && After(EMPTY, steps) == s
    ensures s.store == Store({0}, {1, 2}, map[], map[]) && s.ids == {0, 1}
    ensures s.handlers == map[0 := Handler(CREATE, SlugFree)]
  {
    steps, s := [], EMPTY;
    steps, s := Extended(steps, s, AddApp(0));
    steps, s := Extended(steps, s, AddUser(1));
    steps, s := Extended(steps, s, AddUser(2));
    steps, s := Extended(steps, s, Begin(0, CREATE));
    steps, s := Extended(steps, s, Advances(0, 0));
    steps, s := Extended(steps, s, Advances(0, 1));
  }

  /** Two creates with one slug are both past their check. */
  lemma BothPassTheCheck() returns (s: State, h: nat, g: nat)
    ensures Reachable(s) && h != g && h in s.handlers && g in s.handlers
    ensures s.handlers[h] == Handler(CREATE, SlugFree) && s.handlers[g] == Handler(CREATE, SlugFree)
    ensures Enabled(s, Advances(h, 4)) && Do(s, Advances(h, 4)).handlers[h].phase == TenantSaved(4)
  {
    var steps;
    steps, s := ReachSlugFree();
    steps, s := Start(steps, s, 1, CREATE);
    steps, s := Call(steps, s, 1, 2, s.store, AppFound);
    steps, s := Call(steps, s, 1, 3, s.store, SlugFree);
    h, g := 0, 1;
  }

  /** Handler 0 has saved tenant 3 but not its owner. */
  lemma ReachTenantSaved() returns (steps: seq<Step>, s: State)
    ensures Possible(EMPTY, steps) && After(EMPTY, steps) == s
    ensures s.store == Store({0}, {1, 2}, map[3 := TENANT], map[]) && s.ids == {0, 1, 3}
    ensures s.handlers == map[0 := Handler(CREATE, TenantSaved(3))]
  {
    steps, s := ReachSlugFree();
    steps, s := Extended(steps, s, Advances(0, 3));
  }

  /** Handler 1 has found user 2. */
  lemma ReachMemberUserFound() returns (steps: seq<Step>, s: State)
    ensures Possible(EMPTY, steps) && After(EMPTY, steps) == s
    ensures s.store == Store({0}, {1, 2}, map[3 := TENANT], map[]) && s.ids == {0, 1, 3, 4, 5}
    ensures s.handlers.Keys == {0, 1} && s.handlers[0] == Handler(CREATE, TenantSaved(3))
    ensures s.handlers[1] == Handler(AddMember(3, Some(2), OWNER), MemberUserFound(2))
  {
    steps, s := ReachTenantSaved();
    steps, s := Start(steps, s, 1, AddMember(3, Some(2), OWNER));
    steps, s := Call(steps, s, 1, 4, s.store, MemberTenantFound);
    steps, s := Call(steps, s, 1, 5, s.store, MemberUserFound(2));
  }

  /** Handler 1 has found that user 2 is not a member of tenant 3. */
  lemma ReachMemberFree() returns (steps: seq<Step>, s: State)
    ensures Possible(EMPTY, steps) && After(EMPTY, steps) == s
    ensures s.store == Store({0}, {1, 2}, map[3 := TENANT], map[]) && s.ids == {0, 1, 3, 4, 5, 6}
    ensures s.handlers.Keys == {0, 1} && s.handlers[0] == Handler(CREATE, TenantSaved(3))
    ensures s.handlers[1] == Handler(AddMember(3, Some(2), OWNER), MemberFree(2))
  {
    steps, s := ReachMemberUserFound();
    steps, s := Call(steps, s, 1, 6, s.store, MemberFree(2));
  }

  /** User 2 joins tenant 3 as an owner. */
  lemma ReachOwnerJoined() returns (steps: seq<Step>, s: State)
    ensures Possible(EMPTY, steps) && After(EMPTY, steps) == s
    ensures s.store == Store({0}, {1, 2}, map[3 := TENANT], map[7 := Membership(3, 2, OWNER)]) && s.ids == {0, 1, 3, 4, 5, 6, 7}
    ensures s.handlers.Keys == {0, 1} && s.handlers[0] == Handler(CREATE, TenantSaved(3))
  {
    steps, s := ReachMemberFree();
    steps, s := Call(steps, s, 1, 7, s.store.(members := map[7 := Membership(3, 2, OWNER)]), Done(false));
  }

  /** Delete 2 of the new owner has passed its checks. */
  lemma ReachJoinedOwnerConfirmed() returns (steps: seq<Step>, s: State)
    ensures Possible(EMPTY, steps) && After(EMPTY, steps) == s
    ensures s.store == Store({0}, {1, 2}, map[3 := TENANT], map[7 := Membership(3, 2, OWNER)])
    ensures s.ids == {0, 1, 3, 4, 5, 6, 7, 8, 9} && s.handlers.Keys == {0, 1, 2}
    ensures s.handlers[0] == Handler(CREATE, TenantSaved(3)) && s.handlers[2] == Handler(Delete(3, 2), OwnerConfirmed)
  {
    steps, s := ReachOwnerJoined();
    assert s.store.members[7] == Membership(3, 2, OWNER);
    steps, s := Start(steps, s, 2, Delete(3, 2));
    steps, s := Call(steps, s, 2, 8, s.store, TenantFound);
    assert OwnerIn(s.store, 3, 2);
    steps, s := Call(steps, s, 2, 9, s.store, OwnerConfirmed);
  }

  /** One lack of owner can have two explanations at once: a create between its saves
      and a delete between its deletes. So "explained by exactly one handler" is false
      of a state; what is unique is the step at which the lack began. */
  lemma TwoExplanationsAtOnce() returns (s: State, t: Id, h: nat, g: nat)
    ensures Reachable(s) && Ownerless(s.store, t) && h in s.handlers && g in s.handlers
    ensures CreateExplains(s.handlers[h], t) && DeleteExplains(s.handlers[g], t)
  {
    var steps;
    steps, s := ReachJoinedOwnerConfirmed();
    steps, s := Call(steps, s, 2, 10, DeleteMembersOf(s.store, 3), MembersDeleted);
    t, h, g := 3, 0, 2;
  }

  /** Handler 0 has finished, and update 1 has loaded the tenant. */
  lemma ReachUpdateLoaded() returns (steps: seq<Step>, s: State)
    ensures Possible(EMPTY, steps) && After(EMPTY, steps) == s
    ensures s.store == Store({0}, {1, 2}, map[3 := TENANT], map[4 := Membership(3, 1, OWNER)]) && s.ids == {0, 1, 3, 4, 5}
    ensures s.handlers.Keys == {0, 1} && s.handlers[0] == Handler(CREATE, Done(false))
    ensures s.handlers[1] == Handler(Update(3, Some("Yard"), None), Loaded(TENANT))
  {
    steps, s := ReachTenantSaved();
    steps, s := Call(steps, s, 0, 4, s.store.(members := map[4 := Membership(3, 1, OWNER)]), Done(false));
    steps, s := Start(steps, s, 1, Update(3, Some("Yard"), None));
    steps, s := Call(steps, s, 1, 5, s.store, Loaded(TENANT));
  }

  /** Delete 2 has passed its checks. */
  lemma ReachOwnerConfirmed() returns (steps: seq<Step>, s: State)
    ensures Possible(EMPTY, steps) && After(EMPTY, steps) == s
    ensures s.store == Store({0}, {1, 2}, map[3 := TENANT], map[4 := Membership(3, 1, OWNER)])
    ensures s.ids == {0, 1, 3, 4, 5, 6, 7}
    ensures s.handlers.Keys == {0, 1, 2} && s.handlers[0] == Handler(CREATE, Done(false))
    ensures s.handlers[1] == Handler(Update(3, Some("Yard"), None), Loaded(TENANT))
    ensures s.handlers[2] == Handler(Delete(3, 1), OwnerConfirmed)
  {
    steps, s := ReachUpdateLoaded();
    assert s.store.members[4] == Membership(3, 1, OWNER);
    steps, s := Start(steps, s, 2, Delete(3, 1));
    steps, s := Call(steps, s, 2, 6, s.store, TenantFound);
    assert OwnerIn(s.store, 3, 1);
    steps, s := Call(steps, s, 2, 7, s.store, OwnerConfirmed);
  }

  /** An add-member past its checks saves between the two deletes of a delete. */
  lemma ReachMemberBetweenDeletes() returns (steps: seq<Step>, s: State)
    ensures Possible(EMPTY, steps) && After(EMPTY, steps) == s
    ensures s.store == Store({0}, {1, 2}, map[3 := TENANT], map[12 := Membership(3, 2, MEMBER)])
    ensures 2 in s.handlers && s.handlers[2] == Handler(Delete(3, 1), MembersDeleted)
  {
    steps, s := ReachMemberChecked();
    steps, s := Call(steps, s, 2, 11, s.store.(members := map[]), MembersDeleted);
    steps, s := Call(steps, s, 3, 12, s.store.(members := map[12 := Membership(3, 2, MEMBER)]), Done(false));
  }

  lemma ReachJoinerFound() returns (steps: seq<Step>, s: State)
    ensures Possible(EMPTY, steps) && After(EMPTY, steps) == s
    ensures s.store == Store({0}, {1, 2}, map[3 := TENANT], map[4 := Membership(3, 1, OWNER)])
    ensures s.ids == {0, 1, 3, 4, 5, 6, 7, 8, 9} && s.handlers.Keys == {0, 1, 2, 3}
    ensures s.handlers[2] == Handler(Delete(3, 1), OwnerConfirmed)
    ensures s.handlers[3] == Handler(AddMember(3, Some(2), MEMBER), MemberUserFound(2))
  {
    steps, s := ReachOwnerConfirmed();
    steps, s := Start(steps, s, 3, AddMember(3, Some(2), MEMBER));
    steps, s := Call(steps, s, 3, 8, s.store, MemberTenantFound);
    steps, s := Call(steps, s, 3, 9, s.store, MemberUserFound(2));
  }

  lemma ReachMemberChecked() returns (steps: seq<Step>, s: State)
    ensures Possible(EMPTY, steps) && After(EMPTY, steps) == s
    ensures s.store == Store({0}, {1, 2}, map[3 := TENANT], map[4 := Membership(3, 1, OWNER)])
    ensures s.ids == {0, 1, 3, 4, 5, 6, 7, 8, 9, 10} && s.handlers.Keys == {0, 1, 2, 3}
    ensures s.handlers[2] == Handler(Delete(3, 1), OwnerConfirmed)
    ensures s.handlers[3] == Handler(AddMember(3, Some(2), MEMBER), MemberFree(2))
  {
    steps, s := ReachJoinerFound();
    steps, s := Call(steps, s, 3, 10, s.store, MemberFree(2));
  }

  /** The explicit delete of the memberships is not enough. In a reachable state a
      delete is about to delete the tenant's row, and to delete just the row, without the
      cascade, would leave an orphan; the cascade does not. */
  lemma CascadeIsNeeded() returns (s: State, h: nat, newId: Id)
    ensures Reachable(s) && Enabled(s, Advances(h, newId))
    ensures s.handlers[h].job.Delete? && s.handlers[h].phase == MembersDeleted
    ensures !Consistent(s.store.(tenants := s.store.tenants - {s.handlers[h].job.tenantId}))
    ensures Consistent(Do(s, Advances(h, newId)).store) && s.handlers[h].job.tenantId !in Do(s, Advances(h, newId)).store.tenants
  {
    var steps;
    steps, s := ReachMemberBetweenDeletes();
    h := 2;
    newId := FreshExists(s.ids);
    var without := s.store.(tenants := s.store.tenants - {3});
    assert 12 in without.members && without.members[12].tenantId !in without.tenants;
    AlwaysConsistent(EMPTY, steps);
    AdvanceConsistent(s.store, s.handlers[h].job, s.handlers[h].phase, newId);
  }

  const JOIN: Job := AddMember(3, Some(2), OWNER)

  lemma ReachSecondUserFound() returns (steps: seq<Step>, s: State)
    ensures Possible(EMPTY, steps) && After(EMPTY, steps) == s
    ensures s.store == Store({0}, {1, 2}, map[3 := TENANT], map[]) && s.ids == {0, 1, 3, 4, 5, 6, 7, 8}
    ensures 1 in s.handlers && s.handlers[1] == Handler(JOIN, MemberFree(2))
    ensures 2 in s.handlers && s.handlers[2] == Handler(JOIN, MemberUserFound(2))
  {
    steps, s := ReachMemberFree();
    steps, s := Start(steps, s, 2, JOIN);
    steps, s := Call(steps, s, 2, 7, s.store, MemberTenantFound);
    steps, s := Call(steps, s, 2, 8, s.store, MemberUserFound(2));
  }

  /** Two add-members of one user are both past their check, and the first can save. */
  lemma BothPassTheMemberCheck() returns (s: State, h: nat, g: nat)
    ensures Reachable(s) && h != g && h in s.handlers && g in s.handlers
    ensures s.handlers[h] == Handler(JOIN, MemberFree(2)) && s.handlers[g] == Handler(JOIN, MemberFree(2))
    ensures Enabled(s, Advances(h, 10)) && Do(s, Advances(h, 10)).handlers[h].phase == Done(false)
  {
    var steps;
    steps, s := ReachSecondUserFound();
    steps, s := Call(steps, s, 2, 9, s.store, MemberFree(2));
    h, g := 1, 2;
    MemberSavesIff(s, h, 10);
  }

  /** A delete runs to its end while the update is under way. */
  lemma ReachDeletedUnderneath() returns (steps: seq<Step>, s: State)
    ensures Possible(EMPTY, steps) && After(EMPTY, steps) == s
    ensures s.store == Store({0}, {1, 2}, map[], map[]) && s.ids == {0, 1, 3, 4, 5, 6, 7, 8, 9}
    ensures s.handlers.Keys == {0, 1, 2} && s.handlers[0] == Handler(CREATE, Done(false))
    ensures s.handlers[1] == Handler(Update(3, Some("Yard"), None), Loaded(TENANT))
    ensures s.handlers[2] == Handler(Delete(3, 1), Done(false))
  {
    steps, s := ReachOwnerConfirmed();
    steps, s := Call(steps, s, 2, 8, s.store.(members := map[]), MembersDeleted);
    steps, s := Call(steps, s, 2, 9, s.store.(tenants := map[]), Done(false));
  }

  const YARD: Tenant := TENANT.(name := "Yard")

  /** Update 1 has found no row to save to. */
  lemma ReachProbedNothing() returns (steps: seq<Step>, s: State)
    ensures Possible(EMPTY, steps) && After(EMPTY, steps) == s
    ensures s.store == Store({0}, {1, 2}, map[], map[]) && s.ids == {0, 1, 3, 4, 5, 6, 7, 8, 9, 10, 11}
    ensures s.handlers.Keys == {0, 1, 2} && s.handlers[0].phase == Done(false) && s.handlers[2].phase == Done(false)
    ensures s.handlers[1] == Handler(Update(3, Some("Yard"), None), Probed(YARD, None))
  {
    steps, s := ReachDeletedUnderneath();
    steps, s := Call(steps, s, 1, 10, s.store, Changed(YARD));
    steps, s := Call(steps, s, 1, 11, s.store, Probed(YARD, None));
  }

  /** An update can bring a deleted tenant back, without members, after every handler
      has finished without an error. */
  lemma UpdateRevivesDeletedTenant() returns (s: State, t: Id)
    ensures Reachable(s) && Ownerless(s.store, t) && s.store.members == map[]
    ensures forall h :: h in s.handlers ==> s.handlers[h].phase.Done?
  {
    var steps;
    steps, s := ReachProbedNothing();
    steps, s := Call(steps, s, 1, 12, s.store.(tenants := map[3 := YARD]), Done(true));
    t := 3;
  }

  const RENAME: Job := Update(3, Some("Yard"), None)

  const MOVE: Job := Update(3, None, Some("plot"))

  /** Update 1 gives the tenant a name, update 2 a slug; both have loaded it. */
  lemma ReachBothLoaded() returns (steps: seq<Step>, s: State)
    ensures Possible(EMPTY, steps) && After(EMPTY, steps) == s
    ensures s.store.tenants == map[3 := TENANT] && s.ids == {0, 1, 3, 4, 5, 6} && s.handlers.Keys == {0, 1, 2}
    ensures s.handlers[0].phase == Done(false)
    ensures s.handlers[1] == Handler(RENAME, Loaded(TENANT)) && s.handlers[2] == Handler(MOVE, Loaded(TENANT))
  {
    steps, s := ReachUpdateLoaded();
    steps, s := Start(steps, s, 2, MOVE);
    steps, s := Call(steps, s, 2, 6, s.store, Loaded(TENANT));
  }

  /** Update 1 has saved the name. */
  lemma ReachRenamed() returns (steps: seq<Step>, s: State)
    ensures Possible(EMPTY, steps) && After(EMPTY, steps) == s
    ensures s.store.tenants == map[3 := YARD] && s.ids == {0, 1, 3, 4, 5, 6, 7, 8, 9} && s.handlers.Keys == {0, 1, 2}
    ensures s.handlers[0].phase == Done(false)
    ensures s.handlers[1] == Handler(RENAME, Done(false)) && s.handlers[2] == Handler(MOVE, Loaded(TENANT))
  {
    steps, s := ReachBothLoaded();
    steps, s := Call(steps, s, 1, 7, s.store, Changed(YARD));
    steps, s := Call(steps, s, 1, 8, s.store, Probed(YARD, Some(TENANT)));
    steps, s := Call(steps, s, 1, 9, s.store.(tenants := s.store.tenants[3 := YARD]), Done(false));
  }

  /** Update 2 has probed the renamed row. */
  lemma ReachProbed() returns (steps: seq<Step>, s: State)
    ensures Possible(EMPTY, steps) && After(EMPTY, steps) == s
    ensures s.store.tenants == map[3 := YARD] && s.ids == {0, 1, 3, 4, 5, 6, 7, 8, 9, 10, 11} && s.handlers.Keys == {0, 1, 2}
    ensures s.handlers[0].phase == Done(false) && s.handlers[1] == Handler(RENAME, Done(false))
    ensures s.handlers[2] == Handler(MOVE, Probed(TENANT.(slug := "plot"), Some(YARD)))
  {
    var image := TENANT.(slug := "plot");
    steps, s := ReachRenamed();
    steps, s := Call(steps, s, 2, 10, s.store, Changed(image));
    steps, s := Call(steps, s, 2, 11, s.store, Probed(image, Some(YARD)));
  }

  /** A lost update: both updates end without an error, and the name that the first one
      saved is gone. The second one, which was given a slug only, wrote the old name back. */
  lemma NameIsLost() returns (steps: seq<Step>, s: State)
    ensures Possible(EMPTY, steps) && After(EMPTY, steps) == s
    ensures s.store.tenants == map[3 := Tenant(0, "Garden", "plot")]
    ensures s.handlers.Keys == {0, 1, 2} && forall h :: h in s.handlers ==> s.handlers[h].phase == Done(false)
    ensures s.handlers[1].job == Update(3, Some("Yard"), None) && s.handlers[2].job == Update(3, None, Some("plot"))
  {
    steps, s := ReachProbed();
    steps, s := Call(steps, s, 2, 12, s.store.(tenants := s.store.tenants[3 := TENANT.(slug := "plot")]), Done(false));
  }
}
