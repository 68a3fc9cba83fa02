/**
 The tenancy handlers as a step machine over the two tables.

 No handler opens a transaction, so every repository call is a step of its own,
 and any number of handlers interleave. Each statement either takes effect or is
 rejected by a constraint of the schema. Where the delete handler's comment and
 the migration disagree about the cascade from tenant to membership, the
 migration is followed: it declares one.
 */
module TenancyProtocol {
  import opened Options

  type Id = nat

  datatype Role = OWNER | MEMBER | ADMIN

  datatype Tenant = Tenant(appId: Id, name: string, slug: string)

  datatype Membership = Membership(tenantId: Id, userId: Id, role: Role)

  datatype Store = Store(apps: set<Id>, users: set<Id>, tenants: map<Id, Tenant>, members: map<Id, Membership>)

  // ----- Statements

  datatype Violation = PrimaryKey | ForeignKey | Unique

  predicate SlugTaken(st: Store, appId: Id, slug: string) {
    exists t :: t in st.tenants && st.tenants[t].appId == appId && st.tenants[t].slug == slug
  }

  predicate IsMember(st: Store, tenantId: Id, userId: Id) {
    exists m :: m in st.members && st.members[m].tenantId == tenantId && st.members[m].userId == userId
  }

  function InsertTenant(st: Store, id: Id, t: Tenant): Result<Store, Violation> {
    if id in st.tenants then Err(PrimaryKey)
    else if t.appId !in st.apps then Err(ForeignKey)
    else if SlugTaken(st, t.appId, t.slug) then Err(Unique)
    else Ok(st.(tenants := st.tenants[id := t]))
  }

  /** The UPDATE that save issues: the columns that differ from the row it probed.
      No row, no effect. */
  function UpdateTenant(st: Store, id: Id, probed: Tenant, image: Tenant): Result<Store, Violation> {
    if id !in st.tenants then Ok(st)
    else
      var current := st.tenants[id];
      var name := if image.name != probed.name then image.name else current.name;
      var slug := if image.slug != probed.slug then image.slug else current.slug;
      if slug != current.slug && SlugTaken(st, current.appId, slug) then Err(Unique)
      else Ok(st.(tenants := st.tenants[id := current.(name := name, slug := slug)]))
  }

  function InsertMember(st: Store, id: Id, m: Membership): Result<Store, Violation> {
    if id in st.members then Err(PrimaryKey)
    else if m.tenantId !in st.tenants || m.userId !in st.users then Err(ForeignKey)
    else if IsMember(st, m.tenantId, m.userId) then Err(Unique)
    else Ok(st.(members := st.members[id := m]))
  }

  function DeleteMembersOf(st: Store, tenantId: Id): Store {
    st.(members := map m | m in st.members && st.members[m].tenantId != tenantId :: st.members[m])
  }

  /** ON DELETE CASCADE takes the memberships along. */
  function DeleteTenant(st: Store, id: Id): Store {
    DeleteMembersOf(st, id).(tenants := st.tenants - {id})
  }

  // ----- Handlers

  datatype Job =
    | Create(appId: Id, name: string, slug: string, creator: Id)
    | Update(tenantId: Id, newName: Option<string>, newSlug: Option<string>)
    | Delete(tenantId: Id, requester: Id)
    | AddMember(tenantId: Id, user: Option<Id>, role: Role)

  datatype Phase =
    | Started
      // Create
    | AppFound
    | SlugFree
    | TenantSaved(id: Id)
      // Update
    | Loaded(loaded: Tenant)
    | Changed(image: Tenant)
    | Probed(image: Tenant, row: Option<Tenant>)
      // Delete
    | TenantFound
    | OwnerConfirmed
    | MembersDeleted
      // AddMember
    | MemberTenantFound
    | MemberUserFound(userId: Id)
    | MemberFree(userId: Id)
      // Any
    | Done(reinserted: bool)
    | Failed(reached: Reached)

  /** What a handler that stopped early had already written. */
  datatype Reached = Nothing | TenantOnly(id: Id) | MembersGone

  /** Applies the command to the loaded aggregate. */
  function Edited(t: Tenant, newName: Option<string>, newSlug: Option<string>): Tenant {
    var named := if newName.Some? then t.(name := newName.value) else t;
    if newSlug.Some? then named.(slug := newSlug.value) else named
  }

  function Written(phase: Phase): Reached {
    match phase
    case TenantSaved(id) => TenantOnly(id)
    case MembersDeleted => MembersGone
    case _ => Nothing
  }

  function Outcome(r: Result<Store, Violation>, st: Store, ok: Phase, at: Phase): (Store, Phase) {
    match r
    case Ok(st') => (st', ok)
    case Err(_) => (st, Failed(Written(at)))
  }

  /** A check: go on, or throw. */
  function Checked(pass: bool, st: Store, ok: Phase): (Store, Phase) {
    (st, if pass then ok else Failed(Nothing))
  }

  predicate OwnerIn(st: Store, tenantId: Id, userId: Id) {
    exists m :: m in st.members && st.members[m] == Membership(tenantId, userId, OWNER)
  }

  /** The next repository call of a handler; newId is the identifier it generates if
      it inserts a row. */
  function Advance(st: Store, job: Job, phase: Phase, newId: Id): (Store, Phase) {
    match job
    case Create(appId, name, slug, creator) => (
      match phase
      case Started => Checked(appId in st.apps, st, AppFound)
      case AppFound => Checked(!SlugTaken(st, appId, slug), st, SlugFree)
      case SlugFree => Outcome(InsertTenant(st, newId, Tenant(appId, name, slug)), st, TenantSaved(newId), phase)
      case TenantSaved(id) => Outcome(InsertMember(st, newId, Membership(id, creator, OWNER)), st, Done(false), phase)
      case _ => (st, phase))
    case Update(id, newName, newSlug) => (
      match phase
      case Started => if id in st.tenants then (st, Loaded(st.tenants[id])) else (st, Failed(Nothing))
      case Loaded(loaded) =>
        Checked(newSlug.Some? && newSlug.value != loaded.slug ==> !SlugTaken(st, loaded.appId, newSlug.value), st,
                Changed(Edited(loaded, newName, newSlug)))
      case Changed(image) => (st, Probed(image, if id in st.tenants then Some(st.tenants[id]) else None))
      case Probed(image, Some(row)) => Outcome(UpdateTenant(st, id, row, image), st, Done(false), phase)
      case Probed(image, None) => Outcome(InsertTenant(st, id, image), st, Done(true), phase)
      case _ => (st, phase))
    case Delete(id, requester) => (
      match phase
      case Started => Checked(id in st.tenants, st, TenantFound)
      case TenantFound => Checked(OwnerIn(st, id, requester), st, OwnerConfirmed)
      case OwnerConfirmed => (DeleteMembersOf(st, id), MembersDeleted)
      case MembersDeleted => (DeleteTenant(st, id), Done(false))
      case _ => (st, phase))
    case AddMember(id, user, role) => (
      match phase
      case Started => Checked(id in st.tenants, st, MemberTenantFound)
      case MemberTenantFound => if user.Some? then (st, MemberUserFound(user.value)) else (st, Failed(Nothing))
      case MemberUserFound(userId) => Checked(!IsMember(st, id, userId), st, MemberFree(userId))
      case MemberFree(userId) => Outcome(InsertMember(st, newId, Membership(id, userId, role)), st, Done(false), phase)
      case _ => (st, phase))
  }

  predicate Finished(phase: Phase) { phase.Done? || phase.Failed? }

  // ----- Interleaved runs

  datatype Handler = Handler(job: Job, phase: Phase)

  datatype State = State(store: Store, handlers: map<nat, Handler>, ids: set<Id>)

  datatype Step =
    | AddApp(id: Id)
    | AddUser(id: Id)
    | Begin(h: nat, job: Job)
    | Advances(h: nat, newId: Id)
    | Crash(h: nat)

  predicate Enabled(s: State, a: Step) {
    match a
    case AddApp(_) => true
    case AddUser(_) => true
    case Begin(h, _) => h !in s.handlers
    case Advances(h, newId) => h in s.handlers && !Finished(s.handlers[h].phase) && newId !in s.ids
    case Crash(h) => h in s.handlers && !Finished(s.handlers[h].phase)
  }

  function Do(s: State, a: Step): State
    requires Enabled(s, a)
  {
    match a
    case AddApp(id) => s.(store := s.store.(apps := s.store.apps + {id}))
    case AddUser(id) => s.(store := s.store.(users := s.store.users + {id}))
    case Begin(h, job) => s.(handlers := s.handlers[h := Handler(job, Started)])
    case Advances(h, newId) =>
      var (store, phase) := Advance(s.store, s.handlers[h].job, s.handlers[h].phase, newId);
      State(store, s.handlers[h := s.handlers[h].(phase := phase)], s.ids + {newId})
    case Crash(h) =>
      s.(handlers := s.handlers[h := s.handlers[h].(phase := Failed(Written(s.handlers[h].phase)))])
  }

  const EMPTY: State := State(Store({}, {}, map[], map[]), map[], {})

  predicate Possible(s: State, steps: seq<Step>)
    decreases |steps|, 0
  {
    steps == [] ||
    (Possible(s, steps[..|steps| - 1]) && Enabled(After(s, steps[..|steps| - 1]), steps[|steps| - 1]))
  }

  function After(s: State, steps: seq<Step>): State
    requires Possible(s, steps)
    decreases |steps|, 1
  {
    if steps == [] then s else Do(After(s, steps[..|steps| - 1]), steps[|steps| - 1])
  }

  ghost predicate Reachable(s: State) {
    exists steps :: Possible(EMPTY, steps) && After(EMPTY, steps) == s
  }
}
