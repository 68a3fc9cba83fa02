/**
 The domain aggregates that record events, and that their event logs replay to
 their state. The three aggregates share one discipline: a field setter that
 ignores an equal value, and one closing event per update.
 */
module AggregateLog {
  import opened Options

  datatype Field = Email | DisplayName | PlatformAdmin | Name | Slug | Role

  datatype Value = Text(text: string) | Flag(flag: bool) | Absent

  type Fields = map<Field, Value>

  /** A field-changed event, or the event that closes an update with a snapshot. */
  datatype Event = Changed(field: Field, was: Value, becomes: Value) | Updated(snapshot: Fields)

  datatype Edit = Edit(field: Field, value: Value)

  // ----- What one update does

  function Set(st: Fields, e: Edit): Fields
    requires e.field in st
  {
    if st[e.field] == e.value then st else st[e.field := e.value]
  }

  function SetEvents(st: Fields, e: Edit): seq<Event>
    requires e.field in st
  {
    if st[e.field] == e.value then [] else [Changed(e.field, st[e.field], e.value)]
  }

  predicate Known(st: Fields, edits: seq<Edit>) {
    forall k :: 0 <= k < |edits| ==> edits[k].field in st
  }

  function SetAll(st: Fields, edits: seq<Edit>): (r: Fields)
    requires Known(st, edits)
    ensures r.Keys == st.Keys
  {
    if edits == [] then st else SetAll(Set(st, edits[0]), edits[1..])
  }

  function SetAllEvents(st: Fields, edits: seq<Edit>): seq<Event>
    requires Known(st, edits)
  {
    if edits == [] then [] else SetEvents(st, edits[0]) + SetAllEvents(Set(st, edits[0]), edits[1..])
  }

  function UpdateEvents(st: Fields, edits: seq<Edit>): seq<Event>
    requires Known(st, edits)
  {
    SetAllEvents(st, edits) + [Updated(SetAll(st, edits))]
  }

  // ----- Optional edits, as the commands carry them

  function Maybe(e: Option<Edit>): seq<Edit> {
    if e.Some? then [e.value] else []
  }

  function Present(first: Option<Edit>, second: Option<Edit>, third: Option<Edit>): seq<Edit> {
    Maybe(first) + Maybe(second) + Maybe(third)
  }

  predicate MaybeKnown(st: Fields, e: Option<Edit>) {
    e.Some? ==> e.value.field in st
  }

  function SetMaybe(st: Fields, e: Option<Edit>): (r: Fields)
    requires MaybeKnown(st, e)
    ensures r.Keys == st.Keys
  {
    if e.Some? then Set(st, e.value) else st
  }

  function SetMaybeEvents(st: Fields, e: Option<Edit>): seq<Event>
    requires MaybeKnown(st, e)
  {
    if e.Some? then SetEvents(st, e.value) else []
  }

  // ----- The aggregates

  class UserAggregate {
    const id: string
    const externalId: string
    var email: string
    var displayName: Option<string>
    var platformAdmin: bool
    var events: seq<Event>

    constructor (id: string, externalId: string, email: string, displayName: Option<string>, platformAdmin: bool)
      ensures this.id == id && this.externalId == externalId && events == []
      ensures this.email == email && this.displayName == displayName && this.platformAdmin == platformAdmin
      ensures State() == map[Email := Text(email), DisplayName := OptionalText(displayName), PlatformAdmin := Flag(platformAdmin)]
    {
      this.id, this.externalId, this.email := id, externalId, email;
      this.displayName, this.platformAdmin, events := displayName, platformAdmin, [];
    }

    function State(): Fields
      reads this
    {
      map[Email := Text(email), DisplayName := OptionalText(displayName), PlatformAdmin := Flag(platformAdmin)]
    }

    method ChangeEmail(value: string)
      modifies this`email, this`events
      ensures email == value
      ensures State() == Set(old(State()), Edit(Email, Text(value)))
      ensures events == old(events) + SetEvents(old(State()), Edit(Email, Text(value)))
    {
      if email == value { return; }
      events := events + [Changed(Email, Text(email), Text(value))];
      email := value;
    }

    method ChangeDisplayName(value: Option<string>)
      modifies this`displayName, this`events
      ensures displayName == value
      ensures State() == Set(old(State()), Edit(DisplayName, OptionalText(value)))
      ensures events == old(events) + SetEvents(old(State()), Edit(DisplayName, OptionalText(value)))
    {
      if displayName == value { return; }
      events := events + [Changed(DisplayName, OptionalText(displayName), OptionalText(value))];
      displayName := value;
    }

    method ChangePlatformAdmin(value: bool)
      modifies this`platformAdmin, this`events
      ensures platformAdmin == value
      ensures State() == Set(old(State()), Edit(PlatformAdmin, Flag(value)))
      ensures events == old(events) + SetEvents(old(State()), Edit(PlatformAdmin, Flag(value)))
    {
      if platformAdmin == value { return; }
      events := events + [Changed(PlatformAdmin, Flag(platformAdmin), Flag(value))];
      platformAdmin := value;
    }

    method Update(newEmail: Option<string>, newDisplayName: Option<string>, newPlatformAdmin: Option<bool>)
      modifies this
      ensures email == if newEmail.Some? then newEmail.value else old(email)
      ensures displayName == if newDisplayName.Some? then newDisplayName else old(displayName)
      ensures platformAdmin == if newPlatformAdmin.Some? then newPlatformAdmin.value else old(platformAdmin)
      ensures State() == SetAll(old(State()), UserEdits(newEmail, newDisplayName, newPlatformAdmin))
      ensures events == old(events) + UpdateEvents(old(State()), UserEdits(newEmail, newDisplayName, newPlatformAdmin))
    {
      ghost var start, log := State(), events;
      Stages(start, EmailEdit(newEmail), DisplayNameEdit(newDisplayName), PlatformAdminEdit(newPlatformAdmin));
      ghost var one := SetMaybe(start, EmailEdit(newEmail));
      ghost var two := SetMaybe(one, DisplayNameEdit(newDisplayName));
      ghost var first := SetMaybeEvents(start, EmailEdit(newEmail));
      ghost var second := SetMaybeEvents(one, DisplayNameEdit(newDisplayName));
      ghost var third := SetMaybeEvents(two, PlatformAdminEdit(newPlatformAdmin));
      if newEmail.Some? { ChangeEmail(newEmail.value); }
      assert State() == one && events == log + first;
      if newDisplayName.Some? { ChangeDisplayName(newDisplayName); }
      assert State() == two && events == log + first + second;
      if newPlatformAdmin.Some? { ChangePlatformAdmin(newPlatformAdmin.value); }
      assert State() == SetAll(start, UserEdits(newEmail, newDisplayName, newPlatformAdmin));
      Regrouped(log, first, second, third, Updated(State()));
      events := events + [Updated(State())];
    }

    /** Updates one after the other: the state and the log are what StateAfter and
        LogAfter say. */
    method UpdateAll(updates: seq<UserUpdate>)
      modifies this
      ensures AllKnown(old(State()), AllEdits(updates))
      ensures State() == StateAfter(old(State()), AllEdits(updates))
      ensures events == old(events) + LogAfter(old(State()), AllEdits(updates))
      decreases |updates|
    {
      if updates != [] {
        var u := updates[0];
        ghost var start, log := State(), events;
        Update(u.email, u.displayName, u.platformAdmin);
        UpdateAll(updates[1..]);
        UpdatesUnfold(start, log, updates);
      }
    }
  }

  function OptionalText(value: Option<string>): Value {
    if value.Some? then Text(value.value) else Absent
  }

  function EmailEdit(value: Option<string>): Option<Edit> {
    if value.Some? then Some(Edit(Email, Text(value.value))) else None
  }

  function DisplayNameEdit(value: Option<string>): Option<Edit> {
    if value.Some? then Some(Edit(DisplayName, Text(value.value))) else None
  }

  function PlatformAdminEdit(value: Option<bool>): Option<Edit> {
    if value.Some? then Some(Edit(PlatformAdmin, Flag(value.value))) else None
  }

  function UserEdits(newEmail: Option<string>, newDisplayName: Option<string>, newPlatformAdmin: Option<bool>): seq<Edit> {
    Present(EmailEdit(newEmail), DisplayNameEdit(newDisplayName), PlatformAdminEdit(newPlatformAdmin))
  }

  /** What one call of a user's update is given. */
  datatype UserUpdate = UserUpdate(email: Option<string>, displayName: Option<string>, platformAdmin: Option<bool>)

  function AllEdits(updates: seq<UserUpdate>): seq<seq<Edit>> {
    if updates == [] then []
    else [UserEdits(updates[0].email, updates[0].displayName, updates[0].platformAdmin)] + AllEdits(updates[1..])
  }

  class TenantAggregate {
    const id: string
    const appId: string
    var name: string
    var slug: string
    var events: seq<Event>

    constructor (id: string, appId: string, name: string, slug: string)
      ensures this.id == id && this.appId == appId && events == []
      ensures this.name == name && this.slug == slug
      ensures State() == map[Name := Text(name), Slug := Text(slug)]
    {
      this.id, this.appId, this.name, this.slug, events := id, appId, name, slug, [];
    }

    function State(): Fields
      reads this
    {
      map[Name := Text(name), Slug := Text(slug)]
    }

    method ChangeName(value: string)
      modifies this`name, this`events
      ensures name == value
      ensures State() == Set(old(State()), Edit(Name, Text(value)))
      ensures events == old(events) + SetEvents(old(State()), Edit(Name, Text(value)))
    {
      if name == value { return; }
      events := events + [Changed(Name, Text(name), Text(value))];
      name := value;
    }

    method ChangeSlug(value: string)
      modifies this`slug, this`events
      ensures slug == value
      ensures State() == Set(old(State()), Edit(Slug, Text(value)))
      ensures events == old(events) + SetEvents(old(State()), Edit(Slug, Text(value)))
    {
      if slug == value { return; }
      events := events + [Changed(Slug, Text(slug), Text(value))];
      slug := value;
    }

    method Update(newName: Option<string>, newSlug: Option<string>)
      modifies this
      ensures name == if newName.Some? then newName.value else old(name)
      ensures slug == if newSlug.Some? then newSlug.value else old(slug)
      ensures State() == SetAll(old(State()), TenantEdits(newName, newSlug))
      ensures events == old(events) + UpdateEvents(old(State()), TenantEdits(newName, newSlug))
    {
      ghost var start, log := State(), events;
      Stages(start, NameEdit(newName), SlugEdit(newSlug), None);
      if newName.Some? { ChangeName(newName.value); }
      if newSlug.Some? { ChangeSlug(newSlug.value); }
      assert State() == SetAll(start, TenantEdits(newName, newSlug));
      assert events == log + SetAllEvents(start, TenantEdits(newName, newSlug));
      Closed(log, start, TenantEdits(newName, newSlug));
      events := events + [Updated(State())];
    }
  }

  function NameEdit(value: Option<string>): Option<Edit> {
    if value.Some? then Some(Edit(Name, Text(value.value))) else None
  }

  function SlugEdit(value: Option<string>): Option<Edit> {
    if value.Some? then Some(Edit(Slug, Text(value.value))) else None
  }

  function TenantEdits(newName: Option<string>, newSlug: Option<string>): seq<Edit> {
    Present(NameEdit(newName), SlugEdit(newSlug), None)
  }

  class TenantMembershipAggregate {
    const id: string
    const tenantId: string
    const userId: string
    var role: string
    var events: seq<Event>

    constructor (id: string, tenantId: string, userId: string, role: string)
      ensures this.id == id && this.tenantId == tenantId && this.userId == userId && events == []
      ensures this.role == role
      ensures State() == map[Role := Text(role)]
    {
      this.id, this.tenantId, this.userId, this.role, events := id, tenantId, userId, role, [];
    }

    function State(): Fields
      reads this
    {
      map[Role := Text(role)]
    }

    method ChangeRole(value: string)
      modifies this`role, this`events
      ensures role == value
      ensures State() == Set(old(State()), Edit(Role, Text(value)))
      ensures events == old(events) + SetEvents(old(State()), Edit(Role, Text(value)))
    {
      if role == value { return; }
      events := events + [Changed(Role, Text(role), Text(value))];
      role := value;
    }

    method Update(newRole: Option<string>)
      modifies this
      ensures role == if newRole.Some? then newRole.value else old(role)
      ensures State() == SetAll(old(State()), RoleEdits(newRole))
      ensures events == old(events) + UpdateEvents(old(State()), RoleEdits(newRole))
    {
      ghost var start, log := State(), events;
      Stages(start, RoleEdit(newRole), None, None);
      if newRole.Some? { ChangeRole(newRole.value); }
      assert State() == SetAll(start, RoleEdits(newRole));
      assert events == log + SetAllEvents(start, RoleEdits(newRole));
      Closed(log, start, RoleEdits(newRole));
      events := events + [Updated(State())];
    }
  }

  function RoleEdit(value: Option<string>): Option<Edit> {
    if value.Some? then Some(Edit(Role, Text(value.value))) else None
  }

  function RoleEdits(newRole: Option<string>): seq<Edit> {
    Present(RoleEdit(newRole), None, None)
  }

  lemma UserEditsKnown(st: Fields, u: UserUpdate)
    requires Email in st && DisplayName in st && PlatformAdmin in st
    ensures Known(st, UserEdits(u.email, u.displayName, u.platformAdmin))
  {
  }

  lemma UpdatesUnfold(st: Fields, log: seq<Event>, updates: seq<UserUpdate>)
    requires updates != [] && Email in st && DisplayName in st && PlatformAdmin in st
    ensures var u := updates[0];
            var edits, later := UserEdits(u.email, u.displayName, u.platformAdmin), AllEdits(updates[1..]);
            Known(st, edits) &&
            (AllKnown(SetAll(st, edits), later) ==>
               && AllKnown(st, AllEdits(updates))
               && StateAfter(st, AllEdits(updates)) == StateAfter(SetAll(st, edits), later)
               && (log + UpdateEvents(st, edits)) + LogAfter(SetAll(st, edits), later) == log + LogAfter(st, AllEdits(updates)))
  {
    var u := updates[0];
    var edits, later := UserEdits(u.email, u.displayName, u.platformAdmin), AllEdits(updates[1..]);
    UserEditsKnown(st, u);
    if AllKnown(SetAll(st, edits), later) {
      Preceded(st, edits, later);
      LogsJoin(log, UpdateEvents(st, edits), LogAfter(SetAll(st, edits), later));
    }
  }

  lemma LogsJoin(a: seq<Event>, b: seq<Event>, c: seq<Event>)
    ensures (a + b) + c == a + (b + c)
  {
  }

  /** One update before the others. */
  lemma Preceded(st: Fields, edits: seq<Edit>, rest: seq<seq<Edit>>)
    requires Known(st, edits) && AllKnown(SetAll(st, edits), rest)
    ensures AllKnown(st, [edits] + rest)
    ensures StateAfter(st, [edits] + rest) == StateAfter(SetAll(st, edits), rest)
    ensures LogAfter(st, [edits] + rest) == UpdateEvents(st, edits) + LogAfter(SetAll(st, edits), rest)
  {
    var all := [edits] + rest;
    assert all[1..] == rest;
    forall k | 0 <= k < |all|
      ensures Known(st, all[k])
    {
      if k > 0 { assert all[k] == rest[k - 1] && Known(SetAll(st, edits), rest[k - 1]); }
    }
  }

  lemma Regrouped(log: seq<Event>, first: seq<Event>, second: seq<Event>, third: seq<Event>, last: Event)
    ensures log + first + second + third + [last] == log + (first + second + third + [last])
  {
  }

  lemma Closed(log: seq<Event>, st: Fields, edits: seq<Edit>)
    requires Known(st, edits)
    ensures (log + SetAllEvents(st, edits)) + [Updated(SetAll(st, edits))] == log + UpdateEvents(st, edits)
  {
  }

  /** Setting one more field after the others. */
  lemma {:induction false} One(st: Fields, edits: seq<Edit>, e: Edit)
    requires Known(st, edits) && e.field in st
    ensures Known(st, edits + [e])
    ensures SetAll(st, edits + [e]) == Set(SetAll(st, edits), e)
    ensures SetAllEvents(st, edits + [e]) == SetAllEvents(st, edits) + SetEvents(SetAll(st, edits), e)
    decreases |edits|
  {
    if edits == [] {
      assert [] + [e] == [e];
    } else {
      assert (edits + [e])[1..] == edits[1..] + [e];
      One(Set(st, edits[0]), edits[1..], e);
    }
  }

  lemma OneMore(st: Fields, edits: seq<Edit>, e: Option<Edit>)
    requires Known(st, edits) && MaybeKnown(st, e)
    ensures Known(st, edits + Maybe(e))
    ensures SetAll(st, edits + Maybe(e)) == SetMaybe(SetAll(st, edits), e)
    ensures SetAllEvents(st, edits + Maybe(e)) == SetAllEvents(st, edits) + SetMaybeEvents(SetAll(st, edits), e)
  {
    if e.Some? {
      One(st, edits, e.value);
    } else {
      assert edits + Maybe(e) == edits;
    }
  }

  /** Three optional edits, one after the other. */
  lemma Stages(st: Fields, first: Option<Edit>, second: Option<Edit>, third: Option<Edit>)
    requires MaybeKnown(st, first) && MaybeKnown(st, second) && MaybeKnown(st, third)
    ensures Known(st, Present(first, second, third))
    ensures SetAll(st, Present(first, second, third)) == SetMaybe(SetMaybe(SetMaybe(st, first), second), third)
    ensures SetAllEvents(st, Present(first, second, third))
         == SetMaybeEvents(st, first) + SetMaybeEvents(SetMaybe(st, first), second)
            + SetMaybeEvents(SetMaybe(SetMaybe(st, first), second), third)
  {
    OneMore(st, [], first);
    assert [] + Maybe(first) == Maybe(first);
    OneMore(st, Maybe(first), second);
    OneMore(st, Maybe(first) + Maybe(second), third);
  }

  // ----- What the commands' edits mean

  /** The field's value afterwards. */
  function Given(st: Fields, f: Field, value: Option<Value>): Value
    requires f in st
  {
    if value.Some? then value.value else st[f]
  }

  /** One event from the old value to the new, and none for an equal value. */
  function Change(f: Field, was: Value, becomes: Value): seq<Event> {
    if was == becomes then [] else [Changed(f, was, becomes)]
  }

  lemma MaybeMeaning(st: Fields, f: Field, e: Option<Edit>, value: Option<Value>)
    requires f in st && e == if value.Some? then Some(Edit(f, value.value)) else None
    ensures SetMaybe(st, e) == st[f := Given(st, f, value)]
    ensures SetMaybeEvents(st, e) == Change(f, st[f], Given(st, f, value))
  {
  }

  /** A user's update: the given fields end with the given values, the others as they
      were; one event per real change, in this order, and one closing event. */
  lemma UserUpdateMeaning(st: Fields, email: Option<string>, displayName: Option<string>, platformAdmin: Option<bool>)
    requires Email in st && DisplayName in st && PlatformAdmin in st
    ensures Known(st, UserEdits(email, displayName, platformAdmin))
    ensures var newEmail := if email.Some? then Text(email.value) else st[Email];
            var newDisplayName := if displayName.Some? then Text(displayName.value) else st[DisplayName];
            var newPlatformAdmin := if platformAdmin.Some? then Flag(platformAdmin.value) else st[PlatformAdmin];
            var after := st[Email := newEmail][DisplayName := newDisplayName][PlatformAdmin := newPlatformAdmin];
            && SetAll(st, UserEdits(email, displayName, platformAdmin)) == after
            && UpdateEvents(st, UserEdits(email, displayName, platformAdmin))
            == Change(Email, st[Email], newEmail) + Change(DisplayName, st[DisplayName], newDisplayName)
               + Change(PlatformAdmin, st[PlatformAdmin], newPlatformAdmin) + [Updated(after)]
  {
    Stages(st, EmailEdit(email), DisplayNameEdit(displayName), PlatformAdminEdit(platformAdmin));
    var one := SetMaybe(st, EmailEdit(email));
    var two := SetMaybe(one, DisplayNameEdit(displayName));
    MaybeMeaning(st, Email, EmailEdit(email), if email.Some? then Some(Text(email.value)) else None);
    MaybeMeaning(one, DisplayName, DisplayNameEdit(displayName), if displayName.Some? then Some(Text(displayName.value)) else None);
    MaybeMeaning(two, PlatformAdmin, PlatformAdminEdit(platformAdmin),
                 if platformAdmin.Some? then Some(Flag(platformAdmin.value)) else None);
  }

  /** The same for a tenant's update. */
  lemma TenantUpdateMeaning(st: Fields, name: Option<string>, slug: Option<string>)
    requires Name in st && Slug in st
    ensures Known(st, TenantEdits(name, slug))
    ensures var newName := if name.Some? then Text(name.value) else st[Name];
            var newSlug := if slug.Some? then Text(slug.value) else st[Slug];
            var after := st[Name := newName][Slug := newSlug];
            && SetAll(st, TenantEdits(name, slug)) == after
            && UpdateEvents(st, TenantEdits(name, slug))
            == Change(Name, st[Name], newName) + Change(Slug, st[Slug], newSlug) + [Updated(after)]
  {
    Stages(st, NameEdit(name), SlugEdit(slug), None);
    MaybeMeaning(st, Name, NameEdit(name), if name.Some? then Some(Text(name.value)) else None);
    MaybeMeaning(SetMaybe(st, NameEdit(name)), Slug, SlugEdit(slug), if slug.Some? then Some(Text(slug.value)) else None);
  }

  /** The same for a membership's update. */
  lemma RoleUpdateMeaning(st: Fields, role: Option<string>)
    requires Role in st
    ensures Known(st, RoleEdits(role))
    ensures var newRole := if role.Some? then Text(role.value) else st[Role];
            && SetAll(st, RoleEdits(role)) == st[Role := newRole]
            && UpdateEvents(st, RoleEdits(role)) == Change(Role, st[Role], newRole) + [Updated(st[Role := newRole])]
  {
    Stages(st, RoleEdit(role), None, None);
    MaybeMeaning(st, Role, RoleEdit(role), if role.Some? then Some(Text(role.value)) else None);
  }

  // ----- Replaying a log

  /** Folds the field-changed events over a state. */
  function Replay(st: Fields, log: seq<Event>): Fields
    decreases |log|
  {
    if log == [] then st
    else Replay(if log[0].Changed? then st[log[0].field := log[0].becomes] else st, log[1..])
  }

  /** Each field-changed event starts from the field's current value and really
      changes it; each closing event shows the state folded so far. */
  predicate Faithful(st: Fields, log: seq<Event>) {
    log == [] ||
    (match log[0]
     case Changed(f, was, becomes) => f in st && st[f] == was && was != becomes && Faithful(st[f := becomes], log[1..])
     case Updated(snapshot) => snapshot == st && Faithful(st, log[1..]))
  }

  function Closings(log: seq<Event>): nat {
    if log == [] then 0 else (if log[0].Updated? then 1 else 0) + Closings(log[1..])
  }

  predicate AllKnown(st: Fields, updates: seq<seq<Edit>>) {
    forall k :: 0 <= k < |updates| ==> Known(st, updates[k])
  }

  /** The state and the log after a sequence of updates. */
  function StateAfter(st: Fields, updates: seq<seq<Edit>>): Fields
    requires AllKnown(st, updates)
  {
    if updates == [] then st else StateAfter(SetAll(st, updates[0]), updates[1..])
  }

  function LogAfter(st: Fields, updates: seq<seq<Edit>>): seq<Event>
    requires AllKnown(st, updates)
  {
    if updates == [] then [] else UpdateEvents(st, updates[0]) + LogAfter(SetAll(st, updates[0]), updates[1..])
  }

  lemma {:induction false} ReplayConcat(st: Fields, first: seq<Event>, middle: Fields, second: seq<Event>)
    requires Faithful(st, first) && middle == Replay(st, first) && Faithful(middle, second)
    ensures Faithful(st, first + second)
    ensures Replay(st, first + second) == Replay(middle, second)
    ensures Closings(first + second) == Closings(first) + Closings(second)
    decreases |first|
  {
    if first == [] {
      assert first + second == second;
    } else {
      assert (first + second)[1..] == first[1..] + second;
      ReplayConcat(if first[0].Changed? then st[first[0].field := first[0].becomes] else st, first[1..], middle, second);
    }
  }

  lemma SetReplays(st: Fields, e: Edit)
    requires e.field in st
    ensures Faithful(st, SetEvents(st, e)) && Replay(st, SetEvents(st, e)) == Set(st, e) && Closings(SetEvents(st, e)) == 0
  {
    if st[e.field] != e.value {
      var log := SetEvents(st, e);
      assert log[1..] == [];
      assert Replay(st, log) == Replay(st[e.field := e.value], log[1..]);
    }
  }

  lemma {:induction false} EditsReplay(st: Fields, edits: seq<Edit>)
    requires Known(st, edits)
    ensures Faithful(st, SetAllEvents(st, edits)) && Closings(SetAllEvents(st, edits)) == 0
    ensures Replay(st, SetAllEvents(st, edits)) == SetAll(st, edits)
    decreases |edits|
  {
    if edits != [] {
      EditsReplay(Set(st, edits[0]), edits[1..]);
      var head := SetEvents(st, edits[0]);
      SetReplays(st, edits[0]);
      ReplayConcat(st, head, Set(st, edits[0]), SetAllEvents(Set(st, edits[0]), edits[1..]));
    }
  }

  /** For any sequence of updates the log replays to the final state, every event is
      faithful to the state at its place, and there is one closing event per call. */
  lemma {:induction false} LogReplays(st: Fields, updates: seq<seq<Edit>>)
    requires AllKnown(st, updates)
    ensures Replay(st, LogAfter(st, updates)) == StateAfter(st, updates)
    ensures Faithful(st, LogAfter(st, updates))
    ensures Closings(LogAfter(st, updates)) == |updates|
    decreases |updates|
  {
    if updates != [] {
      var next := SetAll(st, updates[0]);
      LogReplays(next, updates[1..]);
      EditsReplay(st, updates[0]);
      ReplayConcat(st, SetAllEvents(st, updates[0]), next, [Updated(next)]);
      ReplayConcat(st, UpdateEvents(st, updates[0]), next, LogAfter(next, updates[1..]));
    }
  }

  lemma {:induction false} EditsKeepPresent(st: Fields, edits: seq<Edit>, f: Field)
    requires Known(st, edits) && f in st && st[f] != Absent
    requires forall k :: 0 <= k < |edits| ==> edits[k].value != Absent
    ensures SetAll(st, edits)[f] != Absent
    decreases |edits|
  {
    if edits != [] {
      EditsKeepPresent(Set(st, edits[0]), edits[1..], f);
    }
  }

  /** A user update never edits a field to absent, so a display name once set stays. */
  lemma {:induction false} DisplayNameStaysSet(st: Fields, updates: seq<seq<Edit>>)
    requires AllKnown(st, updates) && DisplayName in st && st[DisplayName] != Absent
    requires forall k :: 0 <= k < |updates| ==> exists e, d, p :: updates[k] == UserEdits(e, d, p)
    ensures DisplayName in StateAfter(st, updates) && StateAfter(st, updates)[DisplayName] != Absent
    decreases |updates|
  {
    if updates != [] {
      EditsKeepPresent(st, updates[0], DisplayName);
      DisplayNameStaysSet(SetAll(st, updates[0]), updates[1..]);
    }
  }
}
