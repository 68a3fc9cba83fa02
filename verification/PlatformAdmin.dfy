/**
 Platform-admin reconciliation at login: the list parsed from one environment
 variable, the three-valued decision, and the stored flag and signed claim that
 follow from it.
 */
module PlatformAdmin {
  import opened Options
  import AggregateLog
  import Registration

  // ----- The environment variable

  function Split(s: string): (r: seq<string>)
    ensures |r| >= 1
  {
    if s == "" then [""]
    else
      var rest := Split(s[1..]);
      if s[0] == ',' then [""] + rest else [[s[0]] + rest[0]] + rest[1..]
  }

  /** White space and line terminators, as trim sees them. */
  predicate Space(c: char) {
    var n := c as int;
    || 0x09 <= n <= 0x0d || n == 0x20 || n == 0xa0 || n == 0x1680 || 0x2000 <= n <= 0x200a
    || n == 0x2028 || n == 0x2029 || n == 0x202f || n == 0x205f || n == 0x3000 || n == 0xfeff
  }

  function TrimStart(s: string): string {
    if s != "" && Space(s[0]) then TrimStart(s[1..]) else s
  }

  function TrimEnd(s: string): string {
    if s != "" && Space(s[|s| - 1]) then TrimEnd(s[..|s| - 1]) else s
  }

  function LowerChar(c: char): char {
    if 'A' <= c <= 'Z' then c - 'A' + 'a' else c
  }

  function Lower(s: string): string {
    seq(|s|, i requires 0 <= i < |s| => LowerChar(s[i]))
  }

  function Normalise(s: string): string {
    Lower(TrimEnd(TrimStart(s)))
  }

  function NormaliseAll(segments: seq<string>): seq<string> {
    if segments == [] then []
    else (if Normalise(segments[0]) != "" then [Normalise(segments[0])] else []) + NormaliseAll(segments[1..])
  }

  /** None when the variable is absent, which is not the same as empty. */
  function ParsePlatformAdminEmails(raw: Option<string>): Option<seq<string>> {
    if raw.None? then None else Some(NormaliseAll(Split(raw.value)))
  }

  // ----- What parsing means

  /** s[i..j] is a maximal stretch without commas. */
  predicate SegmentAt(s: string, i: nat, j: nat) {
    && i <= j <= |s| && (forall k :: i <= k < j ==> s[k] != ',')
    && (i == 0 || s[i - 1] == ',') && (j == |s| || s[j] == ',')
  }

  ghost predicate IsSegment(s: string, segment: string) {
    exists i: nat, j: nat :: SegmentAt(s, i, j) && s[i..j] == segment
  }

  /** The segment that starts a text, and the segments after it, in terms of the tail. */
  lemma SplitOfTail(s: string)
    requires s != ""
    ensures if s[0] == ',' then Split(s)[0] == "" && Split(s)[1..] == Split(s[1..])
            else Split(s)[0] == [s[0]] + Split(s[1..])[0] && Split(s)[1..] == Split(s[1..])[1..]
  {
  }

  lemma SegmentOfTail(s: string, i: nat, j: nat)
    requires SegmentAt(s, i, j) && i > 0
    ensures SegmentAt(s[1..], i - 1, j - 1) && s[1..][i - 1..j - 1] == s[i..j]
  {
    assert s[i - 1] == ',' && forall k :: 0 <= k < |s| - 1 ==> s[1..][k] == s[k + 1];
  }

  lemma FirstSegment(s: string, j: nat)
    requires SegmentAt(s, 0, j) && s != "" && s[0] != ','
    ensures j > 0 && SegmentAt(s[1..], 0, j - 1) && s[0..j] == [s[0]] + s[1..][0..j - 1]
  {
    assert forall k :: 0 <= k < |s| - 1 ==> s[1..][k] == s[k + 1];
  }

  lemma {:induction false} SegmentIsSplit(s: string, i: nat, j: nat)
    requires SegmentAt(s, i, j)
    ensures if i == 0 then Split(s)[0] == s[i..j] else s[i..j] in Split(s)[1..]
    decreases |s|
  {
    if s != "" {
      var tail := s[1..];
      SplitOfTail(s);
      if i > 0 {
        SegmentOfTail(s, i, j);
        SegmentIsSplit(tail, i - 1, j - 1);
      } else if s[0] != ',' {
        FirstSegment(s, j);
        SegmentIsSplit(tail, 0, j - 1);
      }
    }
  }

  lemma {:induction false} SplitIsSegment(s: string, k: nat) returns (i: nat, j: nat)
    requires k < |Split(s)|
    ensures SegmentAt(s, i, j) && s[i..j] == Split(s)[k] && (k == 0 <==> i == 0)
    decreases |s|
  {
    if s == "" {
      i, j := 0, 0;
    } else {
      var tail, rest := s[1..], Split(s[1..]);
      if s[0] == ',' && k == 0 {
        i, j := 0, 0;
      } else {
        i, j := SplitIsSegment(tail, if s[0] == ',' then k - 1 else k);
        assert tail[i..j] == s[i + 1..j + 1];
        if s[0] != ',' && k == 0 {
          assert s[0..j + 1] == [s[0]] + tail[i..j];
          i, j := 0, j + 1;
        } else {
          i, j := i + 1, j + 1;
        }
      }
    }
  }

  /** Split yields exactly the stretches between commas. */
  lemma SplitMeaning(s: string, segment: string)
    ensures segment in Split(s) <==> IsSegment(s, segment)
  {
    if segment in Split(s) {
      var k :| 0 <= k < |Split(s)| && Split(s)[k] == segment;
      var i, j := SplitIsSegment(s, k);
    }
    if IsSegment(s, segment) {
      var i: nat, j: nat :| SegmentAt(s, i, j) && s[i..j] == segment;
      SegmentIsSplit(s, i, j);
    }
  }

  function Join(segments: seq<string>): string
    requires segments != []
  {
    if |segments| == 1 then segments[0] else segments[0] + "," + Join(segments[1..])
  }

  /** Nothing of the variable is lost, and its order is kept. */
  lemma {:induction false} JoinSplit(s: string)
    ensures Join(Split(s)) == s
    decreases |s|
  {
    if s != "" {
      JoinSplit(s[1..]);
      var rest := Split(s[1..]);
      if s[0] == ',' {
        assert Split(s)[1..] == rest;
      } else {
        assert Split(s)[1..] == rest[1..];
        if |rest| > 1 {
          var last := Join(rest[1..]);
          assert ([s[0]] + rest[0]) + "," + last == [s[0]] + (rest[0] + "," + last);
        }
      }
    }
  }

  /** The other way round, for segments without commas. */
  lemma {:induction false} SplitJoin(segments: seq<string>)
    requires segments != [] && forall k :: 0 <= k < |segments| ==> ',' !in segments[k]
    ensures Split(Join(segments)) == segments
    decreases |segments|, |segments[0]|
  {
    var s := Join(segments);
    if segments[0] == "" {
      if |segments| > 1 {
        SplitJoin(segments[1..]);
        assert s[1..] == Join(segments[1..]);
      }
    } else {
      var head := segments[0];
      assert head[0] in head && forall c :: c in head[1..] ==> c in head;
      var shorter := [head[1..]] + segments[1..];
      assert shorter[1..] == segments[1..];
      SplitJoin(shorter);
      assert s == [head[0]] + Join(shorter);
      assert s[1..] == Join(shorter);
      assert [head[0]] + head[1..] == head;
      assert [head] + segments[1..] == segments;
    }
  }

  // ----- What normalising means

  /** The white space and line terminators of ECMAScript, by code point. */
  const WHITE_SPACE: set<int> := {
    0x09, 0x0a, 0x0b, 0x0c, 0x0d, 0x20, 0xa0, 0x1680, 0x2000, 0x2001, 0x2002, 0x2003, 0x2004, 0x2005, 0x2006, 0x2007,
    0x2008, 0x2009, 0x200a, 0x2028, 0x2029, 0x202f, 0x205f, 0x3000, 0xfeff}

  predicate White(c: char) { c as int in WHITE_SPACE }

  predicate AllWhite(s: string) {
    forall k :: 0 <= k < |s| ==> White(s[k])
  }

  predicate Trimmed(s: string) {
    s == "" || (!White(s[0]) && !White(s[|s| - 1]))
  }

  /** t is s without the white space at its ends. */
  ghost predicate TrimsTo(s: string, t: string) {
    Trimmed(t) && exists before, after :: AllWhite(before) && AllWhite(after) && s == before + t + after
  }

  /** The same letter up to case, A to Z against a to z. */
  predicate SameLetter(c: char, d: char) {
    || c == d
    || ('A' <= c <= 'Z' && d as int - c as int == 32)
    || ('A' <= d <= 'Z' && c as int - d as int == 32)
  }

  /** The same text up to letter case. */
  predicate SameText(s: string, t: string) {
    |s| == |t| && forall k :: 0 <= k < |s| ==> SameLetter(s[k], t[k])
  }

  lemma {:induction false} TrimStartMeaning(s: string) returns (before: string)
    ensures s == before + TrimStart(s) && AllWhite(before)
    ensures TrimStart(s) == "" || !White(TrimStart(s)[0])
    decreases |s|
  {
    before := "";
    if s != "" && Space(s[0]) {
      before := TrimStartMeaning(s[1..]);
      before := [s[0]] + before;
    }
  }

  lemma {:induction false} TrimEndMeaning(s: string) returns (after: string)
    ensures s == TrimEnd(s) + after && AllWhite(after)
    ensures TrimEnd(s) == "" || !White(TrimEnd(s)[|TrimEnd(s)| - 1])
    decreases |s|
  {
    after := "";
    if s != "" && Space(s[|s| - 1]) {
      after := TrimEndMeaning(s[..|s| - 1]);
      after := after + [s[|s| - 1]];
    }
  }

  /** Trimming cuts the white space off both ends and nothing else. */
  lemma TrimMeaning(s: string)
    ensures TrimsTo(s, TrimEnd(TrimStart(s)))
  {
    var before := TrimStartMeaning(s);
    var half := TrimStart(s);
    var after := TrimEndMeaning(half);
    var inner := TrimEnd(half);
    assert half == inner + after;
    if inner != "" {
      assert inner[0] == half[0];
    }
    assert s == before + (inner + after) == before + inner + after;
  }

  /** The white space that one way cuts off is part of what another way cuts off. */
  lemma CutIsCut(b: string, t: string, a: string, d: string, u: string, c: string)
    requires b + t + a == d + u + c && AllWhite(d) && AllWhite(c) && Trimmed(t) && t != ""
    ensures |b| >= |d| && |a| >= |c|
  {
    var s := b + t + a;
    assert s[|b|] == t[0] && s[|b| + |t| - 1] == t[|t| - 1];
    assert forall k :: 0 <= k < |d| ==> s[k] == d[k];
    assert forall k :: |s| - |c| <= k < |s| ==> s[k] == c[k - |s| + |c|];
  }

  lemma NothingLeftIff(s: string, t: string)
    requires TrimsTo(s, t)
    ensures t == "" <==> AllWhite(s)
  {
    var before, after :| AllWhite(before) && AllWhite(after) && s == before + t + after;
    if t != "" {
      assert s[|before|] == t[0];
    }
  }

  /** There is one way to trim a text. */
  lemma TrimsToOne(s: string, t: string, u: string)
    requires TrimsTo(s, t) && TrimsTo(s, u)
    ensures t == u
  {
    var b, a :| AllWhite(b) && AllWhite(a) && s == b + t + a;
    var d, c :| AllWhite(d) && AllWhite(c) && s == d + u + c;
    NothingLeftIff(s, t);
    NothingLeftIff(s, u);
    if t != "" {
      CutIsCut(b, t, a, d, u, c);
      CutIsCut(d, u, c, b, t, a);
      assert t == s[|b|..|s| - |a|] == u;
    }
  }

  predicate NoCapital(s: string) {
    forall k :: 0 <= k < |s| ==> !('A' <= s[k] <= 'Z')
  }

  lemma LowerMeaning(s: string)
    ensures SameText(s, Lower(s)) && NoCapital(Lower(s)) && (Trimmed(s) ==> Trimmed(Lower(s)))
  {
    if s != "" {
      assert SameLetter(s[0], Lower(s)[0]) && SameLetter(s[|s| - 1], Lower(s)[|s| - 1]);
    }
  }

  /** What a text is normalised to: what is left between the white space at its ends,
      up to letter case, and without a letter A to Z. */
  lemma NormaliseMeaning(s: string, t: string)
    requires TrimsTo(s, t)
    ensures SameText(t, Normalise(s)) && Trimmed(Normalise(s)) && NoCapital(Normalise(s))
  {
    TrimMeaning(s);
    TrimsToOne(s, t, TrimEnd(TrimStart(s)));
    LowerMeaning(t);
  }

  lemma SameWithoutCapitals(s: string, t: string)
    requires SameText(s, t) && NoCapital(s) && NoCapital(t)
    ensures s == t
  {
    forall k | 0 <= k < |s|
      ensures s[k] == t[k]
    {
      assert SameLetter(s[k], t[k]);
    }
  }

  lemma SameTextSymmetric(s: string, t: string)
    requires SameText(s, t)
    ensures SameText(t, s)
  {
    forall k | 0 <= k < |s|
      ensures SameLetter(t[k], s[k])
    {
      assert SameLetter(s[k], t[k]);
    }
  }

  lemma SameTextTransitive(s: string, t: string, u: string)
    requires SameText(s, t) && SameText(t, u)
    ensures SameText(s, u)
  {
    forall k | 0 <= k < |s|
      ensures SameLetter(s[k], u[k])
    {
      assert SameLetter(s[k], t[k]) && SameLetter(t[k], u[k]);
    }
  }

  /** Two texts are normalised to the same exactly if, between the white space at their
      ends, they are the same up to letter case. */
  lemma SameNormaliseIff(s: string, t: string, u: string, v: string)
    requires TrimsTo(s, t) && TrimsTo(u, v)
    ensures Normalise(s) == Normalise(u) <==> SameText(t, v)
  {
    NormaliseMeaning(s, t);
    NormaliseMeaning(u, v);
    SameTextSymmetric(v, Normalise(u));
    if SameText(t, v) {
      SameTextSymmetric(t, Normalise(s));
      SameTextTransitive(Normalise(s), t, v);
      SameTextTransitive(Normalise(s), v, Normalise(u));
      SameWithoutCapitals(Normalise(s), Normalise(u));
    } else if Normalise(s) == Normalise(u) {
      SameTextTransitive(t, Normalise(s), v);
    }
  }

  /** White space around a text does not matter, and nothing else disappears. */
  lemma OuterWhiteSpace(before: string, s: string, after: string, c: char)
    requires AllWhite(before) && AllWhite(after)
    ensures Normalise(before + s + after) == Normalise(s)
    ensures Normalise([c]) == "" <==> c as int in WHITE_SPACE
  {
    TrimMeaning(s);
    var t := TrimEnd(TrimStart(s));
    var b, a :| AllWhite(b) && AllWhite(a) && s == b + t + a;
    assert before + s + after == (before + b) + t + (a + after);
    assert AllWhite(before + b) && AllWhite(a + after);
    assert TrimsTo(before + s + after, t) && TrimsTo(s, t);
    assert SameText(t, t);
    SameNormaliseIff(before + s + after, t, s, t);
    OneCharacter(c);
  }

  lemma OneCharacter(c: char)
    ensures Normalise([c]) == "" <==> White(c)
  {
    if White(c) {
      assert [c] == [c] + "" + "" && AllWhite([c]) && AllWhite("");
      NormaliseMeaning([c], "");
    } else {
      assert [c] == "" + [c] + "" && AllWhite("");
      NormaliseMeaning([c], [c]);
    }
  }

  lemma NormalisedTwice(s: string)
    ensures Normalise(Normalise(s)) == Normalise(s)
  {
    TrimMeaning(s);
    NormaliseMeaning(s, TrimEnd(TrimStart(s)));
    var n := Normalise(s);
    assert n == "" + n + "" && AllWhite("");
    NormaliseMeaning(n, n);
    SameWithoutCapitals(n, Normalise(n));
  }

  lemma {:induction false} InNormaliseAll(segments: seq<string>, email: string)
    ensures email in NormaliseAll(segments) <==>
            email != "" && exists k :: 0 <= k < |segments| && Normalise(segments[k]) == email
    decreases |segments|
  {
    if segments != [] {
      InNormaliseAll(segments[1..], email);
      var head := if Normalise(segments[0]) != "" then [Normalise(segments[0])] else [];
      assert email in NormaliseAll(segments) <==> email in head || email in NormaliseAll(segments[1..]);
      if k :| 0 <= k < |segments| && Normalise(segments[k]) == email && email != "" {
        assert k > 0 ==> segments[1..][k - 1] == segments[k];
      }
    }
  }

  /** What it means for an email to be on the list: between the white space at its ends,
      some stretch of the variable between commas is the same text as the email, up to
      letter case, and not nothing. */
  ghost predicate Allowed(raw: string, email: string) {
    exists segment, t, u ::
      IsSegment(raw, segment) && TrimsTo(segment, t) && TrimsTo(email, u) && SameText(t, u) && t != ""
  }

  lemma ListMeaning(raw: string, email: string)
    ensures Normalise(email) in ParsePlatformAdminEmails(Some(raw)).value <==> Allowed(raw, email)
  {
    InNormaliseAll(Split(raw), Normalise(email));
    var u := TrimEnd(TrimStart(email));
    TrimMeaning(email);
    NormaliseMeaning(email, u);
    if k :| 0 <= k < |Split(raw)| && Normalise(Split(raw)[k]) == Normalise(email) && Normalise(email) != "" {
      var segment := Split(raw)[k];
      SplitMeaning(raw, segment);
      TrimMeaning(segment);
      SameNormaliseIff(segment, TrimEnd(TrimStart(segment)), email, u);
    }
    if segment, t, v :|
      IsSegment(raw, segment) && TrimsTo(segment, t) && TrimsTo(email, v) && SameText(t, v) && t != "" {
      SplitMeaning(raw, segment);
      SameNormaliseIff(segment, t, email, v);
      NormaliseMeaning(email, v);
    }
  }

  // ----- The decision

  /** ReconcilePlatformAdminService: None says there is nothing to write. */
  function Reconcile(email: string, current: bool, list: Option<seq<string>>): Option<bool> {
    if list.None? then None
    else
      var should := Normalise(email) in list.value;
      if should == current then None else Some(should)
  }

  /** The flag a login leads to. */
  ghost function Target(raw: Option<string>, email: string, current: bool): bool {
    if raw.Some? then Allowed(raw.value, email) else current
  }

  /** The decision asks for a write exactly when the flag is not what the variable
      says, and then it asks for the other value. */
  lemma ReconcileMeaning(raw: Option<string>, email: string, current: bool)
    ensures var r := Reconcile(email, current, ParsePlatformAdminEmails(raw));
            && (r.None? <==> Target(raw, email, current) == current)
            && (r.Some? ==> r.value == Target(raw, email, current) == !current)
  {
    if raw.Some? {
      ListMeaning(raw.value, email);
    }
  }

  // ----- The stored flag and the claim

  type User = Registration.User

  type Users = map<string, User>

  predicate UniqueEmails(users: Users) {
    forall u, v :: u in users && v in users && users[u].email == users[v].email ==> u == v
  }

  function Fields(user: User): AggregateLog.Fields {
    map[AggregateLog.Email := AggregateLog.Text(user.email),
        AggregateLog.DisplayName := AggregateLog.OptionalText(user.displayName),
        AggregateLog.PlatformAdmin := AggregateLog.Flag(user.platformAdmin)]
  }

  /** What publishing one real change of the flag adds to the event stream. */
  function FlagEvents(user: User, flag: bool): seq<AggregateLog.Event>
    requires user.platformAdmin != flag
  {
    AggregateLog.UpdateEvents(Fields(user), AggregateLog.UserEdits(None, None, Some(flag)))
  }

  /** One field-changed event from the old flag to the new, and one closing event that
      shows the user with the new flag and everything else as before. */
  lemma FlagEventsMeaning(user: User, flag: bool)
    requires user.platformAdmin != flag
    ensures FlagEvents(user, flag) == [
              AggregateLog.Changed(AggregateLog.PlatformAdmin, AggregateLog.Flag(user.platformAdmin), AggregateLog.Flag(flag)),
              AggregateLog.Updated(Fields(user.(platformAdmin := flag)))]
  {
    var edits := AggregateLog.UserEdits(None, None, Some(flag));
    var edit := AggregateLog.Edit(AggregateLog.PlatformAdmin, AggregateLog.Flag(flag));
    assert edits == [] + [edit];
    AggregateLog.One(Fields(user), [], edit);
    assert AggregateLog.SetAll(Fields(user), edits) == Fields(user.(platformAdmin := flag));
  }

  /** What the aggregate holds after update({ platformAdmin }). */
  lemma ChangedFlag(row: User, flag: bool, email: string, displayName: Option<string>, platformAdmin: bool)
    requires row.platformAdmin != flag
    requires Fields(Registration.User(row.externalId, email, displayName, platformAdmin))
          == AggregateLog.SetAll(Fields(row), AggregateLog.UserEdits(None, None, Some(flag)))
    ensures Registration.User(row.externalId, email, displayName, platformAdmin) == row.(platformAdmin := flag)
  {
    var edit := AggregateLog.Edit(AggregateLog.PlatformAdmin, AggregateLog.Flag(flag));
    var fields := Fields(Registration.User(row.externalId, email, displayName, platformAdmin));
    assert AggregateLog.UserEdits(None, None, Some(flag)) == [edit] && [edit][1..] == [];
    assert fields == AggregateLog.Set(Fields(row), edit);
    assert fields[AggregateLog.Email] == AggregateLog.Text(row.email);
    assert fields[AggregateLog.DisplayName] == AggregateLog.OptionalText(row.displayName);
    assert fields[AggregateLog.PlatformAdmin] == AggregateLog.Flag(flag);
  }

  class PlatformAdminHandlers {
    var users: Users
    var published: seq<AggregateLog.Event>
    var writes: nat

    constructor (users: Users)
      ensures this.users == users && published == [] && writes == 0
    {
      this.users, published, writes := users, [], 0;
    }

    /** user.update({ platformAdmin }) on the aggregate loaded from the row. */
    static method Updated(id: string, row: User, flag: bool) returns (changed: User, events: seq<AggregateLog.Event>)
      requires row.platformAdmin != flag
      ensures changed == row.(platformAdmin := flag) && events == FlagEvents(row, flag)
    {
      var user := new AggregateLog.UserAggregate(id, row.externalId, row.email, row.displayName, row.platformAdmin);
      user.Update(None, None, Some(flag));
      ChangedFlag(row, flag, user.email, user.displayName, user.platformAdmin);
      changed := Registration.User(user.externalId, user.email, user.displayName, user.platformAdmin);
      events := user.events;
    }

    /** SetUserPlatformAdminCommandHandler: nothing at all for an equal flag. */
    method SetPlatformAdmin(id: string, flag: bool) returns (found: bool)
      modifies this
      ensures found == (id in old(users))
      ensures users == if found then old(users)[id := old(users)[id].(platformAdmin := flag)] else old(users)
      ensures published == old(published) +
                           if found && old(users)[id].platformAdmin != flag then FlagEvents(old(users)[id], flag) else []
      ensures writes == old(writes) + if found && old(users)[id].platformAdmin != flag then 1 else 0
    {
      if id !in users { return false; }
      found := true;
      if users[id].platformAdmin == flag {
        assert users[id].(platformAdmin := flag) == users[id];
        return;
      }
      var changed, events := Updated(id, users[id], flag);
      users := users[id := changed];
      writes := writes + 1;
      published := published + events;
    }

    /** LoginUserCommandHandler up to the claim: reconcile, write if asked to, and
        sign what is then stored. */
    method Login(raw: Option<string>, email: string, verified: bool) returns (claim: Option<bool>)
      requires UniqueEmails(users)
      modifies this
      ensures claim.Some? <==> verified && exists id :: id in old(users) && old(users)[id].email == email
      ensures claim.None? ==> users == old(users) && published == old(published) && writes == old(writes)
      ensures forall id :: id in old(users) && old(users)[id].email == email && verified ==>
                             && claim.value == Target(raw, email, old(users)[id].platformAdmin)
                             && users == old(users)[id := old(users)[id].(platformAdmin := claim.value)]
                             && (old(users)[id].platformAdmin == claim.value ==> published == old(published) && writes == old(writes))
                             && (old(users)[id].platformAdmin != claim.value ==>
                                   published == old(published) + FlagEvents(old(users)[id], claim.value) && writes == old(writes) + 1)
    {
      if !verified || !exists id :: id in users && users[id].email == email { return None; }
      var id :| id in users && users[id].email == email;
      var user := users[id];
      ReconcileMeaning(raw, user.email, user.platformAdmin);
      var reconciled := Reconcile(user.email, user.platformAdmin, ParsePlatformAdminEmails(raw));
      if reconciled.Some? {
        var _ := SetPlatformAdmin(id, reconciled.value);
      }
      claim := Some(if reconciled.Some? then reconciled.value else user.platformAdmin);
      assert user.platformAdmin == claim.value ==> user.(platformAdmin := claim.value) == user;
    }

    method NextLogin(ghost start: Users, logins: seq<Login>, k: nat) returns (claim: Option<bool>)
      requires k < |logins| && UniqueEmails(start)
      requires users == AfterLogins(start, logins[..k]) && SamePeople(start, users)
      modifies this
      ensures users == AfterLogins(start, logins[..k + 1]) && SamePeople(start, users)
      ensures ClaimIs(start, logins, k, claim)
    {
      ghost var before := users;
      UniqueStays(start, users);
      claim := Login(logins[k].raw, logins[k].email, true);
      OneMoreTable(before, users, logins[k], claim);
      OneMoreClaim(start, before, logins, k, claim);
      AfterOneMore(start, logins, k);
    }

    /** Logins one after the other: the table and every claim are what AfterLogins and
        ClaimAt say; an email that nobody has gets no claim. */
    method LoginAll(logins: seq<Login>) returns (claims: seq<Option<bool>>)
      requires UniqueEmails(users)
      modifies this
      ensures users == AfterLogins(old(users), logins)
      ensures |claims| == |logins| && forall k :: 0 <= k < |logins| ==> ClaimIs(old(users), logins, k, claims[k])
    {
      ghost var start := users;
      claims := [];
      var k := 0;
      NoLogins(users, logins);
      while k < |logins|
        invariant k <= |logins| && |claims| == k
        invariant users == AfterLogins(start, logins[..k]) && SamePeople(start, users)
        invariant forall j :: 0 <= j < k ==> ClaimIs(start, logins, j, claims[j])
      {
        var claim := NextLogin(start, logins, k);
        claims := claims + [claim];
        k := k + 1;
      }
      assert logins[..k] == logins;
    }
  }

  // ----- Sequences of logins

  /** A login that succeeds, and the variable as it was set then. */
  datatype Login = Login(raw: Option<string>, email: string)

  ghost function AfterLogin(users: Users, login: Login): Users {
    map u | u in users ::
      if users[u].email == login.email
      then users[u].(platformAdmin := Target(login.raw, login.email, users[u].platformAdmin)) else users[u]
  }

  ghost function AfterLogins(users: Users, logins: seq<Login>): Users {
    if logins == [] then users
    else AfterLogin(AfterLogins(users, logins[..|logins| - 1]), logins[|logins| - 1])
  }

  /** The variable at the user's last login that found it set. */
  function LastSet(logins: seq<Login>, email: string): Option<string> {
    if logins == [] then None
    else
      var last := logins[|logins| - 1];
      if last.email == email && last.raw.Some? then last.raw else LastSet(logins[..|logins| - 1], email)
  }

  /** AfterLogin is what the handler's login does. */
  lemma LoginIsAfterLogin(users: Users, raw: Option<string>, id: string)
    requires UniqueEmails(users) && id in users
    ensures AfterLogin(users, Login(raw, users[id].email))
         == users[id := users[id].(platformAdmin := Target(raw, users[id].email, users[id].platformAdmin))]
  {
  }

  /** After any logins a user's flag is what the variable said at the user's own last
      login that found it set; without one, it and everything else is as before. */
  lemma {:induction false} FlagsFollowTheVariable(users: Users, logins: seq<Login>, u: string)
    requires u in users
    ensures u in AfterLogins(users, logins)
    ensures var last := LastSet(logins, users[u].email);
            AfterLogins(users, logins)[u]
            == users[u].(platformAdmin := if last.Some? then Allowed(last.value, users[u].email) else users[u].platformAdmin)
    decreases |logins|
  {
    if logins != [] {
      FlagsFollowTheVariable(users, logins[..|logins| - 1], u);
    }
  }

  /** With the variable fixed: after any logins exactly the users on the list among those
      who logged in are admins, the others keep their flag, and every claim signed on the
      way says whether its user is on the list. */
  lemma {:induction false} FixedVariable(users: Users, logins: seq<Login>, raw: string, u: string)
    requires u in users && forall k :: 0 <= k < |logins| ==> logins[k].raw == Some(raw)
    ensures u in AfterLogins(users, logins)
    ensures AfterLogins(users, logins)[u].platformAdmin ==
            if exists k :: 0 <= k < |logins| && logins[k].email == users[u].email
            then Allowed(raw, users[u].email) else users[u].platformAdmin
    ensures forall k: nat :: k < |logins| && logins[k].email == users[u].email ==>
                               ClaimAt(users, logins, k, u) == Allowed(raw, users[u].email)
    decreases |logins|
  {
    FlagsFollowTheVariable(users, logins, u);
    LastSetFixed(logins, raw, users[u].email);
  }

  /** What the k-th of these logins signs for its user u. */
  ghost function ClaimAt(users: Users, logins: seq<Login>, k: nat, u: string): bool
    requires k < |logins| && u in users && users[u].email == logins[k].email
  {
    FlagsFollowTheVariable(users, logins[..k], u);
    Target(logins[k].raw, logins[k].email, AfterLogins(users, logins[..k])[u].platformAdmin)
  }

  /** Every claim of the sequence is the flag stored right after it, and is what the
      variable said at the user's last login, this one included, that found it set. */
  lemma ClaimsFollowTheVariable(users: Users, logins: seq<Login>, k: nat, u: string)
    requires k < |logins| && u in users && users[u].email == logins[k].email
    ensures u in AfterLogins(users, logins[..k + 1])
    ensures ClaimAt(users, logins, k, u) == AfterLogins(users, logins[..k + 1])[u].platformAdmin
    ensures var last := LastSet(logins[..k + 1], users[u].email);
            ClaimAt(users, logins, k, u) == if last.Some? then Allowed(last.value, users[u].email) else users[u].platformAdmin
  {
    assert logins[..k + 1][..k] == logins[..k];
    FlagsFollowTheVariable(users, logins[..k], u);
    FlagsFollowTheVariable(users, logins[..k + 1], u);
  }

  /** Only flags differ. */
  predicate SamePeople(a: Users, b: Users) {
    a.Keys == b.Keys && forall u :: u in a ==> b[u] == a[u].(platformAdmin := b[u].platformAdmin)
  }

  /** The k-th login of the sequence is answered with this claim. */
  ghost predicate ClaimIs(users: Users, logins: seq<Login>, k: nat, claim: Option<bool>)
    requires k < |logins|
  {
    && (forall u :: u in users && users[u].email == logins[k].email ==> claim == Some(ClaimAt(users, logins, k, u)))
    && ((forall u :: u in users ==> users[u].email != logins[k].email) ==> claim == None)
  }

  lemma UniqueStays(a: Users, b: Users)
    requires UniqueEmails(a) && SamePeople(a, b)
    ensures UniqueEmails(b)
  {
    forall u, v | u in b && v in b && b[u].email == b[v].email
      ensures u == v
    {
      assert a[u].email == a[v].email;
    }
  }

  /** The handler's login has the effect of AfterLogin on the table. */
  predicate Effect(before: Users, after: Users, login: Login, claim: Option<bool>) {
    && (claim.Some? <==> exists id :: id in before && before[id].email == login.email)
    && (claim.None? ==> after == before)
    && (claim.Some? ==> forall id :: id in before && before[id].email == login.email ==>
                                       after == before[id := before[id].(platformAdmin := claim.value)])
  }

  lemma NoLogins(users: Users, logins: seq<Login>)
    ensures AfterLogins(users, logins[..0]) == users && SamePeople(users, users)
  {
  }

  lemma AfterOneMore(users: Users, logins: seq<Login>, k: nat)
    requires k < |logins|
    ensures AfterLogins(users, logins[..k + 1]) == AfterLogin(AfterLogins(users, logins[..k]), logins[k])
  {
    assert logins[..k + 1][..k] == logins[..k];
  }

  lemma OneMoreTable(before: Users, after: Users, login: Login, claim: Option<bool>)
    requires UniqueEmails(before) && Effect(before, after, login, claim)
    requires forall id :: id in before && before[id].email == login.email ==>
                            claim.value == Target(login.raw, login.email, before[id].platformAdmin)
    ensures after == AfterLogin(before, login) && SamePeople(before, after)
  {
    if id :| id in before && before[id].email == login.email {
      LoginIsAfterLogin(before, login.raw, id);
      assert login == Login(login.raw, before[id].email);
    } else {
      assert AfterLogin(before, login) == before;
    }
  }

  lemma OneMoreClaim(start: Users, before: Users, logins: seq<Login>, k: nat, claim: Option<bool>)
    requires k < |logins| && SamePeople(start, before) && before == AfterLogins(start, logins[..k])
    requires claim.Some? <==> exists id :: id in before && before[id].email == logins[k].email
    requires forall id :: id in before && before[id].email == logins[k].email ==>
                            claim.value == Target(logins[k].raw, logins[k].email, before[id].platformAdmin)
    ensures ClaimIs(start, logins, k, claim)
  {
    forall u | u in start && start[u].email == logins[k].email
      ensures claim == Some(ClaimAt(start, logins, k, u))
    {
      assert u in before && before[u].email == logins[k].email;
    }
  }

  lemma {:induction false} LastSetFixed(logins: seq<Login>, raw: string, email: string)
    requires forall k :: 0 <= k < |logins| ==> logins[k].raw == Some(raw)
    ensures LastSet(logins, email) ==
            if exists k :: 0 <= k < |logins| && logins[k].email == email then Some(raw) else None
    decreases |logins|
  {
    if logins != [] {
      LastSetFixed(logins[..|logins| - 1], raw, email);
    }
  }

  /** With the variable unset no login changes any user. */
  lemma {:induction false} UnsetVariable(users: Users, logins: seq<Login>)
    requires forall k :: 0 <= k < |logins| ==> logins[k].raw == None
    ensures AfterLogins(users, logins) == users
    decreases |logins|
  {
    if logins != [] {
      UnsetVariable(users, logins[..|logins| - 1]);
    }
  }

  /** A repeated login finds the flag as it should be: the decision asks for no write. */
  lemma RepeatedLoginWritesNothing(users: Users, raw: Option<string>, id: string)
    requires UniqueEmails(users) && id in users
    ensures var after := AfterLogin(users, Login(raw, users[id].email));
            && Reconcile(after[id].email, after[id].platformAdmin, ParsePlatformAdminEmails(raw)) == None
            && AfterLogin(after, Login(raw, users[id].email)) == after
  {
    var after := AfterLogin(users, Login(raw, users[id].email));
    ReconcileMeaning(raw, after[id].email, after[id].platformAdmin);
  }
}
