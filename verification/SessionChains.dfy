/** The links of the committed table form disjoint finite lists, one per login. */
module SessionChains {
  import opened Options
  import opened SessionProtocol
  import opened SessionInvariant
  import opened SessionSafety

  /** Position in commit order. */
  function Age(s: State, i: Id): nat {
    if i in s.age then s.age[i] else 0
  }

  predicate IsRoot(s: State, i: Id) {
    i in s.rows && i in s.ids && s.ids[i].ByLogin?
  }

  /** The list that starts at row i: follow replaced_by_session_id to its end. */
  ghost function ChainFrom(s: State, i: Id): seq<Id>
    requires Inv(s) && i in s.rows
    decreases s.births - Age(s, i)
  {
    if s.rows[i].replacedBy.None? then [i]
    else LinkFacts(s, i); [i] + ChainFrom(s, s.rows[i].replacedBy.value)
  }

  /** What comes before row i, followed back to its login. */
  ghost function RootOf(s: State, i: Id): Id
    requires Inv(s) && i in s.rows
    decreases Age(s, i)
  {
    assert RowOk(s, i);
    if s.ids[i].ByLogin? then i else PredecessorFacts(s, i); RootOf(s, s.reqs[s.ids[i].r].Target())
  }

  /** A row that no login inserted has one predecessor: the row its rotation consumed. */
  lemma PredecessorFacts(s: State, i: Id)
    requires Inv(s) && i in s.rows && i in s.ids && s.ids[i].ByRefresh?
    ensures var r := s.ids[i].r;
            && r in s.reqs && s.reqs[r].sight.Some? && s.reqs[r].Target() in s.rows
            && s.rows[s.reqs[r].Target()].replacedBy == Some(i)
            && Age(s, s.reqs[r].Target()) < Age(s, i)
  {
    assert RowOk(s, i);
    assert ReqOk(s, s.ids[i].r);
  }

  /** A row starts a list exactly when a login inserted it. */
  lemma RootIffLogin(s: State, i: Id)
    requires Reachable(s) && i in s.rows && i in s.ids
    ensures s.ids[i].ByLogin? <==> forall p :: p in s.rows ==> s.rows[p].replacedBy != Some(i)
  {
    ReachableInv(s);
    forall p | p in s.rows && s.rows[p].replacedBy == Some(i) ensures s.ids[i].ByRefresh? { LinkFacts(s, p); }
    if s.ids[i].ByRefresh? { PredecessorFacts(s, i); }
  }

  /** The link is injective. */
  lemma LinkInjective(s: State, p: Id, q: Id)
    requires Reachable(s) && p in s.rows && q in s.rows
    requires s.rows[p].replacedBy.Some? && s.rows[p].replacedBy == s.rows[q].replacedBy
    ensures p == q
  {
    ReachableInv(s);
    LinkFacts(s, p);
    LinkFacts(s, q);
  }

  /** A list is linked row to row, strictly forward in commit order and so without
      repetition, within one user; all its rows but the last are revoked, and the
      last has no successor. */
  lemma {:induction false} ChainShape(s: State, i: Id)
    requires Inv(s) && i in s.rows
    ensures var c := ChainFrom(s, i);
            && c != [] && c[0] == i
            && (forall k :: 0 <= k < |c| ==> c[k] in s.rows && s.rows[c[k]].userId == s.rows[i].userId)
            && (forall k :: 0 <= k < |c| - 1 ==> s.rows[c[k]].replacedBy == Some(c[k + 1]) && s.rows[c[k]].IsRevoked())
            && (forall j, k :: 0 <= j < k < |c| ==> Age(s, c[j]) < Age(s, c[k]))
            && s.rows[c[|c| - 1]].replacedBy.None?
    decreases s.births - Age(s, i)
  {
    if s.rows[i].replacedBy.Some? {
      LinkFacts(s, i);
      ChainShape(s, s.rows[i].replacedBy.value);
    }
  }

  /** A list that holds a row holds that row's successor. */
  lemma {:induction false} ChainClosed(s: State, i: Id, p: Id)
    requires Inv(s) && i in s.rows && p in s.rows && p in ChainFrom(s, i) && s.rows[p].replacedBy.Some?
    ensures s.rows[p].replacedBy.value in ChainFrom(s, i)
  {
    ChainShape(s, i);
    var c := ChainFrom(s, i);
    var k :| 0 <= k < |c| && c[k] == p;
    assert k < |c| - 1 && c[k + 1] == s.rows[p].replacedBy.value;
  }

  lemma {:induction false} RootReaches(s: State, i: Id)
    requires Inv(s) && i in s.rows
    ensures var root := RootOf(s, i);
            IsRoot(s, root) && i in ChainFrom(s, root)
    decreases Age(s, i)
  {
    assert RowOk(s, i);
    if s.ids[i].ByRefresh? {
      PredecessorFacts(s, i);
      var p := s.reqs[s.ids[i].r].Target();
      RootReaches(s, p);
      ChainClosed(s, RootOf(s, p), p);
    }
  }

  lemma {:induction false} OnlyRootReaches(s: State, root: Id, i: Id)
    requires Inv(s) && IsRoot(s, root) && i in s.rows && i in ChainFrom(s, root)
    ensures RootOf(s, i) == root
    decreases Age(s, i)
  {
    assert RowOk(s, i);
    ChainShape(s, root);
    var c := ChainFrom(s, root);
    var k :| 0 <= k < |c| && c[k] == i;
    if s.ids[i].ByRefresh? {
      PredecessorFacts(s, i);
      var p := s.reqs[s.ids[i].r].Target();
      assert k > 0;
      LinkFacts(s, c[k - 1]);
      assert c[k - 1] == p;
      OnlyRootReaches(s, root, p);
    } else if k > 0 {
      LinkFacts(s, c[k - 1]);
      assert false;
    }
  }

  /** In every reachable table each row lies on the list of exactly one login. */
  lemma ListsPartitionRows(s: State, i: Id)
    requires Reachable(s) && i in s.rows
    ensures Inv(s)
    ensures exists root :: IsRoot(s, root) && i in ChainFrom(s, root)
    ensures forall a, b ::
              IsRoot(s, a) && IsRoot(s, b) && i in ChainFrom(s, a) && i in ChainFrom(s, b) ==> a == b
  {
    ReachableInv(s);
    RootReaches(s, i);
    forall a | IsRoot(s, a) && i in ChainFrom(s, a) ensures RootOf(s, i) == a {
      OnlyRootReaches(s, a, i);
    }
  }
}
