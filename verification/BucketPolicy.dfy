/** IAM policies of buckets as values: the order-insensitive comparison and the two edits
    of pkg/clients/bucketpolicy/bucketpolicy.go. */
module BucketPolicy {
  import opened Pointers
  import opened StableSort

  datatype Expr = Expr(description: string, expression: string, location: string, title: string)

  datatype BindingValue = BindingValue(role: string, members: seq<string>, condition: Option<Expr>)

  datatype PolicyValue = PolicyValue(
    bindings: seq<BindingValue>, version: int, etag: string, kind: string, resourceId: string)

  const POLICY_VERSION := 3

  // ---- comparison ----

  function RoleOf(b: BindingValue): string { b.role }

  predicate SameBinding(a: BindingValue, b: BindingValue) {
    a.role == b.role && a.condition == b.condition && Sort(Self, a.members) == Sort(Self, b.members)
  }

  predicate SameBindings(a: seq<BindingValue>, b: seq<BindingValue>) {
    |a| == |b| && forall i :: 0 <= i < |a| ==> SameBinding(a[i], b[i])
  }

  /** Every field but the version, with bindings sorted by role and members by name. */
  predicate ArePoliciesSame(p: PolicyValue, q: PolicyValue) {
    && p.etag == q.etag && p.kind == q.kind && p.resourceId == q.resourceId
    && SameBindings(Sort(RoleOf, p.bindings), Sort(RoleOf, q.bindings))
  }

  /** What the comparison sees of a binding. */
  datatype Summary = Summary(role: string, condition: Option<Expr>, members: multiset<string>)

  function Summarize(b: BindingValue): Summary {
    Summary(b.role, b.condition, multiset(b.members))
  }

  function SummaryRole(s: Summary): string { s.role }

  /** The bindings of one role, in order, as the comparison sees them. */
  function Group(bs: seq<BindingValue>, role: string): seq<Summary> {
    Having(SummaryRole, role, Map(Summarize, bs))
  }

  ghost predicate SameRoleGroups(a: seq<BindingValue>, b: seq<BindingValue>) {
    forall role :: Group(a, role) == Group(b, role)
  }

  lemma SameBindingIsSameSummary(a: BindingValue, b: BindingValue)
    ensures SameBinding(a, b) <==> Summarize(a) == Summarize(b)
  {
    StringsSortedAlike(a.members, b.members);
  }

  lemma SameBindingsAreSameSummaries(a: seq<BindingValue>, b: seq<BindingValue>)
    ensures SameBindings(a, b) <==> Map(Summarize, a) == Map(Summarize, b)
  {
    MapAt(Summarize, a);
    MapAt(Summarize, b);
    forall i | 0 <= i < |a| && i < |b|
      ensures SameBinding(a[i], b[i]) <==> Map(Summarize, a)[i] == Map(Summarize, b)[i]
    {
      SameBindingIsSameSummary(a[i], b[i]);
    }
  }

  /** The comparison on every pair of policies, repeated roles included: equal metadata
      and, role by role, the same conditions with the same members in the same order of
      bindings. The order between roles and the order of members do not matter. */
  lemma SamenessByRole(p: PolicyValue, q: PolicyValue)
    ensures ArePoliciesSame(p, q) <==>
            p.etag == q.etag && p.kind == q.kind && p.resourceId == q.resourceId &&
            SameRoleGroups(p.bindings, q.bindings)
  {
    SameBindingsAreSameSummaries(Sort(RoleOf, p.bindings), Sort(RoleOf, q.bindings));
    MapSort(Summarize, RoleOf, SummaryRole, p.bindings);
    MapSort(Summarize, RoleOf, SummaryRole, q.bindings);
    SortedAlike(SummaryRole, Map(Summarize, p.bindings), Map(Summarize, q.bindings));
    if SameGroups(SummaryRole, Map(Summarize, p.bindings), Map(Summarize, q.bindings)) {
      forall role
        ensures Group(p.bindings, role) == Group(q.bindings, role)
      {
        assert Having(SummaryRole, role, Map(Summarize, p.bindings)) ==
               Having(SummaryRole, role, Map(Summarize, q.bindings));
      }
    }
    if SameRoleGroups(p.bindings, q.bindings) {
      forall role
        ensures Having(SummaryRole, role, Map(Summarize, p.bindings)) ==
                Having(SummaryRole, role, Map(Summarize, q.bindings))
      {
        assert Group(p.bindings, role) == Group(q.bindings, role);
      }
    }
  }

  lemma SamenessIsEquivalence(p: PolicyValue, q: PolicyValue, r: PolicyValue)
    ensures ArePoliciesSame(p, p)
    ensures ArePoliciesSame(p, q) ==> ArePoliciesSame(q, p)
    ensures ArePoliciesSame(p, q) && ArePoliciesSame(q, r) ==> ArePoliciesSame(p, r)
  {
  }

  // ---- policies without repeated roles: a map from roles ----

  ghost predicate DistinctRoles(bs: seq<BindingValue>) {
    forall i, j :: 0 <= i < j < |bs| ==> bs[i].role != bs[j].role
  }

  function RoleMap(bs: seq<BindingValue>): map<string, Summary> {
    if bs == [] then map[] else RoleMap(bs[1..])[bs[0].role := Summarize(bs[0])]
  }

  lemma {:induction false} GroupFromMap(bs: seq<BindingValue>, role: string)
    requires DistinctRoles(bs)
    ensures Group(bs, role) == if role in RoleMap(bs) then [RoleMap(bs)[role]] else []
    ensures role in RoleMap(bs) <==> exists i :: 0 <= i < |bs| && bs[i].role == role
  {
    if bs != [] {
      assert forall i :: 0 <= i < |bs[1..]| ==> bs[1..][i] == bs[i + 1];
      GroupFromMap(bs[1..], role);
      assert Map(Summarize, bs)[1..] == Map(Summarize, bs[1..]);
      if bs[0].role == role {
        assert bs[0].role == role;
      } else if exists i :: 0 <= i < |bs| && bs[i].role == role {
        var i :| 0 <= i < |bs| && bs[i].role == role;
        assert bs[1..][i - 1].role == role;
      }
    }
  }

  lemma SameGroupsSameMap(a: seq<BindingValue>, b: seq<BindingValue>, role: string)
    requires DistinctRoles(a) && DistinctRoles(b)
    ensures Group(a, role) == Group(b, role) <==>
            (role in RoleMap(a) <==> role in RoleMap(b)) &&
            (role in RoleMap(a) && role in RoleMap(b) ==> RoleMap(a)[role] == RoleMap(b)[role])
  {
    GroupFromMap(a, role);
    GroupFromMap(b, role);
  }

  /** Without repeated roles, sameness is equality of the maps from role to condition and
      member multiset. */
  lemma SamenessByMap(p: PolicyValue, q: PolicyValue)
    requires DistinctRoles(p.bindings) && DistinctRoles(q.bindings)
    ensures ArePoliciesSame(p, q) <==>
            p.etag == q.etag && p.kind == q.kind && p.resourceId == q.resourceId &&
            RoleMap(p.bindings) == RoleMap(q.bindings)
  {
    SamenessByRole(p, q);
    SameGroupsSameMaps(p.bindings, q.bindings);
  }

  lemma SameGroupsSameMaps(a: seq<BindingValue>, b: seq<BindingValue>)
    requires DistinctRoles(a) && DistinctRoles(b)
    ensures SameRoleGroups(a, b) <==> RoleMap(a) == RoleMap(b)
  {
    var f, g := RoleMap(a), RoleMap(b);
    forall role
      ensures Group(a, role) == Group(b, role) <==>
              (role in f <==> role in g) && (role in f && role in g ==> f[role] == g[role])
    {
      SameGroupsSameMap(a, b, role);
    }
    if SameRoleGroups(a, b) {
      forall role
        ensures (role in f <==> role in g) && (role in f && role in g ==> f[role] == g[role])
      {
        assert Group(a, role) == Group(b, role);
      }
      assert f == g;
    }
  }

  // ---- edits ----

  function AddMember(ms: seq<string>, m: string): seq<string> {
    if m in ms then ms else ms + [m]
  }

  /** Without the first occurrence of `m`. */
  function RemoveMember(ms: seq<string>, m: string): seq<string> {
    if ms == [] then [] else if ms[0] == m then ms[1..] else [ms[0]] + RemoveMember(ms[1..], m)
  }

  function WithMember(b: BindingValue, m: string): BindingValue { b.(members := AddMember(b.members, m)) }

  function WithoutMember(b: BindingValue, m: string): BindingValue { b.(members := RemoveMember(b.members, m)) }

  function BindIn(bs: seq<BindingValue>, role: string, m: string): seq<BindingValue> {
    if bs == [] then [BindingValue(role, [m], None)]
    else if bs[0].role == role then [WithMember(bs[0], m)] + bs[1..]
    else [bs[0]] + BindIn(bs[1..], role, m)
  }

  function UnbindIn(bs: seq<BindingValue>, role: string, m: string): seq<BindingValue> {
    if bs == [] then []
    else if bs[0].role == role then [WithoutMember(bs[0], m)] + bs[1..]
    else [bs[0]] + UnbindIn(bs[1..], role, m)
  }

  /** Whether the first binding of the role has the member: what both edits look at. */
  predicate BoundFirst(bs: seq<BindingValue>, role: string, m: string) {
    bs != [] && if bs[0].role == role then m in bs[0].members else BoundFirst(bs[1..], role, m)
  }

  datatype Edit = Bind(role: string, member: string) | Unbind(role: string, member: string)

  function Apply(e: Edit, p: PolicyValue): PolicyValue {
    match e
    case Bind(r, m) => p.(bindings := BindIn(p.bindings, r, m), version := POLICY_VERSION)
    case Unbind(r, m) => p.(bindings := UnbindIn(p.bindings, r, m))
  }

  /** What the edit reports: whether it changed the policy. */
  predicate Changes(e: Edit, p: PolicyValue) {
    match e
    case Bind(r, m) => !BoundFirst(p.bindings, r, m)
    case Unbind(r, m) => BoundFirst(p.bindings, r, m)
  }

  // ---- edits role by role ----

  function EditMembers(e: Edit, ms: multiset<string>): multiset<string> {
    match e
    case Bind(_, m) => if m in ms then ms else ms + multiset{m}
    case Unbind(_, m) => ms - multiset{m}
  }

  /** Only the first binding of a role is edited; binding an absent role makes one. */
  function EditGroup(e: Edit, g: seq<Summary>): seq<Summary> {
    if g != [] then [g[0].(members := EditMembers(e, g[0].members))] + g[1..]
    else if e.Bind? then [Summary(e.role, None, multiset{e.member})]
    else []
  }

  lemma {:induction false} RemoveMemberIsSubtraction(ms: seq<string>, m: string)
    ensures multiset(RemoveMember(ms, m)) == multiset(ms) - multiset{m}
  {
    if ms != [] {
      assert ms == [ms[0]] + ms[1..];
      if ms[0] != m {
        RemoveMemberIsSubtraction(ms[1..], m);
      }
    }
  }

  lemma GroupOfCons(b: BindingValue, bs: seq<BindingValue>, role: string)
    ensures Group([b] + bs, role) == (if b.role == role then [Summarize(b)] else []) + Group(bs, role)
  {
    assert ([b] + bs)[1..] == bs;
    assert Map(Summarize, [b] + bs)[1..] == Map(Summarize, bs);
  }

  lemma {:induction false} BindByRole(bs: seq<BindingValue>, r: string, m: string, role: string)
    ensures Group(BindIn(bs, r, m), role) ==
            if role == r then EditGroup(Bind(r, m), Group(bs, role)) else Group(bs, role)
  {
    if bs == [] {
      assert BindIn(bs, r, m) == [BindingValue(r, [m], None)] + [];
      GroupOfCons(BindingValue(r, [m], None), [], role);
    } else {
      assert bs == [bs[0]] + bs[1..];
      GroupOfCons(bs[0], bs[1..], role);
      if bs[0].role == r {
        var b := WithMember(bs[0], m);
        GroupOfCons(b, bs[1..], role);
        if role == r {
          var g := Group(bs, role);
          assert g[0] == Summarize(bs[0]) && g[1..] == Group(bs[1..], role);
        }
      } else {
        BindByRole(bs[1..], r, m, role);
        GroupOfCons(bs[0], BindIn(bs[1..], r, m), role);
      }
    }
  }

  lemma {:induction false} UnbindByRole(bs: seq<BindingValue>, r: string, m: string, role: string)
    ensures Group(UnbindIn(bs, r, m), role) ==
            if role == r then EditGroup(Unbind(r, m), Group(bs, role)) else Group(bs, role)
  {
    if bs != [] {
      assert bs == [bs[0]] + bs[1..];
      GroupOfCons(bs[0], bs[1..], role);
      if bs[0].role == r {
        RemoveMemberIsSubtraction(bs[0].members, m);
        var b := WithoutMember(bs[0], m);
        GroupOfCons(b, bs[1..], role);
        if role == r {
          var g := Group(bs, role);
          assert g[0] == Summarize(bs[0]) && g[1..] == Group(bs[1..], role);
        }
      } else {
        UnbindByRole(bs[1..], r, m, role);
        GroupOfCons(bs[0], UnbindIn(bs[1..], r, m), role);
      }
    }
  }

  lemma EditByRole(e: Edit, p: PolicyValue, role: string)
    ensures Group(Apply(e, p).bindings, role) ==
            if role == e.role then EditGroup(e, Group(p.bindings, role)) else Group(p.bindings, role)
  {
    match e
    case Bind(r, m) => BindByRole(p.bindings, r, m, role);
    case Unbind(r, m) => UnbindByRole(p.bindings, r, m, role);
  }

  lemma MemberEditsCommute(d: Edit, e: Edit, ms: multiset<string>)
    requires d.member != e.member
    ensures EditMembers(d, EditMembers(e, ms)) == EditMembers(e, EditMembers(d, ms))
  {
    EditedCounts(d, EditMembers(e, ms));
    EditedCounts(e, EditMembers(d, ms));
    EditedCounts(d, ms);
    EditedCounts(e, ms);
  }

  /** How an edit changes the counts of the members. */
  lemma EditedCounts(e: Edit, ms: multiset<string>)
    ensures forall n :: n != e.member ==> EditMembers(e, ms)[n] == ms[n]
    ensures var count := ms[e.member];
            EditMembers(e, ms)[e.member] ==
            if e.Bind? then (if count == 0 then 1 else count) else if count == 0 then 0 else count - 1
  {
  }

  lemma GroupEditsCommute(d: Edit, e: Edit, g: seq<Summary>)
    requires d.role == e.role && d.member != e.member
    ensures EditGroup(d, EditGroup(e, g)) == EditGroup(e, EditGroup(d, g))
  {
    if g != [] {
      MemberEditsCommute(d, e, g[0].members);
    } else {
      assert multiset{d.member} + multiset{e.member} == multiset{e.member} + multiset{d.member};
      assert multiset{d.member} - multiset{e.member} == multiset{d.member};
      assert multiset{e.member} - multiset{d.member} == multiset{e.member};
    }
  }

  /** Two edits of different grants commute up to sameness, on every policy. */
  lemma EditsCommute(d: Edit, e: Edit, p: PolicyValue)
    requires (d.role, d.member) != (e.role, e.member)
    ensures ArePoliciesSame(Apply(d, Apply(e, p)), Apply(e, Apply(d, p)))
  {
    var de, ed := Apply(d, Apply(e, p)), Apply(e, Apply(d, p));
    forall role
      ensures Group(de.bindings, role) == Group(ed.bindings, role)
    {
      EditByRole(e, p, role);
      EditByRole(d, Apply(e, p), role);
      EditByRole(d, p, role);
      EditByRole(e, Apply(d, p), role);
      if d.role == e.role {
        GroupEditsCommute(d, e, Group(p.bindings, role));
      }
    }
    SamenessByRole(de, ed);
  }

  lemma {:induction false} BoundFirstByRole(bs: seq<BindingValue>, role: string, m: string)
    ensures BoundFirst(bs, role, m) <==> Group(bs, role) != [] && m in Group(bs, role)[0].members
  {
    if bs != [] {
      assert bs == [bs[0]] + bs[1..];
      GroupOfCons(bs[0], bs[1..], role);
      BoundFirstByRole(bs[1..], role, m);
    }
  }

  lemma BindThenUnbindGroup(role: string, m: string, g: seq<Summary>)
    ensures EditGroup(Unbind(role, m), EditGroup(Bind(role, m), g)) == g <==> g != [] && m !in g[0].members
  {
    if g != [] {
      var ms := g[0].members;
      assert g == [g[0]] + g[1..];
      assert m !in ms ==> ms + multiset{m} - multiset{m} == ms;
      assert m in ms ==> (ms - multiset{m})[m] != ms[m];
    }
  }

  /** Unbinding undoes binding exactly when the role had a binding without the member:
      a role that had none keeps an empty binding. */
  lemma UnbindUndoesBindIff(role: string, m: string, p: PolicyValue)
    ensures ArePoliciesSame(Apply(Unbind(role, m), Apply(Bind(role, m), p)), p) <==>
            Group(p.bindings, role) != [] && !BoundFirst(p.bindings, role, m)
  {
    var q := Apply(Bind(role, m), p);
    var u := Apply(Unbind(role, m), q);
    SamenessByRole(u, p);
    BoundFirstByRole(p.bindings, role, m);
    BindThenUnbindGroup(role, m, Group(p.bindings, role));
    forall r
      ensures r != role ==> Group(u.bindings, r) == Group(p.bindings, r)
    {
      EditByRole(Bind(role, m), p, r);
      EditByRole(Unbind(role, m), q, r);
    }
    EditByRole(Bind(role, m), p, role);
    EditByRole(Unbind(role, m), q, role);
  }

  // ---- the set of grants ----

  function GrantSet(bs: seq<BindingValue>): set<(string, string)> {
    if bs == [] then {} else (set m | m in bs[0].members :: (bs[0].role, m)) + GrantSet(bs[1..])
  }

  function Count(ms: seq<string>, m: string): nat { multiset(ms)[m] }

  /** How often the member is listed under the role, over all bindings. */
  function Occurrences(bs: seq<BindingValue>, role: string, m: string): nat {
    if bs == [] then 0
    else (if bs[0].role == role then Count(bs[0].members, m) else 0) + Occurrences(bs[1..], role, m)
  }

  lemma {:induction false} GrantedIffListed(bs: seq<BindingValue>, role: string, m: string)
    ensures (role, m) in GrantSet(bs) <==> Occurrences(bs, role, m) > 0
  {
    if bs != [] {
      GrantedIffListed(bs[1..], role, m);
    }
  }

  lemma {:induction false} BindLists(bs: seq<BindingValue>, r: string, m: string, role: string, n: string)
    ensures Occurrences(BindIn(bs, r, m), role, n) ==
            Occurrences(bs, role, n) + if role == r && n == m && !BoundFirst(bs, r, m) then 1 else 0
  {
    if bs != [] && bs[0].role != r {
      BindLists(bs[1..], r, m, role, n);
    }
  }

  lemma {:induction false} UnbindUnlists(bs: seq<BindingValue>, r: string, m: string, role: string, n: string)
    ensures Occurrences(UnbindIn(bs, r, m), role, n) ==
            Occurrences(bs, role, n) - if role == r && n == m && BoundFirst(bs, r, m) then 1 else 0
  {
    if bs != [] {
      if bs[0].role == r {
        RemoveMemberIsSubtraction(bs[0].members, m);
      } else {
        UnbindUnlists(bs[1..], r, m, role, n);
      }
    }
  }

  /** Binding grants exactly its pair, on every policy. */
  lemma BindGrants(bs: seq<BindingValue>, r: string, m: string)
    ensures GrantSet(BindIn(bs, r, m)) == GrantSet(bs) + {(r, m)}
  {
    forall role, n
      ensures (role, n) in GrantSet(BindIn(bs, r, m)) <==> (role, n) in GrantSet(bs) || (role, n) == (r, m)
    {
      BindLists(bs, r, m, role, n);
      GrantedIffListed(bs, role, n);
      GrantedIffListed(BindIn(bs, r, m), role, n);
      if BoundFirst(bs, r, m) { BoundFirstIsListed(bs, r, m); }
    }
  }

  lemma {:induction false} BoundFirstIsListed(bs: seq<BindingValue>, r: string, m: string)
    requires BoundFirst(bs, r, m)
    ensures Occurrences(bs, r, m) > 0
  {
    if bs[0].role != r { BoundFirstIsListed(bs[1..], r, m); }
  }

  /** Unbinding takes away no other grant, and takes its own away exactly when no listing
      of it remains: at most one listing, and that in the role's first binding. */
  lemma UnbindRevokesIff(bs: seq<BindingValue>, r: string, m: string)
    ensures forall g :: g != (r, m) ==> (g in GrantSet(UnbindIn(bs, r, m)) <==> g in GrantSet(bs))
    ensures (r, m) !in GrantSet(UnbindIn(bs, r, m)) <==>
            Occurrences(bs, r, m) == if BoundFirst(bs, r, m) then 1 else 0
  {
    forall role, n
      ensures (role, n) in GrantSet(UnbindIn(bs, r, m)) <==> Occurrences(UnbindIn(bs, r, m), role, n) > 0
      ensures (role, n) != (r, m) ==> ((role, n) in GrantSet(UnbindIn(bs, r, m)) <==> (role, n) in GrantSet(bs))
    {
      UnbindUnlists(bs, r, m, role, n);
      GrantedIffListed(bs, role, n);
      GrantedIffListed(UnbindIn(bs, r, m), role, n);
    }
    UnbindUnlists(bs, r, m, r, m);
    if BoundFirst(bs, r, m) { BoundFirstIsListed(bs, r, m); }
  }

  /** On a policy that lists a grant twice, unbinding it leaves it granted. */
  lemma UnbindMayLeaveGrant()
    ensures var bs := [BindingValue("r", ["m", "m"], None)];
            ("r", "m") in GrantSet(UnbindIn(bs, "r", "m"))
  {
    var bs := [BindingValue("r", ["m", "m"], None)];
    UnbindRevokesIff(bs, "r", "m");
    assert Occurrences(bs, "r", "m") == 2;
  }

  // ---- grants under a condition ----

  /** The grants made under condition `c`; `None` is an unconditional grant. */
  function GrantsUnder(bs: seq<BindingValue>, c: Option<Expr>): set<(string, string)> {
    if bs == [] then {}
    else (if bs[0].condition == c then set m | m in bs[0].members :: (bs[0].role, m) else {}) + GrantsUnder(bs[1..], c)
  }

  /** The condition of the role's first binding; a role without one is bound unconditionally. */
  function FirstCondition(bs: seq<BindingValue>, role: string): Option<Expr> {
    if bs == [] then None else if bs[0].role == role then bs[0].condition else FirstCondition(bs[1..], role)
  }

  lemma {:induction false} GrantsUnderSomeCondition(bs: seq<BindingValue>, g: (string, string))
    ensures g in GrantSet(bs) <==> exists c :: g in GrantsUnder(bs, c)
  {
    if bs != [] {
      GrantsUnderSomeCondition(bs[1..], g);
      var first := set m | m in bs[0].members :: (bs[0].role, m);
      assert GrantSet(bs) == first + GrantSet(bs[1..]);
      if g in first {
        assert first <= GrantsUnder(bs, bs[0].condition);
        assert g in GrantsUnder(bs, bs[0].condition);
      } else if g in GrantSet(bs[1..]) {
        var c :| g in GrantsUnder(bs[1..], c);
        assert g in GrantsUnder(bs, c);
      } else {
        forall c
          ensures g !in GrantsUnder(bs, c)
        {
          assert g !in GrantsUnder(bs[1..], c);
        }
      }
    }
  }

  /** Binding adds its grant under the condition of the role's first binding and changes
      nothing under any other. */
  lemma {:induction false} BindGrantsUnder(bs: seq<BindingValue>, r: string, m: string, c: Option<Expr>)
    ensures GrantsUnder(BindIn(bs, r, m), c) ==
            GrantsUnder(bs, c) + if FirstCondition(bs, r) == c then {(r, m)} else {}
  {
    if bs == [] {
      var b := BindingValue(r, [m], None);
      assert GrantsUnder([b], c) == (if c == None then set n | n in b.members :: (r, n) else {}) + GrantsUnder([], c);
    } else if bs[0].role == r {
      var b := WithMember(bs[0], m);
      assert BindIn(bs, r, m)[1..] == bs[1..] && BindIn(bs, r, m)[0] == b;
      assert (set n | n in b.members :: (r, n)) == (set n | n in bs[0].members :: (r, n)) + {(r, m)};
    } else {
      assert BindIn(bs, r, m)[1..] == BindIn(bs[1..], r, m) && BindIn(bs, r, m)[0] == bs[0];
      BindGrantsUnder(bs[1..], r, m, c);
    }
  }

  /** So a bind grants unconditionally exactly when the role's first binding has no
      condition, the role is not bound at all, or the grant was unconditional already. */
  lemma BindGrantsUnconditionallyIff(bs: seq<BindingValue>, r: string, m: string)
    ensures (r, m) in GrantsUnder(BindIn(bs, r, m), None) <==>
            FirstCondition(bs, r) == None || (r, m) in GrantsUnder(bs, None)
  {
    BindGrantsUnder(bs, r, m, None);
  }

  /** Under a conditional first binding the member gets no unconditional grant, although the
      edit reports a change. */
  lemma BindMayGrantConditionally(e: Expr)
    ensures var p := PolicyValue([BindingValue("r", [], Some(e))], 3, "", "", "");
            Changes(Bind("r", "m"), p) &&
            ("r", "m") !in GrantsUnder(Apply(Bind("r", "m"), p).bindings, None)
  {
    var bs := [BindingValue("r", [], Some(e))];
    BindGrantsUnconditionallyIff(bs, "r", "m");
  }

  // ---- well-shaped policies refine a set ----

  ghost predicate WellShaped(bs: seq<BindingValue>) {
    DistinctRoles(bs) && forall i :: 0 <= i < |bs| ==> forall m :: Count(bs[i].members, m) <= 1
  }

  lemma {:induction false} UnlistedRole(bs: seq<BindingValue>, role: string, m: string)
    requires forall i :: 0 <= i < |bs| ==> bs[i].role != role
    ensures Occurrences(bs, role, m) == 0
  {
    if bs != [] { UnlistedRole(bs[1..], role, m); }
  }

  lemma {:induction false} WellShapedListsOnce(bs: seq<BindingValue>, role: string, m: string)
    requires WellShaped(bs)
    ensures Occurrences(bs, role, m) == if BoundFirst(bs, role, m) then 1 else 0
  {
    if bs != [] {
      assert forall i :: 0 <= i < |bs[1..]| ==> bs[1..][i] == bs[i + 1];
      if bs[0].role == role {
        UnlistedRole(bs[1..], role, m);
        assert Count(bs[0].members, m) <= 1;
      } else {
        WellShapedListsOnce(bs[1..], role, m);
      }
    }
  }

  function Roles(bs: seq<BindingValue>): set<string> {
    set i | 0 <= i < |bs| :: bs[i].role
  }

  lemma ConsWellShaped(b: BindingValue, bs: seq<BindingValue>)
    ensures WellShaped([b] + bs) <==> WellShaped(bs) && b.role !in Roles(bs) && forall m :: Count(b.members, m) <= 1
    ensures Roles([b] + bs) == {b.role} + Roles(bs)
  {
    var c := [b] + bs;
    assert c[0] == b && forall i :: 0 <= i < |bs| ==> c[i + 1] == bs[i];
    if WellShaped(c) {
      forall i, j | 0 <= i < j < |bs| ensures bs[i].role != bs[j].role {
        assert c[i + 1].role != c[j + 1].role;
      }
      forall i | 0 <= i < |bs| ensures bs[i].role != b.role && forall m :: Count(bs[i].members, m) <= 1 {
        assert c[0].role != c[i + 1].role;
      }
    }
    forall r | r in Roles(bs) ensures r in Roles(c) {
      var i :| 0 <= i < |bs| && bs[i].role == r;
      assert c[i + 1].role == r;
    }
  }

  lemma AddMemberCounts(ms: seq<string>, m: string, n: string)
    ensures Count(AddMember(ms, m), n) == Count(ms, n) + if n == m && m !in ms then 1 else 0
  {
  }

  lemma {:induction false} BindKeepsShape(bs: seq<BindingValue>, r: string, m: string)
    requires WellShaped(bs)
    ensures WellShaped(BindIn(bs, r, m)) && Roles(BindIn(bs, r, m)) == Roles(bs) + {r}
  {
    if bs == [] {
      assert BindIn(bs, r, m) == [BindingValue(r, [m], None)] + [];
      ConsWellShaped(BindingValue(r, [m], None), []);
    } else {
      assert bs == [bs[0]] + bs[1..];
      ConsWellShaped(bs[0], bs[1..]);
      if bs[0].role == r {
        forall n { AddMemberCounts(bs[0].members, m, n); }
        ConsWellShaped(WithMember(bs[0], m), bs[1..]);
      } else {
        BindKeepsShape(bs[1..], r, m);
        ConsWellShaped(bs[0], BindIn(bs[1..], r, m));
      }
    }
  }

  lemma {:induction false} UnbindKeepsShape(bs: seq<BindingValue>, r: string, m: string)
    requires WellShaped(bs)
    ensures WellShaped(UnbindIn(bs, r, m)) && Roles(UnbindIn(bs, r, m)) == Roles(bs)
  {
    if bs != [] {
      assert bs == [bs[0]] + bs[1..];
      ConsWellShaped(bs[0], bs[1..]);
      if bs[0].role == r {
        var b := WithoutMember(bs[0], m);
        forall n
          ensures Count(b.members, n) <= 1
        {
          RemoveMemberIsSubtraction(bs[0].members, m);
          assert Count(bs[0].members, n) <= 1;
        }
        ConsWellShaped(b, bs[1..]);
      } else {
        UnbindKeepsShape(bs[1..], r, m);
        ConsWellShaped(bs[0], UnbindIn(bs[1..], r, m));
      }
    }
  }

  function EditSet(e: Edit, grants: set<(string, string)>): set<(string, string)> {
    if e.Bind? then grants + {(e.role, e.member)} else grants - {(e.role, e.member)}
  }

  lemma EditRefinesSet(e: Edit, p: PolicyValue)
    requires WellShaped(p.bindings)
    ensures WellShaped(Apply(e, p).bindings)
    ensures GrantSet(Apply(e, p).bindings) == EditSet(e, GrantSet(p.bindings))
    ensures Changes(e, p) <==> EditSet(e, GrantSet(p.bindings)) != GrantSet(p.bindings)
  {
    WellShapedListsOnce(p.bindings, e.role, e.member);
    GrantedIffListed(p.bindings, e.role, e.member);
    match e
    case Bind(r, m) =>
      BindKeepsShape(p.bindings, r, m);
      BindGrants(p.bindings, r, m);
    case Unbind(r, m) =>
      UnbindKeepsShape(p.bindings, r, m);
      UnbindRevokesIff(p.bindings, r, m);
  }

  // ---- sequences of edits ----

  function ApplyAll(es: seq<Edit>, p: PolicyValue): PolicyValue
    decreases |es|
  {
    if es == [] then p else ApplyAll(es[1..], Apply(es[0], p))
  }

  function EditSetAll(es: seq<Edit>, grants: set<(string, string)>): set<(string, string)>
    decreases |es|
  {
    if es == [] then grants else EditSetAll(es[1..], EditSet(es[0], grants))
  }

  /** Every report says exactly whether the set of grants changed at that edit. */
  predicate ReportsExactly(es: seq<Edit>, p: PolicyValue)
    decreases |es|
  {
    es == [] ||
    ((Changes(es[0], p) <==> EditSet(es[0], GrantSet(p.bindings)) != GrantSet(p.bindings)) &&
     ReportsExactly(es[1..], Apply(es[0], p)))
  }

  /** From any policy with distinct roles and no repeated members, every sequence of edits
      keeps that shape, refines the same sequence of set insertions and removals, and
      reports exactly the changes. */
  lemma {:induction false} EditsRefineSet(es: seq<Edit>, p: PolicyValue)
    requires WellShaped(p.bindings)
    ensures WellShaped(ApplyAll(es, p).bindings)
    ensures GrantSet(ApplyAll(es, p).bindings) == EditSetAll(es, GrantSet(p.bindings))
    ensures ReportsExactly(es, p)
    decreases |es|
  {
    if es != [] {
      EditRefinesSet(es[0], p);
      EditsRefineSet(es[1..], Apply(es[0], p));
    }
  }

  // ---- policies generated from a spec ----

  datatype ExprSpec = ExprSpec(
    description: Option<string>, expression: string, location: Option<string>, title: Option<string>)

  datatype BindingSpec = BindingSpec(role: string, members: seq<string>, condition: Option<ExprSpec>)

  function ExprFrom(c: Option<ExprSpec>): Option<Expr> {
    match c
    case None => None
    case Some(e) => Some(Expr(StringValue(e.description), e.expression, StringValue(e.location), StringValue(e.title)))
  }

  function BindingFrom(b: BindingSpec): BindingValue {
    BindingValue(b.role, b.members, ExprFrom(b.condition))
  }

  /** The policy generated over an existing one: its bindings replaced, its etag kept. */
  function Generated(spec: seq<BindingSpec>, p: PolicyValue): PolicyValue {
    p.(bindings := Map(BindingFrom, spec), version := POLICY_VERSION)
  }

  predicate UpToDate(spec: seq<BindingSpec>, observed: PolicyValue) {
    ArePoliciesSame(Generated(spec, observed), observed)
  }

  /** Only the bindings, role by role, decide whether a policy is up to date, and setting
      the generated policy makes it so. */
  lemma UpToDateByRole(spec: seq<BindingSpec>, observed: PolicyValue)
    ensures UpToDate(spec, observed) <==> SameRoleGroups(Map(BindingFrom, spec), observed.bindings)
    ensures UpToDate(spec, Generated(spec, observed))
  {
    SamenessByRole(Generated(spec, observed), observed);
    SamenessIsEquivalence(Generated(spec, observed), observed, observed);
  }

  /** A condition is the spec's, unset texts read as empty. */
  predicate ConditionAsked(spec: Option<ExprSpec>, c: Option<Expr>) {
    && (c.Some? <==> spec.Some?)
    && (c.Some? ==>
          c.value.description == StringValue(spec.value.description) && c.value.expression == spec.value.expression &&
          c.value.location == StringValue(spec.value.location) && c.value.title == StringValue(spec.value.title))
  }

  /** The generated policy has one binding for each in the spec, in order, with its role, its
      members and its condition; everything else of the policy but the version is kept. */
  lemma GeneratedBindings(spec: seq<BindingSpec>, p: PolicyValue)
    ensures var g := Generated(spec, p);
            && |g.bindings| == |spec| && g.version == 3
            && g.etag == p.etag && g.kind == p.kind && g.resourceId == p.resourceId
            && forall i :: 0 <= i < |spec| ==>
                 g.bindings[i].role == spec[i].role && g.bindings[i].members == spec[i].members &&
                 ConditionAsked(spec[i].condition, g.bindings[i].condition)
  {
    MapAt(BindingFrom, spec);
  }

  function OfRole(spec: seq<BindingSpec>, role: string): seq<BindingSpec> {
    if spec == [] then [] else (if spec[0].role == role then [spec[0]] else []) + OfRole(spec[1..], role)
  }

  /** What the comparison sees of a binding is what the spec asks for. */
  predicate BindingAsked(b: BindingSpec, s: Summary) {
    s.role == b.role && s.members == multiset(b.members) && ConditionAsked(b.condition, s.condition)
  }

  predicate GroupAsked(bs: seq<BindingSpec>, g: seq<Summary>) {
    |bs| == |g| && forall i :: 0 <= i < |bs| ==> BindingAsked(bs[i], g[i])
  }

  lemma AskedIsSummary(b: BindingSpec, s: Summary)
    ensures BindingAsked(b, s) <==> s == Summarize(BindingFrom(b))
  {
  }

  lemma {:induction false} GroupAskedIsGenerated(spec: seq<BindingSpec>, role: string, g: seq<Summary>)
    ensures GroupAsked(OfRole(spec, role), g) <==> g == Group(Map(BindingFrom, spec), role)
  {
    if spec != [] {
      var bs := Map(BindingFrom, spec);
      assert bs == [BindingFrom(spec[0])] + Map(BindingFrom, spec[1..]);
      GroupOfCons(BindingFrom(spec[0]), Map(BindingFrom, spec[1..]), role);
      if spec[0].role == role {
        var rest := OfRole(spec[1..], role);
        assert OfRole(spec, role) == [spec[0]] + rest;
        if g != [] {
          GroupAskedIsGenerated(spec[1..], role, g[1..]);
          AskedIsSummary(spec[0], g[0]);
          assert g == [g[0]] + g[1..];
          assert GroupAsked([spec[0]] + rest, g) <==> BindingAsked(spec[0], g[0]) && GroupAsked(rest, g[1..]) by {
            ConsAsked(spec[0], rest, g[0], g[1..]);
          }
        }
      } else {
        assert OfRole(spec, role) == OfRole(spec[1..], role);
        GroupAskedIsGenerated(spec[1..], role, g);
      }
    }
  }

  lemma ConsAsked(b: BindingSpec, bs: seq<BindingSpec>, s: Summary, g: seq<Summary>)
    ensures GroupAsked([b] + bs, [s] + g) <==> BindingAsked(b, s) && GroupAsked(bs, g)
  {
    var cs, h := [b] + bs, [s] + g;
    if GroupAsked(cs, h) {
      assert BindingAsked(cs[0], h[0]);
      forall i | 0 <= i < |bs|
        ensures BindingAsked(bs[i], g[i])
      {
        assert BindingAsked(cs[i + 1], h[i + 1]);
      }
    }
  }

  /** Up to date, on the spec's own terms: every role has the bindings the spec lists for
      it, in that order, each with the condition and the members asked for, and no role has
      any other. */
  lemma UpToDateIffAsked(spec: seq<BindingSpec>, observed: PolicyValue)
    ensures UpToDate(spec, observed) <==>
            forall role :: GroupAsked(OfRole(spec, role), Group(observed.bindings, role))
  {
    UpToDateByRole(spec, observed);
    forall role
      ensures GroupAsked(OfRole(spec, role), Group(observed.bindings, role)) <==>
              Group(Map(BindingFrom, spec), role) == Group(observed.bindings, role)
    {
      GroupAskedIsGenerated(spec, role, Group(observed.bindings, role));
    }
  }

  /** Binding a grant the spec does not have makes the policy drift, and unbinding it
      again repairs the drift when its role is in the spec. */
  lemma ForeignGrantIsDrift(spec: seq<BindingSpec>, observed: PolicyValue, role: string, m: string)
    requires UpToDate(spec, observed) && !BoundFirst(observed.bindings, role, m)
    ensures !UpToDate(spec, Apply(Bind(role, m), observed))
    ensures UpToDate(spec, Apply(Unbind(role, m), Apply(Bind(role, m), observed))) <==>
            Group(observed.bindings, role) != []
  {
    var q := Apply(Bind(role, m), observed);
    var u := Apply(Unbind(role, m), q);
    UpToDateByRole(spec, observed);
    UpToDateByRole(spec, q);
    UpToDateByRole(spec, u);
    BoundFirstByRole(observed.bindings, role, m);
    EditByRole(Bind(role, m), observed, role);
    assert Group(q.bindings, role) != Group(observed.bindings, role) by {
      var g := Group(observed.bindings, role);
      if g != [] {
        assert EditMembers(Bind(role, m), g[0].members)[m] != g[0].members[m];
      }
    }
    assert Group(Map(BindingFrom, spec), role) == Group(observed.bindings, role);
    UnbindUndoesBindIff(role, m, observed);
    SamenessByRole(u, observed);
    if SameRoleGroups(u.bindings, observed.bindings) {
      forall r
        ensures Group(Map(BindingFrom, spec), r) == Group(u.bindings, r)
      {
        assert Group(u.bindings, r) == Group(observed.bindings, r) == Group(Map(BindingFrom, spec), r);
      }
    }
    if SameRoleGroups(Map(BindingFrom, spec), u.bindings) {
      forall r
        ensures Group(u.bindings, r) == Group(observed.bindings, r)
      {
        assert Group(u.bindings, r) == Group(Map(BindingFrom, spec), r) == Group(observed.bindings, r);
      }
    }
  }
}
