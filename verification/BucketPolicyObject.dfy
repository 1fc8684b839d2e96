/** The storage.Policy object and the in-place edits of
    pkg/clients/bucketpolicy/bucketpolicy.go. */
module BucketPolicyObject {
  import opened Pointers
  import opened BucketPolicy
  import opened StableSort

  class Binding {
    var role: string
    var members: seq<string>
    var condition: Option<Expr>

    constructor (role: string, members: seq<string>, condition: Option<Expr>)
      ensures Value() == BindingValue(role, members, condition)
    {
      this.role, this.members, this.condition := role, members, condition;
    }

    function Value(): BindingValue
      reads this
    {
      BindingValue(role, members, condition)
    }
  }

  function Values(bs: seq<Binding>): (vs: seq<BindingValue>)
    reads bs
    ensures |vs| == |bs|
    ensures forall i :: 0 <= i < |bs| ==> vs[i] == bs[i].Value()
  {
    seq(|bs|, i requires 0 <= i < |bs| reads bs => bs[i].Value())
  }

  lemma ValuesAppend(bs: seq<Binding>, b: Binding)
    ensures Values(bs + [b]) == Values(bs) + [b.Value()]
  {
  }

  /** The object listed at `i` has value `v`, and the others listed have the value in `was`. */
  ghost predicate OnlyEdited(bs: seq<Binding>, was: seq<BindingValue>, i: nat, v: BindingValue)
    requires i < |bs| == |was|
    reads bs
  {
    forall k :: 0 <= k < |bs| ==> bs[k].Value() == if bs[k] == bs[i] then v else was[k]
  }

  /** Where no object is listed twice, that changes one value of the list. */
  lemma OneValueChanged(bs: seq<Binding>, was: seq<BindingValue>, i: nat, v: BindingValue)
    requires i < |bs| == |was| && Distinct(bs) && OnlyEdited(bs, was, i, v)
    ensures Values(bs) == was[i := v]
  {
    forall k | 0 <= k < |bs|
      ensures Values(bs)[k] == was[i := v][k]
    {
      assert k != i ==> bs[k] != bs[i];
    }
  }

  ghost predicate Distinct(bs: seq<Binding>) {
    forall i, j :: 0 <= i < j < |bs| ==> bs[i] != bs[j]
  }

  // ---- the edits at the position the loops stop at ----

  /** The position of the role's first binding, the number of bindings if it has none. */
  function FirstIndex(bs: seq<BindingValue>, role: string): (i: nat)
    ensures i <= |bs| && (i < |bs| ==> bs[i].role == role)
    ensures forall k :: 0 <= k < i ==> bs[k].role != role
  {
    if bs == [] || bs[0].role == role then 0 else 1 + FirstIndex(bs[1..], role)
  }

  lemma {:induction false} BindAt(bs: seq<BindingValue>, role: string, m: string)
    ensures var i := FirstIndex(bs, role);
            BindIn(bs, role, m) ==
            if i < |bs| then bs[i := WithMember(bs[i], m)]
            else bs + [BindingValue(role, [m], None)]
  {
    if bs != [] {
      assert bs == [bs[0]] + bs[1..];
      if bs[0].role != role {
        BindAt(bs[1..], role, m);
      }
    }
  }

  lemma {:induction false} UnbindAt(bs: seq<BindingValue>, role: string, m: string)
    ensures var i := FirstIndex(bs, role);
            UnbindIn(bs, role, m) ==
            if i < |bs| then bs[i := WithoutMember(bs[i], m)] else bs
  {
    if bs != [] {
      assert bs == [bs[0]] + bs[1..];
      if bs[0].role != role {
        UnbindAt(bs[1..], role, m);
      }
    }
  }

  lemma {:induction false} BoundAt(bs: seq<BindingValue>, role: string, m: string)
    ensures var i := FirstIndex(bs, role);
            BoundFirst(bs, role, m) <==> i < |bs| && m in bs[i].members
  {
    if bs != [] && bs[0].role != role {
      BoundAt(bs[1..], role, m);
    }
  }

  lemma {:induction false} RemoveAt(ms: seq<string>, i: nat, m: string)
    requires i < |ms| && ms[i] == m && m !in ms[..i]
    ensures RemoveMember(ms, m) == ms[..i] + ms[i + 1..]
  {
    if i > 0 {
      assert ms[1..][..i - 1] == ms[..i][1..];
      RemoveAt(ms[1..], i - 1, m);
    }
  }

  lemma {:induction false} RemoveAbsent(ms: seq<string>, m: string)
    requires m !in ms
    ensures RemoveMember(ms, m) == ms
  {
    if ms != [] {
      RemoveAbsent(ms[1..], m);
    }
  }

  /** The first position of a member in a binding, -1 if it has none. */
  method FindMember(b: Binding, m: string) returns (ix: int)
    ensures -1 <= ix < |b.members|
    ensures ix >= 0 ==> b.members[ix] == m && m !in b.members[..ix]
    ensures ix < 0 ==> m !in b.members
  {
    ix := -1;
    for j := 0 to |b.members|
      invariant ix == -1 && m !in b.members[..j]
    {
      if b.members[j] == m {
        ix := j;
        break;
      }
    }
  }

  method AddTo(b: Binding, m: string) returns (changed: bool)
    modifies b
    ensures b.Value() == WithMember(old(b.Value()), m)
    ensures b.members == if m in old(b.members) then old(b.members) else old(b.members) + [m]
    ensures changed <==> m !in old(b.members)
  {
    var ix := FindMember(b, m);
    changed := ix < 0;
    if changed {
      b.members := b.members + [m];
    }
  }

  method RemoveFrom(b: Binding, m: string) returns (changed: bool)
    modifies b
    ensures b.Value() == WithoutMember(old(b.Value()), m)
    ensures changed <==> m in old(b.members)
  {
    var ix := FindMember(b, m);
    changed := ix >= 0;
    if changed {
      RemoveAt(b.members, ix, m);
      b.members := b.members[..ix] + b.members[ix + 1..];
    } else {
      RemoveAbsent(b.members, m);
    }
  }

  // ---- the object ----

  class Policy {
    var bindings: seq<Binding>
    var version: int
    var etag: string
    var kind: string
    var resourceId: string

    constructor (bindings: seq<Binding>, v: PolicyValue)
      ensures this.bindings == bindings
      ensures version == v.version && etag == v.etag && kind == v.kind && resourceId == v.resourceId
    {
      this.bindings := bindings;
      version, etag, kind, resourceId := v.version, v.etag, v.kind, v.resourceId;
    }

    /** No binding object is listed twice. */
    ghost predicate Valid()
      reads this
    {
      Distinct(bindings)
    }

    function Value(): PolicyValue
      reads this, bindings
    {
      PolicyValue(Values(bindings), version, etag, kind, resourceId)
    }

    method FindRole(role: string) returns (i: nat)
      ensures i == FirstIndex(Values(bindings), role)
    {
      i := 0;
      while i < |bindings| && bindings[i].role != role
        invariant i <= |bindings|
        invariant forall k :: 0 <= k < i ==> bindings[k].role != role
      {
        i := i + 1;
      }
      assert forall k :: 0 <= k < i ==> Values(bindings)[k].role != role;
    }

    /** Edits the first binding of the role in place, or appends a new binding. */
    method BindRoleToMember(role: string, memberRef: Option<string>) returns (changed: bool)
      modifies this, bindings
      ensures changed == Changes(Edit.Bind(role, StringValue(memberRef)), old(Value()))
      ensures old(Valid()) ==> Valid() && Value() == Apply(Edit.Bind(role, StringValue(memberRef)), old(Value()))
      ensures BoundInPlace(old(Values(bindings)), role, StringValue(memberRef), old(bindings))
      ensures version == 3 && etag == old(etag) && kind == old(kind) && resourceId == old(resourceId)
    {
      version := POLICY_VERSION;
      assert Values(bindings) == old(Values(bindings));
      changed := Bind(role, StringValue(memberRef));
    }

    /** The part of BindRoleToMember that edits the bindings. */
    method Bind(role: string, m: string) returns (changed: bool)
      modifies this`bindings, bindings
      ensures changed == !BoundFirst(old(Values(bindings)), role, m)
      ensures old(Valid()) ==> Valid() && Values(bindings) == BindIn(old(Values(bindings)), role, m)
      ensures BoundInPlace(old(Values(bindings)), role, m, old(bindings))
    {
      var i := FindRole(role);
      if i < |bindings| {
        changed := AddFirst(i, role, m);
      } else {
        AppendBinding(role, m);
        changed := true;
      }
    }

    /** What a bind does to the binding objects, even where one is listed twice: the role's
        first one has the member added and the others keep their values, or a new one is
        listed last. */
    ghost predicate BoundInPlace(was: seq<BindingValue>, role: string, m: string, listed: seq<Binding>)
      requires |was| == |listed|
      reads this, bindings
    {
      var i := FirstIndex(was, role);
      if i < |was| then bindings == listed && OnlyEdited(bindings, was, i, WithMember(was[i], m))
      else Values(bindings) == was + [BindingValue(role, [m], None)]
    }

    method AppendBinding(role: string, m: string)
      requires FirstIndex(Values(bindings), role) == |bindings|
      modifies this`bindings
      ensures old(Valid()) ==> Valid()
      ensures Values(bindings) == old(Values(bindings)) + [BindingValue(role, [m], None)]
      ensures Values(bindings) == BindIn(old(Values(bindings)), role, m)
      ensures !BoundFirst(old(Values(bindings)), role, m)
    {
      BindAt(Values(bindings), role, m);
      BoundAt(Values(bindings), role, m);
      var b := new Binding(role, [m], None);
      ghost var was := bindings;
      bindings := bindings + [b];
      ValuesAppend(was, b);
    }

    method AddFirst(i: nat, role: string, m: string) returns (changed: bool)
      requires i == FirstIndex(Values(bindings), role) && i < |bindings|
      modifies bindings[i]
      ensures OnlyEdited(bindings, old(Values(bindings)), i, WithMember(old(Values(bindings))[i], m))
      ensures Valid() ==> Values(bindings) == BindIn(old(Values(bindings)), role, m)
      ensures changed == !BoundFirst(old(Values(bindings)), role, m)
    {
      ghost var was := Values(bindings);
      BindAt(was, role, m);
      BoundAt(was, role, m);
      changed := AddTo(bindings[i], m);
      assert OnlyEdited(bindings, was, i, WithMember(was[i], m));
      if Valid() {
        OneValueChanged(bindings, was, i, WithMember(was[i], m));
      }
    }

    /** Takes the member out of the role's first binding by shifting the rest down. */
    method UnbindRoleFromMember(role: string, memberRef: Option<string>) returns (changed: bool)
      modifies bindings
      ensures changed == Changes(Unbind(role, StringValue(memberRef)), old(Value()))
      ensures Valid() ==> Value() == Apply(Unbind(role, StringValue(memberRef)), old(Value()))
      ensures var was := old(Values(bindings));
              var i := FirstIndex(was, role);
              if i < |was| then OnlyEdited(bindings, was, i, WithoutMember(was[i], StringValue(memberRef)))
              else Values(bindings) == was
    {
      var i := FindRole(role);
      if i < |bindings| {
        changed := RemoveFirst(i, role, StringValue(memberRef));
      } else {
        UnbindAt(Values(bindings), role, StringValue(memberRef));
        BoundAt(Values(bindings), role, StringValue(memberRef));
        changed := false;
      }
    }

    method RemoveFirst(i: nat, role: string, m: string) returns (changed: bool)
      requires i == FirstIndex(Values(bindings), role) && i < |bindings|
      modifies bindings[i]
      ensures OnlyEdited(bindings, old(Values(bindings)), i, WithoutMember(old(Values(bindings))[i], m))
      ensures Valid() ==> Values(bindings) == UnbindIn(old(Values(bindings)), role, m)
      ensures changed == BoundFirst(old(Values(bindings)), role, m)
    {
      ghost var was := Values(bindings);
      UnbindAt(was, role, m);
      BoundAt(was, role, m);
      changed := RemoveFrom(bindings[i], m);
      assert OnlyEdited(bindings, was, i, WithoutMember(was[i], m));
      if Valid() {
        OneValueChanged(bindings, was, i, WithoutMember(was[i], m));
      }
    }

    /** Replaces the bindings by fresh ones made from the spec. */
    method GenerateBucketPolicyInstance(spec: seq<BindingSpec>)
      modifies this
      ensures Valid() && fresh(bindings)
      ensures Value() == Generated(spec, old(Value()))
    {
      var bs: seq<Binding> := [];
      for i := 0 to |spec|
        invariant |bs| == i && fresh(bs)
        invariant forall k :: 0 <= k < i ==> bs[k].Value() == BindingFrom(spec[k])
        invariant forall j, k :: 0 <= j < k < i ==> bs[j] != bs[k]
        invariant unchanged(this)
      {
        var v := spec[i];
        var condition := None;
        if v.condition.Some? {
          condition := Some(Expr(StringValue(v.condition.value.description), v.condition.value.expression,
                                 StringValue(v.condition.value.location), StringValue(v.condition.value.title)));
        }
        var b := new Binding(v.role, v.members, condition);
        bs := bs + [b];
      }
      bindings := bs;
      version := POLICY_VERSION;
      MapAt(BindingFrom, spec);
      assert Values(bindings) == Map(BindingFrom, spec);
    }
  }
}
