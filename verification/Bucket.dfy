/** Storage buckets (apis/storage/v1alpha3/types.go): the label patch of an update and the
    conversion of the updatable attributes to the storage client's form and back. */
module Bucket {
  import opened Pointers

  // ---- labels ----

  /** What SetLabel and DeleteLabel accumulate in a BucketAttrsToUpdate. */
  datatype LabelPatch = LabelPatch(sets: map<string, string>, deletes: set<string>)

  /** What the storage service makes of a patch. */
  function Patched(p: LabelPatch, labels: map<string, string>): map<string, string> {
    (labels + p.sets) - p.deletes
  }

  /** A mutable label map, as it is passed to the update. */
  class Labels {
    var entries: map<string, string>

    constructor (entries: map<string, string>)
      ensures this.entries == entries
    {
      this.entries := entries;
    }
  }

  /** Which deletions a patch that sets the desired labels needs: exactly the observed keys
      that are not desired, and none that is. */
  lemma PatchReproducesIff(desired: map<string, string>, observed: map<string, string>, deletes: set<string>)
    ensures Patched(LabelPatch(desired, deletes), observed) == desired <==>
            observed.Keys - desired.Keys <= deletes && deletes !! desired.Keys
  {
    var r := Patched(LabelPatch(desired, deletes), observed);
    if observed.Keys - desired.Keys <= deletes && deletes !! desired.Keys {
      assert r.Keys == desired.Keys;
    }
    if r == desired {
      forall k | k in observed.Keys - desired.Keys
        ensures k in deletes
      {
        assert k !in r;
      }
      forall k | k in desired.Keys
        ensures k !in deletes
      {
        assert k in r;
      }
    }
  }

  function Restrict(m: map<string, string>, keys: set<string>): map<string, string> {
    map k | k in keys && k in m :: m[k]
  }

  lemma SubtractOneMore(m: map<string, string>, done: set<string>, k: string)
    ensures (m - done) - {k} == m - (done + {k})
  {
  }

  lemma SetOneMore(m: map<string, string>, done: set<string>, k: string)
    requires k in m
    ensures Restrict(m, done)[k := m[k]] == Restrict(m, done + {k})
    ensures Restrict(m, m.Keys) == m && Restrict(m, {}) == map[]
  {
  }

  /** The loop over the desired labels: each is set, and taken out of the observed map. */
  method SetDesired(desired: map<string, string>, labels: Labels) returns (sets: map<string, string>)
    modifies labels
    ensures sets == desired
    ensures labels.entries == old(labels.entries) - desired.Keys
  {
    sets := map[];
    var left := desired.Keys;
    ghost var done: set<string> := {};
    while left != {}
      invariant left == desired.Keys - done && done <= desired.Keys
      invariant sets == Restrict(desired, done)
      invariant labels.entries == old(labels.entries) - done
      decreases |left|
    {
      var k :| k in left;
      SubtractOneMore(old(labels.entries), done, k);
      SetOneMore(desired, done, k);
      sets := sets[k := desired[k]];
      labels.entries := labels.entries - {k};
      left, done := left - {k}, done + {k};
    }
    assert done == desired.Keys;
    assert Restrict(desired, desired.Keys) == desired;
  }

  /** The loop over what is then left of the observed labels. */
  method DeleteRest(labels: Labels) returns (deletes: set<string>)
    ensures deletes == labels.entries.Keys
  {
    deletes := {};
    var left := labels.entries.Keys;
    while left != {}
      invariant left <= labels.entries.Keys && deletes == labels.entries.Keys - left
      decreases |left|
    {
      var k :| k in left;
      deletes := deletes + {k};
      left := left - {k};
    }
  }

  /** The label part of CopyToBucketUpdateAttrs, for every order in which the maps are
      visited. The patch turns the observed labels into exactly the desired ones, no key is
      both set and deleted, and the map passed in ends as observed minus desired. */
  method DiffLabels(desired: map<string, string>, labels: Labels) returns (patch: LabelPatch)
    modifies labels
    ensures Patched(patch, old(labels.entries)) == desired
    ensures patch.sets.Keys !! patch.deletes && patch.deletes <= old(labels.entries).Keys
    ensures labels.entries == old(labels.entries) - desired.Keys
  {
    var sets := SetDesired(desired, labels);
    var deletes := DeleteRest(labels);
    patch := LabelPatch(sets, deletes);
    PatchReproducesIff(desired, old(labels.entries), deletes);
  }

  // ---- updatable attributes ----

  datatype Time = Time(instant: int)

  const ZeroTime := Time(0)

  datatype PolicyOnly = PolicyOnly(enabled: bool, lockedTime: Time)

  datatype Cors = Cors(maxAge: int, methods: seq<string>, origins: seq<string>, responseHeaders: seq<string>)

  datatype Rule = Rule(
    storageClass: string, action: string, ageInDays: int, createdBefore: Time, liveness: int,
    matchesStorageClasses: seq<string>, numNewerVersions: int)

  datatype Logging = Logging(bucket: string, prefix: string)

  datatype Website = Website(mainPageSuffix: string, notFoundPage: string)

  /** BucketUpdatableAttrs. A nil list is `None`. */
  datatype Attrs = Attrs(
    policyOnly: Option<PolicyOnly>, cors: Option<seq<Cors>>, eventBasedHold: bool, encryption: Option<string>,
    labels: Option<map<string, string>>, rules: Option<seq<Rule>>, logging: Option<Logging>,
    predefinedAcl: string, predefinedDefaultAcl: string, requesterPays: bool, retentionSeconds: Option<int>,
    versioning: bool, website: Option<Website>)

  datatype Retention = Retention(nanoseconds: int, effectiveTime: Time, locked: bool)

  /** storage.BucketAttrs: the policy block is a value, the retention a duration. */
  datatype StorageAttrs = StorageAttrs(
    policyOnly: PolicyOnly, cors: Option<seq<Cors>>, eventBasedHold: bool, encryption: Option<string>,
    labels: Option<map<string, string>>, rules: Option<seq<Rule>>, logging: Option<Logging>,
    predefinedAcl: string, predefinedDefaultAcl: string, requesterPays: bool, retention: Option<Retention>,
    versioning: bool, website: Option<Website>)

  const ZeroPolicyOnly := PolicyOnly(false, ZeroTime)
  const SECOND := 1_000_000_000
  const TWO_63 := 0x8000_0000_0000_0000
  const TWO_64 := 0x1_0000_0000_0000_0000

  /** The value a signed 64-bit integer holds after an operation. */
  function Wrap64(x: int): (w: int)
    ensures -TWO_63 <= w < TWO_63
    ensures -TWO_63 <= x < TWO_63 ==> w == x
  {
    (x + TWO_63) % TWO_64 - TWO_63
  }

  /** Division truncated toward zero. */
  function Truncate(x: int, y: int): int
    requires y > 0
  {
    if x >= 0 then x / y else -(-x / y)
  }

  /** An absent retention policy becomes one of zero seconds. */
  function CopyRetention(r: Option<int>): Option<Retention> {
    Some(Retention(Wrap64(r.GetOr(0) * SECOND), ZeroTime, false))
  }

  function NewRetention(r: Option<Retention>): Option<int> {
    if r.Some? then Some(Truncate(r.value.nanoseconds, SECOND)) else None
  }

  function NewPolicyOnly(p: PolicyOnly): Option<PolicyOnly> {
    if p == ZeroPolicyOnly then None else Some(p)
  }

  function NonEmpty<T>(s: Option<seq<T>>): Option<seq<T>> {
    if s.Some? && s.value != [] then s else None
  }

  function CopyAttrs(a: Attrs): StorageAttrs {
    StorageAttrs(a.policyOnly.GetOr(ZeroPolicyOnly), a.cors, a.eventBasedHold, a.encryption, a.labels,
                 NonEmpty(a.rules), a.logging, a.predefinedAcl, a.predefinedDefaultAcl, a.requesterPays,
                 CopyRetention(a.retentionSeconds), a.versioning, a.website)
  }

  function NewAttrs(b: StorageAttrs): Attrs {
    Attrs(NewPolicyOnly(b.policyOnly), b.cors, b.eventBasedHold, b.encryption, b.labels, NonEmpty(b.rules),
          b.logging, b.predefinedAcl, b.predefinedDefaultAcl, b.requesterPays, NewRetention(b.retention),
          b.versioning, b.website)
  }

  function RoundTrip(a: Attrs): Attrs { NewAttrs(CopyAttrs(a)) }

  /** Every attribute is carried by the attribute of its name; an absent policy block is the
      zero one, an absent retention zero seconds, and an empty rule list none. */
  lemma CopyFields(a: Attrs)
    ensures var b := CopyAttrs(a);
            && b.policyOnly == (if a.policyOnly.Some? then a.policyOnly.value else PolicyOnly(false, Time(0)))
            && b.cors == a.cors && b.eventBasedHold == a.eventBasedHold && b.encryption == a.encryption
            && b.labels == a.labels && b.rules.GetOr([]) == a.rules.GetOr([]) && b.rules != Some([])
            && b.logging == a.logging && b.predefinedAcl == a.predefinedAcl
            && b.predefinedDefaultAcl == a.predefinedDefaultAcl && b.requesterPays == a.requesterPays
            && b.versioning == a.versioning && b.website == a.website && b.retention.Some?
            && b.retention.value.effectiveTime == Time(0) && !b.retention.value.locked
            && (-MAX_RETENTION <= a.retentionSeconds.GetOr(0) <= MAX_RETENTION ==>
                  b.retention.value.nanoseconds == a.retentionSeconds.GetOr(0) * 1_000_000_000)
  {
  }

  lemma NewFields(b: StorageAttrs)
    ensures var a := NewAttrs(b);
            && a.policyOnly == (if b.policyOnly == PolicyOnly(false, Time(0)) then None else Some(b.policyOnly))
            && a.cors == b.cors && a.eventBasedHold == b.eventBasedHold && a.encryption == b.encryption
            && a.labels == b.labels && a.rules.GetOr([]) == b.rules.GetOr([]) && a.rules != Some([])
            && a.logging == b.logging && a.predefinedAcl == b.predefinedAcl
            && a.predefinedDefaultAcl == b.predefinedDefaultAcl && a.requesterPays == b.requesterPays
            && a.versioning == b.versioning && a.website == b.website
            && (a.retentionSeconds.Some? <==> b.retention.Some?)
  {
  }

  const MAX_RETENTION := 9223372036

  /** A period survives the trip exactly when its nanoseconds fit 64 bits. */
  lemma RetentionRoundTrip(seconds: int)
    ensures NewRetention(CopyRetention(Some(seconds))) == Some(seconds) <==> -MAX_RETENTION <= seconds <= MAX_RETENTION
    ensures var r := NewRetention(CopyRetention(Some(seconds))).value; -MAX_RETENTION <= r <= MAX_RETENTION
    ensures 0 <= seconds <= 3155673600 ==> Wrap64(seconds * SECOND) == seconds * SECOND
  {
    var w := Wrap64(seconds * SECOND);
    assert -TWO_63 <= w < TWO_63;
    assert (MAX_RETENTION + 1) * SECOND > TWO_63;
    if -MAX_RETENTION <= seconds <= MAX_RETENTION {
      assert w == seconds * SECOND;
    }
  }

  /** The attributes the conversion leaves as they are. */
  predicate Normal(a: Attrs) {
    && a.policyOnly != Some(ZeroPolicyOnly)
    && a.rules != Some([])
    && a.retentionSeconds.Some? && -MAX_RETENTION <= a.retentionSeconds.value <= MAX_RETENTION
  }

  /** Converting to storage form and back is an idempotent normalisation, and the identity
      exactly on the normal forms. */
  lemma RoundTripNormalises(a: Attrs)
    ensures RoundTrip(a) == a <==> Normal(a)
    ensures Normal(RoundTrip(a))
    ensures RoundTrip(RoundTrip(a)) == RoundTrip(a)
  {
    RetentionRoundTrip(a.retentionSeconds.GetOr(0));
    RetentionRoundTrip(RoundTrip(a).retentionSeconds.value);
  }

  // ---- the list converters, which fill slices by index ----

  method CopyCorsList(c: Option<seq<Cors>>) returns (r: Option<seq<Cors>>)
    ensures r == c
  {
    if c.None? {
      return None;
    }
    var copy: seq<Cors> := [];
    for i := 0 to |c.value|
      invariant copy == c.value[..i]
    {
      var v := c.value[i];
      copy := copy + [Cors(v.maxAge, v.methods, v.origins, v.responseHeaders)];
    }
    assert c.value[..|c.value|] == c.value;
    return Some(copy);
  }

  method CopyRules(rules: Option<seq<Rule>>) returns (r: Option<seq<Rule>>)
    ensures r == NonEmpty(rules)
  {
    r := None;
    if rules.Some? && |rules.value| > 0 {
      var copy: seq<Rule> := [];
      for i := 0 to |rules.value|
        invariant copy == rules.value[..i]
      {
        var v := rules.value[i];
        copy := copy + [Rule(v.storageClass, v.action, v.ageInDays, v.createdBefore, v.liveness,
                             v.matchesStorageClasses, v.numNewerVersions)];
      }
      assert rules.value[..|rules.value|] == rules.value;
      r := Some(copy);
    }
  }

  method CopyToBucketAttrs(a: Attrs) returns (b: StorageAttrs)
    ensures b == CopyAttrs(a)
    ensures Normal(a) ==> NewAttrs(b) == a
  {
    var cors := CopyCorsList(a.cors);
    var rules := CopyRules(a.rules);
    b := StorageAttrs(a.policyOnly.GetOr(ZeroPolicyOnly), cors, a.eventBasedHold, a.encryption, a.labels, rules,
                      a.logging, a.predefinedAcl, a.predefinedDefaultAcl, a.requesterPays,
                      CopyRetention(a.retentionSeconds), a.versioning, a.website);
    RoundTripNormalises(a);
  }
}
