/** What "up to date" means for a node pool, said without the generator and without the
    comparison: field by field, what the user set is what the pool has, strings up to case
    and the runtime key left aside. And what generation writes, field by field. */
module NodePoolDrift {
  import opened Pointers
  import opened ClusterTypes
  import opened ClusterSections
  import opened NodePool

  // ---- agreement with the fields the user set ----

  predicate Agrees<T(==)>(s: Option<T>, v: T) { s.Some? ==> s.value == v }

  predicate AgreesText(fold: char -> char, s: Option<string>, v: string) { s.Some? ==> Fold(fold, s.value, v) }

  predicate AgreesTexts(fold: char -> char, s: seq<string>, v: seq<string>) {
    s != [] ==> |s| == |v| && forall i :: 0 <= i < |s| ==> Fold(fold, s[i], v[i])
  }

  predicate ScalingAgrees(s: Option<ScalingSpec>, o: Option<Scaling>) {
    s.Some? ==>
      o.Some? && Agrees(s.value.autoprovisioned, o.value.autoprovisioned) && Agrees(s.value.enabled, o.value.enabled) &&
      Agrees(s.value.maxNodes, o.value.maxNodes) && Agrees(s.value.minNodes, o.value.minNodes)
  }

  predicate ManagementAgrees(s: Option<ManagementSpec>, o: Option<Management>) {
    s.Some? ==>
      o.Some? && Agrees(s.value.autoRepair, o.value.autoRepair) && Agrees(s.value.autoUpgrade, o.value.autoUpgrade)
  }

  predicate UpgradeAgrees(s: Option<UpgradeSpec>, o: Option<Upgrade>) {
    s.Some? ==>
      o.Some? && Agrees(s.value.maxSurge, o.value.maxSurge) && Agrees(s.value.maxUnavailable, o.value.maxUnavailable)
  }

  predicate ShieldedAgrees(s: Option<ShieldedSpec>, o: Option<Shielded>) {
    s.Some? ==>
      o.Some? && Agrees(s.value.integrityMonitoring, o.value.integrityMonitoring) &&
      Agrees(s.value.secureBoot, o.value.secureBoot)
  }

  predicate KubeletAgrees(fold: char -> char, s: Option<KubeletSpec>, o: Option<Kubelet>) {
    s.Some? ==>
      o.Some? && Agrees(s.value.cpuCfsQuota, o.value.cpuCfsQuota) &&
      AgreesText(fold, s.value.cpuCfsQuotaPeriod, o.value.cpuCfsQuotaPeriod) &&
      AgreesText(fold, s.value.cpuManagerPolicy, o.value.cpuManagerPolicy)
  }

  predicate AffinityAgrees(fold: char -> char, s: Option<AffinitySpec>, o: Option<Affinity>) {
    s.Some? ==>
      o.Some? && AgreesText(fold, s.value.reservationType, o.value.reservationType) &&
      AgreesText(fold, s.value.key, o.value.key) && AgreesTexts(fold, s.value.values, o.value.values)
  }

  predicate AcceleratorsAgree(fold: char -> char, s: seq<Option<Accelerator>>, o: seq<Option<Accelerator>>) {
    s != [] ==>
      |s| == |o| &&
      forall i :: 0 <= i < |s| ==>
        (s[i].Some? <==> o[i].Some?) &&
        (s[i].Some? ==> s[i].value.count == o[i].value.count && Fold(fold, s[i].value.kind, o[i].value.kind))
  }

  /** The same keys with the same values, the runtime key aside. */
  predicate SameEntries(fold: char -> char, s: map<string, string>, o: map<string, string>) {
    forall k :: k in s.Keys + o.Keys && k != "sandbox.gke.io/runtime" ==> k in s && k in o && Fold(fold, s[k], o[k])
  }

  /** Labels and metadata: an empty map asks for nothing, a nil one matches no set one. */
  predicate EntriesAgree(fold: char -> char, s: Entries, o: Entries) {
    s.Some? && s.value != map[] ==> o.Some? && SameEntries(fold, s.value, o.value)
  }

  /** A block of system settings is compared as a whole, empty ones included. */
  predicate SysctlsAgree(fold: char -> char, s: Option<Entries>, o: Option<Entries>) {
    s.Some? ==>
      o.Some? &&
      var a, b := s.value, o.value;
      if a.GetOr(map[]) == map[] && b.GetOr(map[]) == map[] then true
      else a.Some? && b.Some? && SameEntries(fold, a.value, b.value)
  }

  predicate SameTaints(fold: char -> char, a: seq<Taint>, b: seq<Taint>) {
    |a| == |b| &&
    forall i :: 0 <= i < |a| ==>
      Fold(fold, a[i].effect, b[i].effect) && Fold(fold, a[i].key, b[i].key) && Fold(fold, a[i].value, b[i].value)
  }

  predicate TaintsAgree(fold: char -> char, s: seq<Taint>, o: Option<seq<Taint>>) {
    s != [] ==> o.Some? && SameTaints(fold, KeptTaints(s), KeptTaints(o.value))
  }

  predicate FixedScalarsAgree(fold: char -> char, s: ConfigSpec, o: Config) {
    && AgreesText(fold, s.bootDiskKmsKey, o.bootDiskKmsKey) && Agrees(s.diskSizeGb, o.diskSizeGb)
    && AgreesText(fold, s.diskType, o.diskType) && Agrees(s.localSsdCount, o.localSsdCount)
    && AgreesText(fold, s.machineType, o.machineType) && AgreesText(fold, s.minCpuPlatform, o.minCpuPlatform)
    && AgreesText(fold, s.nodeGroup, o.nodeGroup) && AgreesTexts(fold, s.oauthScopes, o.oauthScopes)
    && Agrees(s.preemptible, o.preemptible) && AgreesText(fold, s.serviceAccount, o.serviceAccount)
    && AgreesTexts(fold, s.tags, o.tags)
  }

  predicate FixedBlocksAgree(fold: char -> char, s: ConfigSpec, o: Config) {
    && AcceleratorsAgree(fold, s.accelerators, o.accelerators) && KubeletAgrees(fold, s.kubelet, o.kubelet)
    && EntriesAgree(fold, s.labels, o.labels) && SysctlsAgree(fold, s.sysctls, o.sysctls)
    && EntriesAgree(fold, s.metadata, o.metadata) && AffinityAgrees(fold, s.affinity, o.affinity)
    && (s.sandbox.Some? ==> o.sandbox.Some? && Fold(fold, s.sandbox.value, o.sandbox.value))
    && ShieldedAgrees(s.shielded, o.shielded) && TaintsAgree(fold, s.taints, o.taints)
  }

  /** What no update can change agrees. */
  predicate FixedMet(fold: char -> char, name: string, spec: PoolSpec, o: PoolValue) {
    && Fold(fold, name, o.name) && Agrees(spec.initialNodeCount, o.initialNodeCount)
    && (spec.maxPods.Some? ==> o.maxPods == spec.maxPods) && UpgradeAgrees(spec.upgrade, o.upgrade)
    && (spec.config.Some? ==>
          o.config.Some? && FixedScalarsAgree(fold, spec.config.value, o.config.value) &&
          FixedBlocksAgree(fold, spec.config.value, o.config.value))
  }

  /** Auto-upgrade is on, by the user's choice or else by the pool's. */
  predicate UpgradesItself(spec: PoolSpec, o: PoolValue) {
    var asked := if spec.management.Some? then spec.management.value.autoUpgrade else None;
    asked == Some(true) || (asked.None? && o.management.Some? && o.management.value.autoUpgrade)
  }

  /** What a general update carries agrees; the version of a pool that upgrades itself is free. */
  predicate GeneralMet(fold: char -> char, spec: PoolSpec, o: PoolValue) {
    && AgreesTexts(fold, spec.locations, o.locations)
    && ((o.version != "" && UpgradesItself(spec, o)) || AgreesText(fold, spec.version, o.version))
    && (spec.config.Some? && o.config.Some? ==>
          AgreesText(fold, spec.config.value.imageType, o.config.value.imageType) &&
          (spec.config.value.workloadMode.Some? ==>
             o.config.value.workloadMode.Some? &&
             Fold(fold, spec.config.value.workloadMode.value, o.config.value.workloadMode.value)))
  }

  /** The pool has everything the user asked for. */
  predicate PoolMet(fold: char -> char, name: string, spec: PoolSpec, o: PoolValue) {
    && ScalingAgrees(spec.autoscaling, o.autoscaling) && ManagementAgrees(spec.management, o.management)
    && FixedMet(fold, name, spec, o) && GeneralMet(fold, spec, o)
  }

  // ---- the comparison is exact ----

  lemma EntriesDrift(fold: char -> char, s: Entries, o: Entries)
    ensures FoldEntries(fold, LateEntries(s, o), o) <==> EntriesAgree(fold, s, o)
  {
  }

  lemma SysctlsDrift(fold: char -> char, s: Option<Entries>, o: Option<Entries>)
    ensures FoldSysctls(fold, Overlay(Overlay(s, o), o), o) <==> SysctlsAgree(fold, s, o)
  {
  }

  lemma TaintsDrift(fold: char -> char, s: seq<Taint>, o: Option<seq<Taint>>)
    ensures var late := LateList(s, o.GetOr([]));
            FoldTaints(fold, if late == [] then o else Some(late), o) <==> TaintsAgree(fold, s, o)
  {
  }

  lemma AcceleratorsDrift(fold: char -> char, s: seq<Option<Accelerator>>, o: seq<Option<Accelerator>>)
    ensures var late := LateList(s, o);
            FoldAccelerators(fold, if late == [] then o else late, o) <==> AcceleratorsAgree(fold, s, o)
  {
  }

  lemma BlocksDrift(fold: char -> char, s: ConfigSpec, o: Config)
    ensures FoldKubelet(fold, DesiredKubelet(LateKubelet(s.kubelet, o.kubelet), o.kubelet), o.kubelet) <==>
            KubeletAgrees(fold, s.kubelet, o.kubelet)
    ensures FoldAffinity(fold, DesiredAffinity(LateAffinity(s.affinity, o.affinity), o.affinity), o.affinity) <==>
            AffinityAgrees(fold, s.affinity, o.affinity)
    ensures DesiredShielded(LateShielded(s.shielded, o.shielded), o.shielded) == o.shielded <==>
            ShieldedAgrees(s.shielded, o.shielded)
  {
  }

  lemma TextDrift(fold: char -> char, s: Option<string>, v: string)
    ensures Fold(fold, StringValue(LateInitializeString(s, v)), v) <==> AgreesText(fold, s, v)
  {
  }

  lemma TextsDrift(fold: char -> char, s: seq<string>, v: seq<string>)
    ensures FoldList(fold, LateInitializeStringSlice(s, v), v) <==> AgreesTexts(fold, s, v)
  {
  }

  /** The generated fixed configuration, after late initialisation, is alike exactly where
      the user's fields agree. */
  lemma FixedConfigDrift(fold: char -> char, spec: Option<ConfigSpec>, o: Config)
    ensures var s := spec.GetOr(NoConfigSpec);
            FixedConfigAlike(fold, DesiredConfig(LateConfig(spec, Some(o)), Some(o)).value, o) <==>
            FixedScalarsAgree(fold, s, o) && FixedBlocksAgree(fold, s, o)
  {
    var s := spec.GetOr(NoConfigSpec);
    EntriesDrift(fold, s.labels, o.labels);
    EntriesDrift(fold, s.metadata, o.metadata);
    SysctlsDrift(fold, s.sysctls, o.sysctls);
    TaintsDrift(fold, s.taints, o.taints);
    AcceleratorsDrift(fold, s.accelerators, o.accelerators);
    BlocksDrift(fold, s, o);
    TextsDrift(fold, s.oauthScopes, o.oauthScopes);
    TextsDrift(fold, s.tags, o.tags);
    TextDrift(fold, s.bootDiskKmsKey, o.bootDiskKmsKey);
    TextDrift(fold, s.diskType, o.diskType);
    TextDrift(fold, s.machineType, o.machineType);
    TextDrift(fold, s.minCpuPlatform, o.minCpuPlatform);
    TextDrift(fold, s.nodeGroup, o.nodeGroup);
    TextDrift(fold, s.serviceAccount, o.serviceAccount);
  }

  lemma SpecialsDrift(spec: PoolSpec, o: PoolValue)
    ensures SpecialsAgree(LateInit(spec, o), o) <==>
            ScalingAgrees(spec.autoscaling, o.autoscaling) && ManagementAgrees(spec.management, o.management)
  {
  }

  lemma NothingAsked(fold: char -> char, o: Config)
    ensures FixedScalarsAgree(fold, NoConfigSpec, o) && FixedBlocksAgree(fold, NoConfigSpec, o)
  {
  }

  lemma ConfigDrift(fold: char -> char, spec: Option<ConfigSpec>, o: Option<Config>)
    ensures var d := DesiredConfig(LateConfig(spec, o), o);
            (d.Some? ==> o.Some? && FixedConfigAlike(fold, d.value, o.value)) <==>
            (spec.Some? ==>
               o.Some? && FixedScalarsAgree(fold, spec.value, o.value) && FixedBlocksAgree(fold, spec.value, o.value))
  {
    if o.Some? {
      FixedConfigDrift(fold, spec, o.value);
      NothingAsked(fold, o.value);
    }
  }

  lemma UpgradeDrift(s: Option<UpgradeSpec>, o: Option<Upgrade>)
    ensures DesiredUpgrade(LateUpgrade(s, o), o) == o <==> UpgradeAgrees(s, o)
  {
  }

  /** What updates cannot settle is exactly what the user asked for elsewhere and the pool
      does not have. */
  lemma SettleableIffFixedMet(fold: char -> char, name: string, spec: PoolSpec, o: PoolValue)
    ensures Settleable(fold, name, LateInit(spec, o), o) <==> FixedMet(fold, name, spec, o)
  {
    UpgradeDrift(spec.upgrade, o.upgrade);
    ConfigDrift(fold, spec.config, o.config);
  }

  lemma GeneralDrift(fold: char -> char, spec: PoolSpec, o: PoolValue)
    ensures GeneralAgrees(fold, LateInit(spec, o), o) <==> GeneralMet(fold, spec, o)
  {
    TextsDrift(fold, spec.locations, o.locations);
    TextDrift(fold, spec.version, o.version);
    if o.config.Some? {
      TextDrift(fold, spec.config.GetOr(NoConfigSpec).imageType, o.config.value.imageType);
    }
  }

  /** Drift detection is exact: after late initialisation a pool is up to date if and only
      if it has every field the user set. */
  lemma UpToDateIffMet(fold: char -> char, name: string, spec: PoolSpec, o: PoolValue)
    ensures Next(fold, name, LateInit(spec, o), o).None? <==> PoolMet(fold, name, spec, o)
  {
    var late := LateInit(spec, o);
    SpecialsDrift(spec, o);
    SettleableIffFixedMet(fold, name, spec, o);
    GeneralDrift(fold, spec, o);
    if SpecialsAgree(late, o) {
      AlikeByParts(fold, name, late, o);
    }
  }

  /** Which update is sent, on the user's fields: the scaling one first, then the management
      one, and the general one for any other difference. */
  lemma KindOfUpdate(fold: char -> char, name: string, spec: PoolSpec, o: PoolValue)
    ensures var r := Next(fold, name, LateInit(spec, o), o);
            var scaling, management :=
              ScalingAgrees(spec.autoscaling, o.autoscaling), ManagementAgrees(spec.management, o.management);
            && (r.Some? && r.value.SetScaling? <==> !scaling)
            && (r.Some? && r.value.SetManagement? <==> scaling && !management)
            && (r.Some? && r.value.General? <==>
                  scaling && management && !(FixedMet(fold, name, spec, o) && GeneralMet(fold, spec, o)))
  {
    UpToDateIffMet(fold, name, spec, o);
    ScalingDrift(spec, o);
    SpecialsDrift(spec, o);
  }

  lemma ScalingDrift(spec: PoolSpec, o: PoolValue)
    ensures var late := LateInit(spec, o).autoscaling;
            DesiredScaling(late, o.autoscaling) == o.autoscaling <==> ScalingAgrees(spec.autoscaling, o.autoscaling)
  {
  }

  /** And the loop gets there exactly when the fixed part is met to begin with: then three
      rounds give the user everything asked for. */
  lemma RoundsMeetSpec(fold: char -> char, name: string, spec: PoolSpec, o: PoolValue, n: nat)
    requires n >= 3
    ensures var (s, e) := Rounds(fold, name, spec, o, n);
            Next(fold, name, s, e).None? <==> FixedMet(fold, name, spec, o)
  {
    ThreeUpdatesSuffice(fold, name, spec, o, n);
    SettleableIffFixedMet(fold, name, spec, o);
  }

  function Folded(fold: char -> char, s: string): string {
    seq(|s|, i requires 0 <= i < |s| => fold(s[i]))
  }

  /** Strings alike up to case are those with the same folded form, character by character. */
  lemma FoldIsFoldedEquality(fold: char -> char, a: string, b: string)
    ensures Fold(fold, a, b) <==> Folded(fold, a) == Folded(fold, b)
  {
    if Folded(fold, a) == Folded(fold, b) {
      forall i | 0 <= i < |a|
        ensures fold(a[i]) == fold(b[i])
      {
        assert Folded(fold, a)[i] == Folded(fold, b)[i];
      }
    }
  }

  /** The taints compared: all but those with the runtime key, in order. */
  lemma {:induction false} KeptTaintsFilter(a: seq<Taint>, t: Taint)
    ensures KeptTaints(a + [t]) == KeptTaints(a) + if t.key == "sandbox.gke.io/runtime" then [] else [t]
    ensures KeptTaints([]) == []
  {
    if a == [] {
      assert a + [t] == [t];
    } else {
      KeptTaintsFilter(a[1..], t);
      assert (a + [t])[1..] == a[1..] + [t] && (a + [t])[0] == a[0];
      var head := if a[0].key == RUNTIME_KEY then [] else [a[0]];
      assert KeptTaints(a + [t]) == head + KeptTaints(a[1..] + [t]);
      assert KeptTaints(a) == head + KeptTaints(a[1..]);
    }
  }

  // ---- what generation writes ----

  /** A configuration block of the spec overwrites every scalar, unset ones with zero. */
  predicate ScalarsWritten(s: ConfigSpec, now: Config) {
    && now.bootDiskKmsKey == StringValue(s.bootDiskKmsKey) && now.diskSizeGb == Int64Value(s.diskSizeGb)
    && now.diskType == StringValue(s.diskType) && now.imageType == StringValue(s.imageType)
    && now.labels == s.labels && now.localSsdCount == Int64Value(s.localSsdCount)
    && now.machineType == StringValue(s.machineType) && now.metadata == s.metadata
    && now.minCpuPlatform == StringValue(s.minCpuPlatform) && now.nodeGroup == StringValue(s.nodeGroup)
    && now.oauthScopes == s.oauthScopes && now.preemptible == BoolValue(s.preemptible)
    && now.serviceAccount == StringValue(s.serviceAccount) && now.tags == s.tags
  }

  /** Nested blocks and lists are written where the spec has them and kept where it has not. */
  predicate BlocksWritten(s: ConfigSpec, was: Config, now: Config) {
    && now.accelerators == (if s.accelerators != [] then s.accelerators else was.accelerators)
    && now.taints == (if s.taints != [] then Some(s.taints) else was.taints)
    && (if s.kubelet.None? then now.kubelet == was.kubelet
        else now.kubelet.Some? && now.kubelet.value.cpuCfsQuota == BoolValue(s.kubelet.value.cpuCfsQuota) &&
             now.kubelet.value.cpuCfsQuotaPeriod == StringValue(s.kubelet.value.cpuCfsQuotaPeriod) &&
             now.kubelet.value.cpuManagerPolicy == StringValue(s.kubelet.value.cpuManagerPolicy))
    && (if s.affinity.None? then now.affinity == was.affinity
        else now.affinity.Some? && now.affinity.value.reservationType == StringValue(s.affinity.value.reservationType) &&
             now.affinity.value.key == StringValue(s.affinity.value.key) &&
             now.affinity.value.values == s.affinity.value.values)
    && (if s.shielded.None? then now.shielded == was.shielded
        else now.shielded.Some? && now.shielded.value.secureBoot == BoolValue(s.shielded.value.secureBoot) &&
             now.shielded.value.integrityMonitoring == BoolValue(s.shielded.value.integrityMonitoring))
    && now.sysctls == (if s.sysctls.Some? then s.sysctls else was.sysctls)
    && now.sandbox == (if s.sandbox.Some? then s.sandbox else was.sandbox)
    && now.workloadMode == (if s.workloadMode.Some? then s.workloadMode else was.workloadMode)
  }

  predicate SpecialsWritten(spec: PoolSpec, was: PoolValue, now: PoolValue) {
    && (if spec.autoscaling.None? then now.autoscaling == was.autoscaling
        else now.autoscaling.Some? &&
             var s, n := spec.autoscaling.value, now.autoscaling.value;
             n.autoprovisioned == BoolValue(s.autoprovisioned) && n.enabled == BoolValue(s.enabled) &&
             n.maxNodes == Int64Value(s.maxNodes) && n.minNodes == Int64Value(s.minNodes))
    && (if spec.management.None? then now.management == was.management
        else now.management.Some? &&
             var s, n := spec.management.value, now.management.value;
             n.autoRepair == BoolValue(s.autoRepair) && n.autoUpgrade == BoolValue(s.autoUpgrade) &&
             n.options == if was.management.Some? then was.management.value.options else None)
    && (if spec.upgrade.None? then now.upgrade == was.upgrade
        else now.upgrade.Some? && now.upgrade.value.maxSurge == Int64Value(spec.upgrade.value.maxSurge) &&
             now.upgrade.value.maxUnavailable == Int64Value(spec.upgrade.value.maxUnavailable))
  }

  /** Field by field, what a pool holds after generation over `was`. */
  lemma GenerationWrites(name: string, spec: PoolSpec, was: PoolValue)
    ensures var now := DesiredPool(name, spec, was);
            && now.name == name && now.rest == was.rest && SpecialsWritten(spec, was, now)
            && now.initialNodeCount == Int64Value(spec.initialNodeCount) && now.locations == spec.locations
            && now.maxPods == (if spec.maxPods.Some? then spec.maxPods else was.maxPods)
            && now.version == (if was.version != "" && spec.management.Some? &&
                                  spec.management.value.autoUpgrade == Some(true)
                               then was.version else StringValue(spec.version))
            && (if spec.config.None? then now.config == was.config
                else now.config.Some? && ScalarsWritten(spec.config.value, now.config.value) &&
                     BlocksWritten(spec.config.value, was.config.GetOr(NoConfig), now.config.value))
  {
  }

  /** The pool Create sends has what the spec has and nothing else. */
  lemma CreatedPool(name: string, spec: PoolSpec)
    ensures var o := DesiredPool(name, spec, NoPool);
            && o.name == name && o.rest == "" && o.version == StringValue(spec.version)
            && o.initialNodeCount == Int64Value(spec.initialNodeCount) && o.locations == spec.locations
            && o.maxPods == spec.maxPods && SpecialsWritten(spec, o, o)
            && (o.autoscaling.Some? <==> spec.autoscaling.Some?) && (o.upgrade.Some? <==> spec.upgrade.Some?)
            && (o.management.Some? <==> spec.management.Some?)
            && (o.management.Some? ==> o.management.value.options.None?)
            && (o.config.Some? <==> spec.config.Some?)
            && (o.config.Some? ==> ConfigCreated(spec.config.value, o.config.value))
  {
    GenerationWrites(name, spec, NoPool);
  }

  predicate ConfigCreated(s: ConfigSpec, c: Config) {
    && ScalarsWritten(s, c) && BlocksWritten(s, c, c)
    && c.accelerators == s.accelerators && c.taints.GetOr([]) == s.taints
    && (c.kubelet.Some? <==> s.kubelet.Some?) && (c.affinity.Some? <==> s.affinity.Some?)
    && (c.shielded.Some? <==> s.shielded.Some?) && c.sysctls == s.sysctls && c.sandbox == s.sandbox
    && c.workloadMode == s.workloadMode
  }

  // ---- late initialisation ----

  /** Late initialisation of one field: the user's value, else the observed one if that is
      not zero, else still unset. */
  predicate Filled<T(==)>(s: Option<T>, v: T, zero: T, r: Option<T>) {
    r == if s.Some? then s else if v != zero then Some(v) else None
  }

  predicate FilledList<T(==)>(s: seq<T>, v: seq<T>, r: seq<T>) { r == if s != [] then s else v }

  predicate FilledConfig(s: ConfigSpec, o: Config, r: ConfigSpec) {
    && FilledList(s.accelerators, o.accelerators, r.accelerators)
    && Filled(s.bootDiskKmsKey, o.bootDiskKmsKey, "", r.bootDiskKmsKey)
    && Filled(s.diskSizeGb, o.diskSizeGb, 0, r.diskSizeGb) && Filled(s.diskType, o.diskType, "", r.diskType)
    && Filled(s.imageType, o.imageType, "", r.imageType) && Filled(s.localSsdCount, o.localSsdCount, 0, r.localSsdCount)
    && Filled(s.machineType, o.machineType, "", r.machineType)
    && Filled(s.minCpuPlatform, o.minCpuPlatform, "", r.minCpuPlatform)
    && Filled(s.nodeGroup, o.nodeGroup, "", r.nodeGroup) && FilledList(s.oauthScopes, o.oauthScopes, r.oauthScopes)
    && Filled(s.preemptible, o.preemptible, false, r.preemptible)
    && Filled(s.serviceAccount, o.serviceAccount, "", r.serviceAccount) && FilledList(s.tags, o.tags, r.tags)
    && FilledList(s.taints, o.taints.GetOr([]), r.taints)
    && r.labels == (if NoEntries(s.labels) && !NoEntries(o.labels) then o.labels else s.labels)
    && r.metadata == (if NoEntries(s.metadata) && !NoEntries(o.metadata) then o.metadata else s.metadata)
    && r.sysctls == (if s.sysctls.Some? then s.sysctls else o.sysctls)
    && r.sandbox == (if s.sandbox.Some? then s.sandbox else o.sandbox)
    && r.workloadMode == (if s.workloadMode.Some? then s.workloadMode else o.workloadMode)
  }

  predicate FilledBlocks(s: ConfigSpec, o: Config, r: ConfigSpec) {
    && (if o.kubelet.None? then r.kubelet == s.kubelet
        else r.kubelet.Some? &&
             var a, b, c := s.kubelet.GetOr(KubeletSpec(None, None, None)), o.kubelet.value, r.kubelet.value;
             Filled(a.cpuCfsQuota, b.cpuCfsQuota, false, c.cpuCfsQuota) &&
             Filled(a.cpuCfsQuotaPeriod, b.cpuCfsQuotaPeriod, "", c.cpuCfsQuotaPeriod) &&
             Filled(a.cpuManagerPolicy, b.cpuManagerPolicy, "", c.cpuManagerPolicy))
    && (if o.affinity.None? then r.affinity == s.affinity
        else r.affinity.Some? &&
             var a, b, c := s.affinity.GetOr(AffinitySpec(None, None, [])), o.affinity.value, r.affinity.value;
             Filled(a.reservationType, b.reservationType, "", c.reservationType) &&
             Filled(a.key, b.key, "", c.key) && FilledList(a.values, b.values, c.values))
    && (if o.shielded.None? then r.shielded == s.shielded
        else r.shielded.Some? &&
             var a, b, c := s.shielded.GetOr(ShieldedSpec(None, None)), o.shielded.value, r.shielded.value;
             Filled(a.integrityMonitoring, b.integrityMonitoring, false, c.integrityMonitoring) &&
             Filled(a.secureBoot, b.secureBoot, false, c.secureBoot))
  }

  predicate FilledOutsideConfig(s: PoolSpec, o: PoolValue, r: PoolSpec) {
    && Filled(s.initialNodeCount, o.initialNodeCount, 0, r.initialNodeCount)
    && FilledList(s.locations, o.locations, r.locations) && Filled(s.version, o.version, "", r.version)
    && r.maxPods == (if s.maxPods.Some? then s.maxPods else o.maxPods)
    && (if o.autoscaling.None? then r.autoscaling == s.autoscaling
        else r.autoscaling.Some? &&
             var a := s.autoscaling.GetOr(ScalingSpec(None, None, None, None));
             var b, c := o.autoscaling.value, r.autoscaling.value;
             Filled(a.autoprovisioned, b.autoprovisioned, false, c.autoprovisioned) &&
             Filled(a.enabled, b.enabled, false, c.enabled) && Filled(a.maxNodes, b.maxNodes, 0, c.maxNodes) &&
             Filled(a.minNodes, b.minNodes, 0, c.minNodes))
    && (if o.management.None? then r.management == s.management
        else r.management.Some? &&
             var a, b, c := s.management.GetOr(ManagementSpec(None, None)), o.management.value, r.management.value;
             Filled(a.autoRepair, b.autoRepair, false, c.autoRepair) &&
             Filled(a.autoUpgrade, b.autoUpgrade, false, c.autoUpgrade))
    && (if o.upgrade.None? then r.upgrade == s.upgrade
        else r.upgrade.Some? &&
             var a, b, c := s.upgrade.GetOr(UpgradeSpec(None, None)), o.upgrade.value, r.upgrade.value;
             Filled(a.maxSurge, b.maxSurge, 0, c.maxSurge) &&
             Filled(a.maxUnavailable, b.maxUnavailable, 0, c.maxUnavailable))
  }

  lemma LateConfigFills(s: Option<ConfigSpec>, o: Config)
    ensures var r := LateConfig(s, Some(o));
            r.Some? && FilledConfig(s.GetOr(NoConfigSpec), o, r.value) && FilledBlocks(s.GetOr(NoConfigSpec), o, r.value)
  {
  }

  /** Late initialisation only fills, and every field from the observed field of its name. */
  lemma LateInitFills(spec: PoolSpec, o: PoolValue)
    ensures var r := LateInit(spec, o);
            FilledOutsideConfig(spec, o, r) &&
            if o.config.None? then r.config == spec.config
            else r.config.Some? && FilledConfig(spec.config.GetOr(NoConfigSpec), o.config.value, r.config.value) &&
                 FilledBlocks(spec.config.GetOr(NoConfigSpec), o.config.value, r.config.value)
  {
    if o.config.Some? {
      LateConfigFills(spec.config, o.config.value);
    }
  }
}
