/** GKE node pools: generation, late initialisation, comparison and the three kinds of
    update of pkg/clients/nodepool/nodepool.go. */
module NodePool {
  import opened Pointers
  import opened ClusterTypes
  import opened ClusterSections

  // ---- spec side (apis/container/v1beta1/nodepool_types.go) ----

  datatype ScalingSpec = ScalingSpec(
    autoprovisioned: Option<bool>, enabled: Option<bool>, maxNodes: Option<int>, minNodes: Option<int>)

  datatype Accelerator = Accelerator(count: int, kind: string)

  datatype Taint = Taint(effect: string, key: string, value: string)

  datatype KubeletSpec = KubeletSpec(
    cpuCfsQuota: Option<bool>, cpuCfsQuotaPeriod: Option<string>, cpuManagerPolicy: Option<string>)

  datatype AffinitySpec = AffinitySpec(reservationType: Option<string>, key: Option<string>, values: seq<string>)

  /** A map whose nil and empty forms compare differently once entries are ignored. */
  type Entries = Option<map<string, string>>

  datatype ConfigSpec = ConfigSpec(
    accelerators: seq<Option<Accelerator>>, bootDiskKmsKey: Option<string>, diskSizeGb: Option<int>,
    diskType: Option<string>, imageType: Option<string>, kubelet: Option<KubeletSpec>, labels: Entries,
    sysctls: Option<Entries>, localSsdCount: Option<int>, machineType: Option<string>, metadata: Entries,
    minCpuPlatform: Option<string>, nodeGroup: Option<string>, oauthScopes: seq<string>,
    preemptible: Option<bool>, affinity: Option<AffinitySpec>, sandbox: Option<string>,
    serviceAccount: Option<string>, shielded: Option<ShieldedSpec>, tags: seq<string>, taints: seq<Taint>,
    workloadMode: Option<string>)

  datatype PoolSpec = PoolSpec(
    autoscaling: Option<ScalingSpec>, config: Option<ConfigSpec>, initialNodeCount: Option<int>,
    locations: seq<string>, management: Option<ManagementSpec>, maxPods: Option<int>,
    upgrade: Option<UpgradeSpec>, version: Option<string>)

  // ---- API side (container.NodePool) ----

  datatype Scaling = Scaling(autoprovisioned: bool, enabled: bool, maxNodes: int, minNodes: int)

  datatype Kubelet = Kubelet(cpuCfsQuota: bool, cpuCfsQuotaPeriod: string, cpuManagerPolicy: string)

  datatype Affinity = Affinity(reservationType: string, key: string, values: seq<string>)

  datatype Config = Config(
    accelerators: seq<Option<Accelerator>>, bootDiskKmsKey: string, diskSizeGb: int, diskType: string,
    imageType: string, kubelet: Option<Kubelet>, labels: Entries, sysctls: Option<Entries>,
    localSsdCount: int, machineType: string, metadata: Entries, minCpuPlatform: string, nodeGroup: string,
    oauthScopes: seq<string>, preemptible: bool, affinity: Option<Affinity>, sandbox: Option<string>,
    serviceAccount: string, shielded: Option<Shielded>, tags: seq<string>, taints: Option<seq<Taint>>,
    workloadMode: Option<string>)

  // `rest` stands for the fields the provider never writes.
  datatype PoolValue = PoolValue(
    name: string, autoscaling: Option<Scaling>, config: Option<Config>, initialNodeCount: int,
    locations: seq<string>, management: Option<Management>, maxPods: Option<int>, upgrade: Option<Upgrade>,
    version: string, rest: string)

  const NoConfig := Config([], "", 0, "", "", None, None, None, 0, "", None, "", "", [], false, None, None,
                           "", None, [], None, None)
  const NoPool := PoolValue("", None, None, 0, [], None, None, None, "", "")

  const RUNTIME_KEY := "sandbox.gke.io/runtime"

  // ---- generation ----

  function DesiredScaling(spec: Option<ScalingSpec>, cur: Option<Scaling>): Option<Scaling> {
    match spec
    case None => cur
    case Some(s) => Some(Scaling(BoolValue(s.autoprovisioned), BoolValue(s.enabled),
                                 Int64Value(s.maxNodes), Int64Value(s.minNodes)))
  }

  function DesiredKubelet(spec: Option<KubeletSpec>, cur: Option<Kubelet>): Option<Kubelet> {
    match spec
    case None => cur
    case Some(k) => Some(Kubelet(BoolValue(k.cpuCfsQuota), StringValue(k.cpuCfsQuotaPeriod),
                                 StringValue(k.cpuManagerPolicy)))
  }

  function DesiredAffinity(spec: Option<AffinitySpec>, cur: Option<Affinity>): Option<Affinity> {
    match spec
    case None => cur
    case Some(a) => Some(Affinity(StringValue(a.reservationType), StringValue(a.key), a.values))
  }

  function DesiredConfig(spec: Option<ConfigSpec>, cur: Option<Config>): Option<Config> {
    match spec
    case None => cur
    case Some(s) =>
      var c := cur.GetOr(NoConfig);
      Some(Config(
        if s.accelerators == [] then c.accelerators else s.accelerators,
        StringValue(s.bootDiskKmsKey), Int64Value(s.diskSizeGb), StringValue(s.diskType),
        StringValue(s.imageType), DesiredKubelet(s.kubelet, c.kubelet), s.labels,
        Overlay(s.sysctls, c.sysctls), Int64Value(s.localSsdCount), StringValue(s.machineType), s.metadata,
        StringValue(s.minCpuPlatform), StringValue(s.nodeGroup), s.oauthScopes, BoolValue(s.preemptible),
        DesiredAffinity(s.affinity, c.affinity), Overlay(s.sandbox, c.sandbox), StringValue(s.serviceAccount),
        DesiredShielded(s.shielded, c.shielded), s.tags,
        if s.taints == [] then c.taints else Some(s.taints),
        Overlay(s.workloadMode, c.workloadMode)))
  }

  predicate AutoUpgradeEnabled(spec: PoolSpec) {
    spec.management.Some? && BoolValue(spec.management.value.autoUpgrade)
  }

  /** With auto-upgrade on, the version GKE has moved to is the desired one. */
  function DesiredVersion(spec: PoolSpec, cur: string): string {
    if cur == "" || !AutoUpgradeEnabled(spec) then StringValue(spec.version) else cur
  }

  /** GenerateNodePool on a pool that held `c`. */
  function DesiredPool(name: string, spec: PoolSpec, c: PoolValue): PoolValue {
    PoolValue(name, DesiredScaling(spec.autoscaling, c.autoscaling), DesiredConfig(spec.config, c.config),
              Int64Value(spec.initialNodeCount), spec.locations, DesiredManagement(spec.management, c.management),
              Overlay(spec.maxPods, c.maxPods), DesiredUpgrade(spec.upgrade, c.upgrade),
              DesiredVersion(spec, c.version), c.rest)
  }

  // ---- comparison: strings up to case, the runtime key ignored ----

  /** strings.EqualFold, for any folding of characters. */
  predicate Fold(fold: char -> char, a: string, b: string) {
    |a| == |b| && forall i :: 0 <= i < |a| ==> fold(a[i]) == fold(b[i])
  }

  predicate FoldOption(fold: char -> char, a: Option<string>, b: Option<string>) {
    if a.Some? && b.Some? then Fold(fold, a.value, b.value) else a == b
  }

  predicate FoldList(fold: char -> char, a: seq<string>, b: seq<string>) {
    |a| == |b| && forall i :: 0 <= i < |a| ==> Fold(fold, a[i], b[i])
  }

  predicate NoEntries(m: Entries) { m.None? || m.value == map[] }

  /** A nil map equals an empty one and no other, even one whose entries are all ignored. */
  predicate FoldEntries(fold: char -> char, a: Entries, b: Entries) {
    || (NoEntries(a) && NoEntries(b))
    || (a.Some? && b.Some? &&
        forall k :: k in a.value.Keys + b.value.Keys && k != RUNTIME_KEY ==>
          k in a.value && k in b.value && Fold(fold, a.value[k], b.value[k]))
  }

  predicate FoldSysctls(fold: char -> char, a: Option<Entries>, b: Option<Entries>) {
    if a.Some? && b.Some? then FoldEntries(fold, a.value, b.value) else a == b
  }

  predicate FoldAccelerators(fold: char -> char, a: seq<Option<Accelerator>>, b: seq<Option<Accelerator>>) {
    |a| == |b| &&
    forall i :: 0 <= i < |a| ==>
      if a[i].Some? && b[i].Some? then
        a[i].value.count == b[i].value.count && Fold(fold, a[i].value.kind, b[i].value.kind)
      else a[i] == b[i]
  }

  predicate FoldKubelet(fold: char -> char, a: Option<Kubelet>, b: Option<Kubelet>) {
    if a.Some? && b.Some? then
      a.value.cpuCfsQuota == b.value.cpuCfsQuota &&
      Fold(fold, a.value.cpuCfsQuotaPeriod, b.value.cpuCfsQuotaPeriod) &&
      Fold(fold, a.value.cpuManagerPolicy, b.value.cpuManagerPolicy)
    else a == b
  }

  predicate FoldAffinity(fold: char -> char, a: Option<Affinity>, b: Option<Affinity>) {
    if a.Some? && b.Some? then
      Fold(fold, a.value.reservationType, b.value.reservationType) && Fold(fold, a.value.key, b.value.key) &&
      FoldList(fold, a.value.values, b.value.values)
    else a == b
  }

  function KeptTaints(ts: seq<Taint>): seq<Taint> {
    if ts == [] then []
    else (if ts[0].key == RUNTIME_KEY then [] else [ts[0]]) + KeptTaints(ts[1..])
  }

  predicate FoldTaintLists(fold: char -> char, a: seq<Taint>, b: seq<Taint>) {
    |a| == |b| &&
    forall i :: 0 <= i < |a| ==>
      Fold(fold, a[i].effect, b[i].effect) && Fold(fold, a[i].key, b[i].key) && Fold(fold, a[i].value, b[i].value)
  }

  predicate FoldTaints(fold: char -> char, a: Option<seq<Taint>>, b: Option<seq<Taint>>) {
    || ((a.None? || a.value == []) && (b.None? || b.value == []))
    || (a.Some? && b.Some? && FoldTaintLists(fold, KeptTaints(a.value), KeptTaints(b.value)))
  }

  /** The parts of a configuration no update can change. */
  predicate FixedConfigAlike(fold: char -> char, a: Config, b: Config) {
    && FoldAccelerators(fold, a.accelerators, b.accelerators) && Fold(fold, a.bootDiskKmsKey, b.bootDiskKmsKey)
    && a.diskSizeGb == b.diskSizeGb && Fold(fold, a.diskType, b.diskType) && FoldKubelet(fold, a.kubelet, b.kubelet)
    && FoldEntries(fold, a.labels, b.labels) && FoldSysctls(fold, a.sysctls, b.sysctls)
    && a.localSsdCount == b.localSsdCount && Fold(fold, a.machineType, b.machineType)
    && FoldEntries(fold, a.metadata, b.metadata) && Fold(fold, a.minCpuPlatform, b.minCpuPlatform)
    && Fold(fold, a.nodeGroup, b.nodeGroup) && FoldList(fold, a.oauthScopes, b.oauthScopes)
    && a.preemptible == b.preemptible && FoldAffinity(fold, a.affinity, b.affinity)
    && FoldOption(fold, a.sandbox, b.sandbox) && Fold(fold, a.serviceAccount, b.serviceAccount)
    && a.shielded == b.shielded && FoldList(fold, a.tags, b.tags) && FoldTaints(fold, a.taints, b.taints)
  }

  predicate ConfigAlike(fold: char -> char, a: Option<Config>, b: Option<Config>) {
    if a.Some? && b.Some? then
      FixedConfigAlike(fold, a.value, b.value) && Fold(fold, a.value.imageType, b.value.imageType) &&
      FoldOption(fold, a.value.workloadMode, b.value.workloadMode)
    else a == b
  }

  predicate ManagementAlike(fold: char -> char, a: Option<Management>, b: Option<Management>) {
    if a.Some? && b.Some? then
      a.value.autoRepair == b.value.autoRepair && a.value.autoUpgrade == b.value.autoUpgrade &&
      if a.value.options.Some? && b.value.options.Some? then
        Fold(fold, a.value.options.value.startTime, b.value.options.value.startTime) &&
        Fold(fold, a.value.options.value.description, b.value.options.value.description)
      else a.value.options == b.value.options
    else a == b
  }

  /** The final comparison of the whole pool. */
  predicate PoolsAlike(fold: char -> char, a: PoolValue, b: PoolValue) {
    && Fold(fold, a.name, b.name) && a.autoscaling == b.autoscaling && ConfigAlike(fold, a.config, b.config)
    && a.initialNodeCount == b.initialNodeCount && FoldList(fold, a.locations, b.locations)
    && ManagementAlike(fold, a.management, b.management) && a.maxPods == b.maxPods && a.upgrade == b.upgrade
    && Fold(fold, a.version, b.version) && a.rest == b.rest
  }

  // ---- the choice of update ----

  datatype PoolRequest =
    | SetScaling(autoscaling: Option<Scaling>)
    | SetManagement(management: Option<Management>)
    | General(locations: seq<string>, version: string, imageType: string, workloadMode: Option<string>)

  /** GenerateNodePoolUpdate. */
  function GeneralUpdate(spec: PoolSpec): PoolRequest {
    General(spec.locations, StringValue(spec.version),
            if spec.config.Some? then StringValue(spec.config.value.imageType) else "",
            if spec.config.Some? then spec.config.value.workloadMode else None)
  }

  /** The update IsUpToDate picks, `None` when the pool is up to date. */
  function Next(fold: char -> char, name: string, spec: PoolSpec, o: PoolValue): Option<PoolRequest> {
    var d := DesiredPool(name, spec, o);
    if d.autoscaling != o.autoscaling then Some(SetScaling(DesiredScaling(spec.autoscaling, None)))
    else if d.management != o.management then Some(SetManagement(DesiredManagement(spec.management, None)))
    else if !PoolsAlike(fold, d, o) then Some(GeneralUpdate(spec))
    else None
  }

  /** The provider rule: an accepted request installs exactly what it sends; an absent
      workload metadata block, and a pool without configuration, are left alone. */
  function Install(r: PoolRequest, o: PoolValue): PoolValue {
    match r
    case SetScaling(v) => o.(autoscaling := v)
    case SetManagement(v) => o.(management := v)
    case General(locations, version, imageType, mode) =>
      o.(locations := locations, version := version,
         config := if o.config.None? then None
                   else Some(o.config.value.(imageType := imageType,
                                             workloadMode := Overlay(mode, o.config.value.workloadMode))))
  }

  // ---- convergence ----

  /** The differences lie only where an update reaches: everything else compares alike. */
  predicate Settleable(fold: char -> char, name: string, spec: PoolSpec, o: PoolValue) {
    var d := DesiredPool(name, spec, o);
    && Fold(fold, name, o.name) && d.initialNodeCount == o.initialNodeCount
    && d.maxPods == o.maxPods && d.upgrade == o.upgrade
    && (d.config.Some? ==> o.config.Some? && FixedConfigAlike(fold, d.config.value, o.config.value))
  }

  /** The fields of the general update compare alike. */
  predicate GeneralAgrees(fold: char -> char, spec: PoolSpec, o: PoolValue) {
    var c := DesiredConfig(spec.config, o.config);
    && FoldList(fold, spec.locations, o.locations) && Fold(fold, DesiredVersion(spec, o.version), o.version)
    && (c.Some? && o.config.Some? ==>
          Fold(fold, c.value.imageType, o.config.value.imageType) &&
          FoldOption(fold, c.value.workloadMode, o.config.value.workloadMode))
  }

  /** How many of the two updates that go before the general one are still needed. */
  function SpecialWork(spec: PoolSpec, o: PoolValue): nat {
    (if DesiredScaling(spec.autoscaling, o.autoscaling) != o.autoscaling then 1 else 0) +
    (if DesiredManagement(spec.management, o.management) != o.management then 1 else 0)
  }

  function Work(fold: char -> char, spec: PoolSpec, o: PoolValue): nat {
    SpecialWork(spec, o) + if !GeneralAgrees(fold, spec, o) then 1 else 0
  }

  /** The two sections with an update of their own compare equal. */
  predicate SpecialsAgree(spec: PoolSpec, o: PoolValue) {
    && DesiredScaling(spec.autoscaling, o.autoscaling) == o.autoscaling
    && DesiredManagement(spec.management, o.management) == o.management
  }

  lemma AlikeByParts(fold: char -> char, name: string, spec: PoolSpec, o: PoolValue)
    requires SpecialsAgree(spec, o)
    ensures PoolsAlike(fold, DesiredPool(name, spec, o), o) <==>
            Settleable(fold, name, spec, o) && GeneralAgrees(fold, spec, o)
  {
  }

  lemma InstallKeepsFixedConfig(
    fold: char -> char, spec: Option<ConfigSpec>, c: Config, imageType: string, mode: Option<string>)
    ensures var e := c.(imageType := imageType, workloadMode := mode);
            FixedConfigAlike(fold, DesiredConfig(spec, Some(e)).value, e) ==
            FixedConfigAlike(fold, DesiredConfig(spec, Some(c)).value, c)
  {
  }

  /** No update, whatever spec it was made for, touches what updates cannot settle. */
  lemma SettleableIsKept(fold: char -> char, name: string, spec: PoolSpec, o: PoolValue, r: PoolRequest)
    ensures Settleable(fold, name, spec, Install(r, o)) == Settleable(fold, name, spec, o)
  {
    if r.General? && o.config.Some? {
      var c := o.config.value;
      InstallKeepsFixedConfig(fold, spec.config, c, r.imageType, Overlay(r.workloadMode, c.workloadMode));
    }
  }

  lemma GeneralUpdateSettles(fold: char -> char, spec: PoolSpec, o: PoolValue)
    ensures GeneralAgrees(fold, spec, Install(GeneralUpdate(spec), o))
  {
  }

  /** While the pool can be settled, each accepted update does one unit of work. */
  lemma EveryUpdateCounts(fold: char -> char, name: string, spec: PoolSpec, o: PoolValue)
    requires Settleable(fold, name, spec, o)
    ensures Next(fold, name, spec, o).None? <==> Work(fold, spec, o) == 0
    ensures Next(fold, name, spec, o).Some? ==>
            var e := Install(Next(fold, name, spec, o).value, o);
            Settleable(fold, name, spec, e) && Work(fold, spec, e) + 1 == Work(fold, spec, o)
  {
    if SpecialsAgree(spec, o) {
      AlikeByParts(fold, name, spec, o);
      GeneralUpdateSettles(fold, spec, o);
    }
    if Next(fold, name, spec, o).Some? {
      SettleableIsKept(fold, name, spec, o, Next(fold, name, spec, o).value);
    }
  }

  /** A pool that cannot be settled is never up to date. */
  lemma UnsettleableIsNeverUpToDate(fold: char -> char, name: string, spec: PoolSpec, o: PoolValue)
    requires !Settleable(fold, name, spec, o)
    ensures Next(fold, name, spec, o).Some?
  {
    if SpecialsAgree(spec, o) {
      AlikeByParts(fold, name, spec, o);
    }
  }

  /** The version the user wrote does not matter while GKE upgrades the pool itself: the
      verdict and the kind of update are the same for every version in the spec. */
  lemma AutoUpgradeIgnoresVersion(fold: char -> char, name: string, spec: PoolSpec, o: PoolValue, version: Option<string>)
    requires AutoUpgradeEnabled(spec) && o.version != ""
    ensures var a, b := Next(fold, name, spec, o), Next(fold, name, spec.(version := version), o);
            (a.None? <==> b.None?) &&
            (a.Some? && !a.value.General? ==> a == b) &&
            (a.Some? && a.value.General? ==>
               b.Some? && b.value.General? && b.value.(version := a.value.version) == a.value)
  {
    assert DesiredPool(name, spec.(version := version), o) == DesiredPool(name, spec, o);
  }

  // ---- late initialisation ----

  function LateScaling(spec: Option<ScalingSpec>, from: Option<Scaling>): Option<ScalingSpec> {
    match from
    case None => spec
    case Some(f) =>
      var s := spec.GetOr(ScalingSpec(None, None, None, None));
      Some(ScalingSpec(LateInitializeBool(s.autoprovisioned, f.autoprovisioned),
                       LateInitializeBool(s.enabled, f.enabled),
                       LateInitializeInt64(s.maxNodes, f.maxNodes), LateInitializeInt64(s.minNodes, f.minNodes)))
  }

  function LateManagement(spec: Option<ManagementSpec>, from: Option<Management>): Option<ManagementSpec> {
    match from
    case None => spec
    case Some(f) =>
      var m := spec.GetOr(ManagementSpec(None, None));
      Some(ManagementSpec(LateInitializeBool(m.autoRepair, f.autoRepair), LateInitializeBool(m.autoUpgrade, f.autoUpgrade)))
  }

  function LateUpgrade(spec: Option<UpgradeSpec>, from: Option<Upgrade>): Option<UpgradeSpec> {
    match from
    case None => spec
    case Some(f) =>
      var u := spec.GetOr(UpgradeSpec(None, None));
      Some(UpgradeSpec(LateInitializeInt64(u.maxSurge, f.maxSurge), LateInitializeInt64(u.maxUnavailable, f.maxUnavailable)))
  }

  function LateKubelet(spec: Option<KubeletSpec>, from: Option<Kubelet>): Option<KubeletSpec> {
    match from
    case None => spec
    case Some(f) =>
      var k := spec.GetOr(KubeletSpec(None, None, None));
      Some(KubeletSpec(LateInitializeBool(k.cpuCfsQuota, f.cpuCfsQuota),
                       LateInitializeString(k.cpuCfsQuotaPeriod, f.cpuCfsQuotaPeriod),
                       LateInitializeString(k.cpuManagerPolicy, f.cpuManagerPolicy)))
  }

  function LateAffinity(spec: Option<AffinitySpec>, from: Option<Affinity>): Option<AffinitySpec> {
    match from
    case None => spec
    case Some(f) =>
      var a := spec.GetOr(AffinitySpec(None, None, []));
      Some(AffinitySpec(LateInitializeString(a.reservationType, f.reservationType),
                        LateInitializeString(a.key, f.key), LateInitializeStringSlice(a.values, f.values)))
  }

  function LateShielded(spec: Option<ShieldedSpec>, from: Option<Shielded>): Option<ShieldedSpec> {
    match from
    case None => spec
    case Some(f) =>
      var s := spec.GetOr(ShieldedSpec(None, None));
      Some(ShieldedSpec(LateInitializeBool(s.integrityMonitoring, f.integrityMonitoring),
                        LateInitializeBool(s.secureBoot, f.secureBoot)))
  }

  function LateEntries(spec: Entries, from: Entries): Entries {
    if !NoEntries(spec) || NoEntries(from) then spec else from
  }

  function LateList<T>(spec: seq<T>, from: seq<T>): seq<T> {
    if |from| != 0 && |spec| == 0 then from else spec
  }

  function LateConfig(spec: Option<ConfigSpec>, from: Option<Config>): Option<ConfigSpec> {
    match from
    case None => spec
    case Some(f) =>
      var s := spec.GetOr(NoConfigSpec);
      Some(ConfigSpec(
        LateList(s.accelerators, f.accelerators), LateInitializeString(s.bootDiskKmsKey, f.bootDiskKmsKey),
        LateInitializeInt64(s.diskSizeGb, f.diskSizeGb), LateInitializeString(s.diskType, f.diskType),
        LateInitializeString(s.imageType, f.imageType), LateKubelet(s.kubelet, f.kubelet),
        LateEntries(s.labels, f.labels), Overlay(s.sysctls, f.sysctls),
        LateInitializeInt64(s.localSsdCount, f.localSsdCount), LateInitializeString(s.machineType, f.machineType),
        LateEntries(s.metadata, f.metadata), LateInitializeString(s.minCpuPlatform, f.minCpuPlatform),
        LateInitializeString(s.nodeGroup, f.nodeGroup), LateInitializeStringSlice(s.oauthScopes, f.oauthScopes),
        LateInitializeBool(s.preemptible, f.preemptible), LateAffinity(s.affinity, f.affinity),
        Overlay(s.sandbox, f.sandbox), LateInitializeString(s.serviceAccount, f.serviceAccount),
        LateShielded(s.shielded, f.shielded), LateInitializeStringSlice(s.tags, f.tags),
        LateList(s.taints, f.taints.GetOr([])), Overlay(s.workloadMode, f.workloadMode)))
  }

  const NoConfigSpec := ConfigSpec([], None, None, None, None, None, None, None, None, None, None, None, None,
                                   [], None, None, None, None, None, [], [], None)

  /** LateInitializeSpec. */
  function LateInit(spec: PoolSpec, o: PoolValue): PoolSpec {
    PoolSpec(LateScaling(spec.autoscaling, o.autoscaling), LateConfig(spec.config, o.config),
             LateInitializeInt64(spec.initialNodeCount, o.initialNodeCount),
             LateInitializeStringSlice(spec.locations, o.locations),
             LateManagement(spec.management, o.management), Overlay(spec.maxPods, o.maxPods),
             LateUpgrade(spec.upgrade, o.upgrade), LateInitializeString(spec.version, o.version))
  }

  lemma ConfigSettles(spec: Option<ConfigSpec>, o: Option<Config>)
    ensures LateConfig(LateConfig(spec, o), o) == LateConfig(spec, o)
  {
  }

  lemma LateInitSettles(spec: PoolSpec, o: PoolValue)
    ensures LateInit(LateInit(spec, o), o) == LateInit(spec, o)
  {
    ConfigSettles(spec.config, o.config);
  }

  lemma GeneralUpdateLeavesNothingToFill(spec: Option<ConfigSpec>, c: Config)
    requires LateConfig(spec, Some(c)) == spec
    ensures spec.Some? &&
            LateConfig(spec, Some(c.(imageType := StringValue(spec.value.imageType),
                                     workloadMode := Overlay(spec.value.workloadMode, c.workloadMode)))) == spec
  {
  }

  lemma ScalingLeavesNothingToFill(spec: Option<ScalingSpec>, o: Option<Scaling>)
    requires LateScaling(spec, o) == spec && DesiredScaling(spec, o) != o
    ensures LateScaling(spec, DesiredScaling(spec, None)) == spec
  {
  }

  lemma ManagementLeavesNothingToFill(spec: Option<ManagementSpec>, o: Option<Management>)
    requires LateManagement(spec, o) == spec && DesiredManagement(spec, o) != o
    ensures LateManagement(spec, DesiredManagement(spec, None)) == spec
  {
  }

  lemma GeneralKeepsSpecSettled(spec: PoolSpec, o: PoolValue)
    requires LateInit(spec, o) == spec
    ensures LateInit(spec, Install(GeneralUpdate(spec), o)) == spec
  {
    if o.config.Some? {
      GeneralUpdateLeavesNothingToFill(spec.config, o.config.value);
    }
  }

  /** An update leaves late initialisation nothing new to fill in: the spec of the first
      observation is the spec of every later one. */
  lemma UpdateKeepsSpecSettled(fold: char -> char, name: string, spec: PoolSpec, o: PoolValue)
    requires LateInit(spec, o) == spec && Next(fold, name, spec, o).Some?
    ensures LateInit(spec, Install(Next(fold, name, spec, o).value, o)) == spec
  {
    var d := DesiredPool(name, spec, o);
    if d.autoscaling != o.autoscaling {
      ScalingLeavesNothingToFill(spec.autoscaling, o.autoscaling);
    } else if d.management != o.management {
      ManagementLeavesNothingToFill(spec.management, o.management);
    } else {
      GeneralKeepsSpecSettled(spec, o);
    }
  }

  // ---- rounds of observe, late-initialise, compare, update ----

  /** The spec and the pool after `n` rounds in which GKE accepts every update. */
  function Rounds(fold: char -> char, name: string, spec: PoolSpec, o: PoolValue, n: nat): (PoolSpec, PoolValue)
    decreases n
  {
    var late := LateInit(spec, o);
    if n == 0 then (late, o)
    else
      match Next(fold, name, late, o)
      case None => (late, o)
      case Some(r) => Rounds(fold, name, late, Install(r, o), n - 1)
  }

  lemma RoundStep(fold: char -> char, name: string, spec: PoolSpec, o: PoolValue)
    requires LateInit(spec, o) == spec
    ensures Next(fold, name, spec, o).None? <==> Settleable(fold, name, spec, o) && Work(fold, spec, o) == 0
    ensures Next(fold, name, spec, o).Some? ==>
            var e := Install(Next(fold, name, spec, o).value, o);
            LateInit(spec, e) == spec &&
            (Settleable(fold, name, spec, e) <==> Settleable(fold, name, spec, o)) &&
            (Settleable(fold, name, spec, o) ==> Work(fold, spec, e) + 1 == Work(fold, spec, o))
  {
    if Settleable(fold, name, spec, o) {
      EveryUpdateCounts(fold, name, spec, o);
    } else {
      UnsettleableIsNeverUpToDate(fold, name, spec, o);
    }
    if Next(fold, name, spec, o).Some? {
      SettleableIsKept(fold, name, spec, o, Next(fold, name, spec, o).value);
      UpdateKeepsSpecSettled(fold, name, spec, o);
    }
  }

  /** From a settled spec the rounds end up to date exactly when the pool can be settled
      and there are as many of them as there is work. */
  lemma {:induction false} SettledRoundsConverge(fold: char -> char, name: string, spec: PoolSpec, o: PoolValue, n: nat)
    requires LateInit(spec, o) == spec
    ensures Rounds(fold, name, spec, o, n).0 == spec
    ensures Next(fold, name, spec, Rounds(fold, name, spec, o, n).1).None? <==>
            Settleable(fold, name, spec, o) && n >= Work(fold, spec, o)
    decreases n
  {
    RoundStep(fold, name, spec, o);
    if n > 0 && Next(fold, name, spec, o).Some? {
      SettledRoundsConverge(fold, name, spec, Install(Next(fold, name, spec, o).value, o), n - 1);
    }
  }

  /** Convergence of the whole loop, late initialisation included: whatever the user wrote
      and whatever the pool was, three or more rounds end up to date if and only if the
      late-initialised spec differs from the pool only where an update reaches. */
  lemma ThreeUpdatesSuffice(fold: char -> char, name: string, spec: PoolSpec, o: PoolValue, n: nat)
    requires n >= 3
    ensures var (s, e) := Rounds(fold, name, spec, o, n);
            s == LateInit(spec, o) &&
            (Next(fold, name, s, e).None? <==> Settleable(fold, name, LateInit(spec, o), o))
  {
    var late := LateInit(spec, o);
    LateInitSettles(spec, o);
    assert Rounds(fold, name, spec, o, n) == Rounds(fold, name, late, o, n);
    SettledRoundsConverge(fold, name, late, o, n);
  }

  // ---- the version over the loop ----

  /** The version is not left alone. A general update carries the version of the spec,
      auto-upgrade or not, so the update picked moves the pool off its version exactly when
      the spec has another one, scaling and management agree, and anything else differs. */
  lemma UpdateMovesVersionIff(fold: char -> char, name: string, spec: PoolSpec, o: PoolValue)
    ensures Next(fold, name, spec, o).Some? && Install(Next(fold, name, spec, o).value, o).version != o.version <==>
            SpecialsAgree(spec, o) && StringValue(spec.version) != o.version &&
            !(Settleable(fold, name, spec, o) && GeneralAgrees(fold, spec, o))
  {
    if SpecialsAgree(spec, o) {
      AlikeByParts(fold, name, spec, o);
    }
  }

  lemma SpecialUpdateStep(fold: char -> char, name: string, spec: PoolSpec, o: PoolValue)
    requires !SpecialsAgree(spec, o)
    ensures Next(fold, name, spec, o).Some?
    ensures var e := Install(Next(fold, name, spec, o).value, o);
            e.version == o.version && SpecialWork(spec, e) + 1 == SpecialWork(spec, o) &&
            Settleable(fold, name, spec, e) == Settleable(fold, name, spec, o) &&
            GeneralAgrees(fold, spec, e) == GeneralAgrees(fold, spec, o)
  {
    SettleableIsKept(fold, name, spec, o, Next(fold, name, spec, o).value);
  }

  /** The version after any number of rounds from a settled spec: the pool's own until the
      scaling and management updates are through, and from then on the spec's, unless
      nothing else differs. A pool that cannot be settled is moved back to the spec's
      version whatever version GKE upgrades it to. */
  lemma {:induction false} SettledRoundsMoveVersion(
    fold: char -> char, name: string, spec: PoolSpec, o: PoolValue, n: nat)
    requires LateInit(spec, o) == spec
    ensures Rounds(fold, name, spec, o, n).1.version ==
            if n > SpecialWork(spec, o) && !(Settleable(fold, name, spec, o) && GeneralAgrees(fold, spec, o))
            then StringValue(spec.version) else o.version
    decreases n
  {
    RoundStep(fold, name, spec, o);
    if n > 0 && Next(fold, name, spec, o).Some? {
      SettledRoundsMoveVersion(fold, name, spec, Install(Next(fold, name, spec, o).value, o), n - 1);
      if SpecialsAgree(spec, o) {
        UpdateMovesVersionIff(fold, name, spec, o);
      } else {
        SpecialUpdateStep(fold, name, spec, o);
      }
    }
  }

  /** The same for every spec the user may write: late initialisation fills in the version
      first observed, and what GKE upgrades the pool to later is undone under the same
      condition. */
  lemma RoundsMoveVersion(fold: char -> char, name: string, spec: PoolSpec, o: PoolValue, n: nat)
    ensures var late := LateInit(spec, o);
            Rounds(fold, name, spec, o, n).1.version ==
            if n > SpecialWork(late, o) && !(Settleable(fold, name, late, o) && GeneralAgrees(fold, late, o))
            then spec.version.GetOr(o.version) else o.version
  {
    LateInitSettles(spec, o);
    assert Rounds(fold, name, spec, o, n) == Rounds(fold, name, LateInit(spec, o), o, n);
    SettledRoundsMoveVersion(fold, name, LateInit(spec, o), o, n);
  }

  /** With auto-upgrade on and another zone asked for, one update takes the pool from the
      version GKE upgraded it to back to the one first observed. */
  lemma AutoUpgradeMayBeUndone(fold: char -> char, name: string)
    ensures var management := ManagementSpec(None, Some(true));
            var spec := PoolSpec(None, None, None, ["zone"], Some(management), None, None, Some("1.19"));
            var o := PoolValue(name, None, None, 0, [], Some(Management(false, true, None)), None, None, "1.20", "");
            AutoUpgradeEnabled(spec) && LateInit(spec, o) == spec && Settleable(fold, name, spec, o) &&
            Rounds(fold, name, spec, o, 1).1.version == "1.19"
  {
    var management := ManagementSpec(None, Some(true));
    var spec := PoolSpec(None, None, None, ["zone"], Some(management), None, None, Some("1.19"));
    var o := PoolValue(name, None, None, 0, [], Some(Management(false, true, None)), None, None, "1.20", "");
    SettledRoundsMoveVersion(fold, name, spec, o, 1);
  }
}
