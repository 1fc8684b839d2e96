/** What each section generator of pkg/clients/cluster/cluster.go leaves in its section,
    as a function of the spec block and of what the section held before.

    A block absent from the spec leaves the section alone. A block present in the spec
    overwrites the fields it knows and keeps the fields only GKE writes. */
module ClusterSections {
  import opened Pointers
  import opened ClusterTypes

  /** A one-field block: the spec's value if it has one. */
  function Overlay<T>(spec: Option<T>, cur: Option<T>): Option<T> {
    if spec.Some? then spec else cur
  }

  function DesiredAddon(spec: Option<bool>, cur: Option<Addon>, field: string): Option<Addon> {
    if spec.Some? then Some(Addon(spec.value, [field])) else cur
  }

  function DesiredCloudRun(spec: Option<CloudRunSpec>, cur: Option<CloudRun>): Option<CloudRun> {
    match spec
    case None => cur
    case Some(r) => Some(CloudRun(r.disabled, StringValue(r.loadBalancerType), ["Disabled", "LoadBalancerType"]))
  }

  function DesiredAddons(spec: Option<AddonsSpec>, cur: Option<Addons>): Option<Addons> {
    match spec
    case None => cur
    case Some(a) =>
      var c := cur.GetOr(NoAddons);
      Some(Addons(
        DesiredCloudRun(a.cloudRun, c.cloudRun),
        DesiredAddon(a.configConnector, c.configConnector, "Enabled"),
        DesiredAddon(a.dnsCache, c.dnsCache, "Enabled"),
        DesiredAddon(a.persistentDiskCsi, c.persistentDiskCsi, "Enabled"),
        DesiredAddon(a.horizontalPodAutoscaling, c.horizontalPodAutoscaling, "Disabled"),
        DesiredAddon(a.httpLoadBalancing, c.httpLoadBalancing, "Disabled"),
        DesiredAddon(a.dashboard, c.dashboard, "Disabled"),
        DesiredAddon(a.networkPolicy, c.networkPolicy, "Disabled")))
  }

  function DesiredManagement(spec: Option<ManagementSpec>, cur: Option<Management>): Option<Management> {
    match spec
    case None => cur
    case Some(m) => Some(Management(BoolValue(m.autoRepair), BoolValue(m.autoUpgrade),
                                    if cur.Some? then cur.value.options else None))
  }

  function DesiredShielded(spec: Option<ShieldedSpec>, cur: Option<Shielded>): Option<Shielded> {
    match spec
    case None => cur
    case Some(s) => Some(Shielded(BoolValue(s.integrityMonitoring), BoolValue(s.secureBoot)))
  }

  function DesiredUpgrade(spec: Option<UpgradeSpec>, cur: Option<Upgrade>): Option<Upgrade> {
    match spec
    case None => cur
    case Some(u) => Some(Upgrade(Int64Value(u.maxSurge), Int64Value(u.maxUnavailable)))
  }

  // The disk type is late-initialised but never generated.
  function DesiredPoolDefaults(spec: Option<PoolDefaultsSpec>, cur: Option<PoolDefaults>): Option<PoolDefaults> {
    match spec
    case None => cur
    case Some(d) =>
      var c := cur.GetOr(NoPoolDefaults);
      Some(PoolDefaults(
        StringValue(d.bootDiskKmsKey), Int64Value(d.diskSizeGb), c.diskType,
        DesiredManagement(d.management, c.management),
        StringValue(d.minCpuPlatform), d.oauthScopes, StringValue(d.serviceAccount),
        DesiredShielded(d.shielded, c.shielded),
        DesiredUpgrade(d.upgrade, c.upgrade)))
  }

  function LimitOf(l: Option<LimitSpec>): Option<Limit> {
    match l
    case None => None
    case Some(v) => Some(Limit(Int64Value(v.maximum), Int64Value(v.minimum), StringValue(v.resourceType)))
  }

  function DesiredLimits(spec: seq<Option<LimitSpec>>, cur: seq<Option<Limit>>): seq<Option<Limit>> {
    if spec == [] then cur else seq(|spec|, i requires 0 <= i < |spec| => LimitOf(spec[i]))
  }

  function DesiredAutoscaling(spec: Option<AutoscalingSpec>, cur: Option<Autoscaling>): Option<Autoscaling> {
    match spec
    case None => cur
    case Some(a) =>
      var c := cur.GetOr(NoAutoscaling);
      Some(Autoscaling(a.locations, DesiredPoolDefaults(a.defaults, c.defaults),
                       BoolValue(a.autoprovisioning), DesiredLimits(a.limits, c.limits)))
  }

  function DesiredEncryption(spec: Option<EncryptionSpec>, cur: Option<Encryption>): Option<Encryption> {
    match spec
    case None => cur
    case Some(e) => Some(Encryption(StringValue(e.keyName), StringValue(e.state)))
  }

  function DesiredDaily(spec: Option<string>, cur: Option<Daily>): Option<Daily> {
    match spec
    case None => cur
    case Some(start) => Some(Daily(start, if cur.Some? then cur.value.duration else ""))
  }

  function DesiredRecurring(spec: Option<RecurringSpec>, cur: Option<Recurring>): Option<Recurring> {
    match spec
    case None => cur
    case Some(r) =>
      var c := cur.GetOr(Recurring("", None));
      Some(Recurring(r.recurrence.GetOr(c.recurrence), Overlay(r.window, c.window)))
  }

  function DesiredWindow(spec: MaintenanceSpec, cur: Window): Window {
    Window(DesiredDaily(spec.daily, cur.daily),
           spec.exclusions.GetOr(cur.exclusions),
           DesiredRecurring(spec.recurring, cur.recurring))
  }

  function DesiredMaintenance(spec: Option<MaintenanceSpec>, cur: Option<Maintenance>): Option<Maintenance> {
    match spec
    case None => cur
    case Some(m) =>
      var c := cur.GetOr(NoMaintenance);
      Some(Maintenance(c.resourceVersion, Some(DesiredWindow(m, c.window.GetOr(NoWindow)))))
  }

  function CidrOf(b: Option<CidrSpec>): Option<Cidr> {
    match b
    case None => None
    case Some(v) => Some(Cidr(v.cidr, StringValue(v.displayName)))
  }

  function DesiredCidrs(spec: seq<Option<CidrSpec>>, cur: seq<Option<Cidr>>): seq<Option<Cidr>> {
    if spec == [] then cur else seq(|spec|, i requires 0 <= i < |spec| => CidrOf(spec[i]))
  }

  function DesiredMasterNetworks(spec: Option<MasterNetworksSpec>, cur: Option<MasterNetworks>): Option<MasterNetworks> {
    match spec
    case None => cur
    case Some(m) => Some(MasterNetworks(DesiredCidrs(m.cidrBlocks, cur.GetOr(NoMasterNetworks).cidrBlocks),
                                        BoolValue(m.enabled)))
  }

  function DesiredNetworkConfig(spec: Option<NetworkConfigSpec>, cur: Option<NetworkConfig>): Option<NetworkConfig> {
    match spec
    case None => cur
    case Some(n) =>
      var c := cur.GetOr(NoNetworkConfig);
      Some(NetworkConfig(StringValue(n.datapathProvider), Overlay(n.snatDisabled, c.snatDisabled),
                         BoolValue(n.intraNodeVisibility), StringValue(n.privateIpv6Access),
                         c.network, c.subnetwork))
  }

  function DesiredNetworkPolicy(spec: Option<NetworkPolicySpec>, cur: Option<NetworkPolicy>): Option<NetworkPolicy> {
    match spec
    case None => cur
    case Some(p) => Some(NetworkPolicy(BoolValue(p.enabled), StringValue(p.provider)))
  }

  // Written only where the cluster has no Pub/Sub block yet: an existing one is never changed.
  function DesiredNotification(spec: Option<PubSub>, cur: Option<Notification>): Option<Notification> {
    if spec.None? || (cur.Some? && cur.value.pubsub.Some?) then cur else Some(Notification(spec))
  }

  function DesiredPrivateCluster(spec: Option<PrivateClusterSpec>, cur: Option<PrivateCluster>): Option<PrivateCluster> {
    match spec
    case None => cur
    case Some(p) =>
      var c := cur.GetOr(NoPrivateCluster);
      Some(PrivateCluster(BoolValue(p.privateEndpoint), BoolValue(p.privateNodes),
                          Overlay(p.globalAccess, c.globalAccess), StringValue(p.masterCidr),
                          c.peeringName, c.privateEndpointAddress, c.publicEndpointAddress))
  }

  function DesiredUsageExport(spec: Option<UsageExportSpec>, cur: Option<UsageExport>): Option<UsageExport> {
    match spec
    case None => cur
    case Some(u) =>
      var c := cur.GetOr(NoUsageExport);
      Some(UsageExport(Overlay(u.bigquery, c.bigquery), Overlay(u.consumptionMetering, c.consumptionMetering),
                       BoolValue(u.egressMetering)))
  }

  function DesiredGroups(spec: Option<GroupsSpec>, cur: Option<Groups>): Option<Groups> {
    match spec
    case None => cur
    case Some(g) => Some(Groups(BoolValue(g.enabled), StringValue(g.securityGroup)))
  }

  function DesiredIpAllocation(spec: Option<IpAllocationSpec>, cur: Option<IpAllocation>): Option<IpAllocation> {
    match spec
    case None => cur
    case Some(p) => Some(IpAllocation(
      StringValue(p.clusterCidr), StringValue(p.clusterRange), BoolValue(p.createSubnetwork),
      StringValue(p.nodeCidr), StringValue(p.servicesCidr), StringValue(p.servicesRange),
      StringValue(p.subnetworkName), StringValue(p.tpuCidr), BoolValue(p.useIpAliases), BoolValue(p.useRoutes),
      cur.GetOr(NoIpAllocation).rest))
  }

  function DesiredMasterAuth(spec: Option<MasterAuthSpec>, cur: Option<MasterAuth>): Option<MasterAuth> {
    match spec
    case None => cur
    case Some(a) =>
      var c := cur.GetOr(MasterAuth("", None, ""));
      Some(MasterAuth(StringValue(a.username), Overlay(a.clientCertificate, c.clientCertificate), c.rest))
  }

  function DesiredFixed(s: FixedSpec, c: Fixed): Fixed {
    Fixed(StringValue(s.clusterIpv4Cidr), StringValue(s.description), BoolValue(s.kubernetesAlpha),
          BoolValue(s.tpu), StringValue(s.initialVersion), StringValue(s.labelFingerprint),
          StringValue(s.network), StringValue(s.subnetwork), DesiredGroups(s.groups, c.groups),
          Overlay(s.confidentialNodes, c.confidentialNodes), Overlay(s.maxPods, c.maxPods),
          DesiredIpAllocation(s.ipAllocation, c.ipAllocation), DesiredMasterAuth(s.masterAuth, c.masterAuth))
  }

  /** GenerateCluster on a cluster that held `c`. Node pools are not generated. */
  function Desired(name: string, spec: ClusterParameters, c: ClusterValue): ClusterValue {
    ClusterValue(
      name,
      c.nodePools,
      DesiredAddons(spec.addons, c.addons),
      Overlay(spec.autopilot, c.autopilot),
      DesiredAutoscaling(spec.autoscaling, c.autoscaling),
      Overlay(spec.binaryAuthorization, c.binaryAuthorization),
      DesiredEncryption(spec.encryption, c.encryption),
      Overlay(spec.legacyAbac, c.legacyAbac),
      spec.locations,
      StringValue(spec.loggingService),
      DesiredMaintenance(spec.maintenance, c.maintenance),
      DesiredMasterNetworks(spec.masterNetworks, c.masterNetworks),
      StringValue(spec.monitoringService),
      DesiredNetworkConfig(spec.networkConfig, c.networkConfig),
      DesiredNetworkPolicy(spec.networkPolicy, c.networkPolicy),
      DesiredNotification(spec.notification, c.notification),
      DesiredPrivateCluster(spec.privateCluster, c.privateCluster),
      Overlay(spec.releaseChannel, c.releaseChannel),
      spec.resourceLabels,
      DesiredUsageExport(spec.usageExport, c.usageExport),
      Overlay(spec.verticalPodAutoscaling, c.verticalPodAutoscaling),
      Overlay(spec.workloadIdentity, c.workloadIdentity),
      DesiredFixed(spec.fixed, c.fixed))
  }

  // ---- generating twice is generating once, from any starting section ----

  lemma AutoscalingSettles(spec: Option<AutoscalingSpec>, cur: Option<Autoscaling>)
    ensures DesiredAutoscaling(spec, DesiredAutoscaling(spec, cur)) == DesiredAutoscaling(spec, cur)
  {
    if spec.Some? {
      var once := DesiredAutoscaling(spec, cur).value;
      assert DesiredPoolDefaults(spec.value.defaults, once.defaults) == once.defaults;
    }
  }

  lemma MaintenanceSettles(spec: Option<MaintenanceSpec>, cur: Option<Maintenance>)
    ensures DesiredMaintenance(spec, DesiredMaintenance(spec, cur)) == DesiredMaintenance(spec, cur)
  {
  }

  lemma FixedSettles(s: FixedSpec, c: Fixed)
    ensures DesiredFixed(s, DesiredFixed(s, c)) == DesiredFixed(s, c)
  {
  }

  /** Every generator is idempotent from any starting cluster. */
  lemma GenerateSettles(name: string, spec: ClusterParameters, c: ClusterValue)
    ensures Desired(name, spec, Desired(name, spec, c)) == Desired(name, spec, c)
  {
    AutoscalingSettles(spec.autoscaling, c.autoscaling);
    MaintenanceSettles(spec.maintenance, c.maintenance);
    FixedSettles(spec.fixed, c.fixed);
  }
}
