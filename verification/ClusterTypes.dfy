/** The GKE cluster as the provider sees it: the spec side (ClusterParameters,
    apis/container/v1beta2/cluster_types.go) and the API side (container.Cluster): the
    node pools, the sections the update protocol compares, and under `fixed` the fields
    that are generated but never compared.

    A block that holds a single field is that field: `*Autopilot` is `Option<bool>`. */
module ClusterTypes {
  import opened Pointers

  // ---- spec side ----

  datatype CloudRunSpec = CloudRunSpec(disabled: bool, loadBalancerType: Option<string>)

  datatype AddonsSpec = AddonsSpec(
    cloudRun: Option<CloudRunSpec>,
    configConnector: Option<bool>,
    dnsCache: Option<bool>,
    persistentDiskCsi: Option<bool>,
    horizontalPodAutoscaling: Option<bool>,
    httpLoadBalancing: Option<bool>,
    dashboard: Option<bool>,
    networkPolicy: Option<bool>)

  datatype ManagementSpec = ManagementSpec(autoRepair: Option<bool>, autoUpgrade: Option<bool>)

  datatype ShieldedSpec = ShieldedSpec(integrityMonitoring: Option<bool>, secureBoot: Option<bool>)

  datatype UpgradeSpec = UpgradeSpec(maxSurge: Option<int>, maxUnavailable: Option<int>)

  datatype LimitSpec = LimitSpec(maximum: Option<int>, minimum: Option<int>, resourceType: Option<string>)

  datatype PoolDefaultsSpec = PoolDefaultsSpec(
    bootDiskKmsKey: Option<string>,
    diskSizeGb: Option<int>,
    diskType: Option<string>,
    management: Option<ManagementSpec>,
    minCpuPlatform: Option<string>,
    oauthScopes: seq<string>,
    serviceAccount: Option<string>,
    shielded: Option<ShieldedSpec>,
    upgrade: Option<UpgradeSpec>)

  datatype AutoscalingSpec = AutoscalingSpec(
    locations: seq<string>,
    defaults: Option<PoolDefaultsSpec>,
    autoprovisioning: Option<bool>,
    limits: seq<Option<LimitSpec>>)

  datatype EncryptionSpec = EncryptionSpec(keyName: Option<string>, state: Option<string>)

  datatype TimeWindow = TimeWindow(startTime: string, endTime: string)

  datatype RecurringSpec = RecurringSpec(recurrence: Option<string>, window: Option<TimeWindow>)

  // A nil exclusions map leaves the observed exclusions alone; an empty one clears them.
  datatype MaintenanceSpec = MaintenanceSpec(
    daily: Option<string>,
    exclusions: Option<map<string, TimeWindow>>,
    recurring: Option<RecurringSpec>)

  datatype CidrSpec = CidrSpec(cidr: string, displayName: Option<string>)

  datatype MasterNetworksSpec = MasterNetworksSpec(cidrBlocks: seq<Option<CidrSpec>>, enabled: Option<bool>)

  datatype NetworkConfigSpec = NetworkConfigSpec(
    datapathProvider: Option<string>,
    snatDisabled: Option<bool>,
    intraNodeVisibility: Option<bool>,
    privateIpv6Access: Option<string>)

  datatype NetworkPolicySpec = NetworkPolicySpec(enabled: Option<bool>, provider: Option<string>)

  datatype PubSub = PubSub(enabled: bool, topic: string)

  datatype PrivateClusterSpec = PrivateClusterSpec(
    privateEndpoint: Option<bool>,
    privateNodes: Option<bool>,
    globalAccess: Option<bool>,
    masterCidr: Option<string>)

  datatype UsageExportSpec = UsageExportSpec(
    bigquery: Option<string>,
    consumptionMetering: Option<bool>,
    egressMetering: Option<bool>)

  datatype GroupsSpec = GroupsSpec(enabled: Option<bool>, securityGroup: Option<string>)

  datatype IpAllocationSpec = IpAllocationSpec(
    clusterCidr: Option<string>, clusterRange: Option<string>, createSubnetwork: Option<bool>,
    nodeCidr: Option<string>, servicesCidr: Option<string>, servicesRange: Option<string>,
    subnetworkName: Option<string>, tpuCidr: Option<string>, useIpAliases: Option<bool>, useRoutes: Option<bool>)

  datatype MasterAuthSpec = MasterAuthSpec(username: Option<string>, clientCertificate: Option<bool>)

  datatype FixedSpec = FixedSpec(
    clusterIpv4Cidr: Option<string>, description: Option<string>, kubernetesAlpha: Option<bool>,
    tpu: Option<bool>, initialVersion: Option<string>, labelFingerprint: Option<string>,
    network: Option<string>, subnetwork: Option<string>, groups: Option<GroupsSpec>,
    confidentialNodes: Option<bool>, maxPods: Option<int>, ipAllocation: Option<IpAllocationSpec>,
    masterAuth: Option<MasterAuthSpec>)

  datatype ClusterParameters = ClusterParameters(
    addons: Option<AddonsSpec>,
    autopilot: Option<bool>,
    autoscaling: Option<AutoscalingSpec>,
    binaryAuthorization: Option<bool>,
    encryption: Option<EncryptionSpec>,
    legacyAbac: Option<bool>,
    locations: seq<string>,
    loggingService: Option<string>,
    maintenance: Option<MaintenanceSpec>,
    masterNetworks: Option<MasterNetworksSpec>,
    monitoringService: Option<string>,
    networkConfig: Option<NetworkConfigSpec>,
    networkPolicy: Option<NetworkPolicySpec>,
    notification: Option<PubSub>,
    privateCluster: Option<PrivateClusterSpec>,
    releaseChannel: Option<string>,
    resourceLabels: map<string, string>,
    usageExport: Option<UsageExportSpec>,
    verticalPodAutoscaling: Option<bool>,
    workloadIdentity: Option<string>,
    fixed: FixedSpec)

  // ---- API side ----

  // `forceSend` is ForceSendFields: instructions to the JSON encoder, never stored by GKE.
  datatype CloudRun = CloudRun(disabled: bool, loadBalancerType: string, forceSend: seq<string>)

  datatype Addon = Addon(flag: bool, forceSend: seq<string>)

  datatype Addons = Addons(
    cloudRun: Option<CloudRun>,
    configConnector: Option<Addon>,
    dnsCache: Option<Addon>,
    persistentDiskCsi: Option<Addon>,
    horizontalPodAutoscaling: Option<Addon>,
    httpLoadBalancing: Option<Addon>,
    dashboard: Option<Addon>,
    networkPolicy: Option<Addon>)

  datatype UpgradeOptions = UpgradeOptions(startTime: string, description: string)

  datatype Management = Management(autoRepair: bool, autoUpgrade: bool, options: Option<UpgradeOptions>)

  datatype Shielded = Shielded(integrityMonitoring: bool, secureBoot: bool)

  datatype Upgrade = Upgrade(maxSurge: int, maxUnavailable: int)

  datatype Limit = Limit(maximum: int, minimum: int, resourceType: string)

  datatype PoolDefaults = PoolDefaults(
    bootDiskKmsKey: string,
    diskSizeGb: int,
    diskType: string,
    management: Option<Management>,
    minCpuPlatform: string,
    oauthScopes: seq<string>,
    serviceAccount: string,
    shielded: Option<Shielded>,
    upgrade: Option<Upgrade>)

  datatype Autoscaling = Autoscaling(
    locations: seq<string>,
    defaults: Option<PoolDefaults>,
    autoprovisioning: bool,
    limits: seq<Option<Limit>>)

  datatype Encryption = Encryption(keyName: string, state: string)

  datatype Daily = Daily(startTime: string, duration: string)

  datatype Recurring = Recurring(recurrence: string, window: Option<TimeWindow>)

  datatype Window = Window(daily: Option<Daily>, exclusions: map<string, TimeWindow>, recurring: Option<Recurring>)

  datatype Maintenance = Maintenance(resourceVersion: string, window: Option<Window>)

  datatype Cidr = Cidr(cidr: string, displayName: string)

  datatype MasterNetworks = MasterNetworks(cidrBlocks: seq<Option<Cidr>>, enabled: bool)

  datatype NetworkConfig = NetworkConfig(
    datapathProvider: string,
    snatDisabled: Option<bool>,
    intraNodeVisibility: bool,
    privateIpv6Access: string,
    network: string,
    subnetwork: string)

  datatype NetworkPolicy = NetworkPolicy(enabled: bool, provider: string)

  datatype Notification = Notification(pubsub: Option<PubSub>)

  datatype PrivateCluster = PrivateCluster(
    privateEndpoint: bool,
    privateNodes: bool,
    globalAccess: Option<bool>,
    masterCidr: string,
    peeringName: string,
    privateEndpointAddress: string,
    publicEndpointAddress: string)

  datatype UsageExport = UsageExport(
    bigquery: Option<string>,
    consumptionMetering: Option<bool>,
    egressMetering: bool)

  datatype Pool = Pool(name: string, initialNodeCount: int)

  datatype Groups = Groups(enabled: bool, securityGroup: string)

  // `rest` stands for the fields the provider never writes.
  datatype IpAllocation = IpAllocation(
    clusterCidr: string, clusterRange: string, createSubnetwork: bool, nodeCidr: string, servicesCidr: string,
    servicesRange: string, subnetworkName: string, tpuCidr: string, useIpAliases: bool, useRoutes: bool, rest: string)

  datatype MasterAuth = MasterAuth(username: string, clientCertificate: Option<bool>, rest: string)

  datatype Fixed = Fixed(
    clusterIpv4Cidr: string, description: string, kubernetesAlpha: bool, tpu: bool, initialVersion: string,
    labelFingerprint: string, network: string, subnetwork: string, groups: Option<Groups>,
    confidentialNodes: Option<bool>, maxPods: Option<int>, ipAllocation: Option<IpAllocation>,
    masterAuth: Option<MasterAuth>)

  /** The value of a container.Cluster. */
  datatype ClusterValue = ClusterValue(
    name: string,
    nodePools: seq<Option<Pool>>,
    addons: Option<Addons>,
    autopilot: Option<bool>,
    autoscaling: Option<Autoscaling>,
    binaryAuthorization: Option<bool>,
    encryption: Option<Encryption>,
    legacyAbac: Option<bool>,
    locations: seq<string>,
    loggingService: string,
    maintenance: Option<Maintenance>,
    masterNetworks: Option<MasterNetworks>,
    monitoringService: string,
    networkConfig: Option<NetworkConfig>,
    networkPolicy: Option<NetworkPolicy>,
    notification: Option<Notification>,
    privateCluster: Option<PrivateCluster>,
    releaseChannel: Option<string>,
    resourceLabels: map<string, string>,
    usageExport: Option<UsageExport>,
    verticalPodAutoscaling: Option<bool>,
    workloadIdentity: Option<string>,
    fixed: Fixed)

  // ---- Go zero values, where the generators start from ----

  const NoAddons := Addons(None, None, None, None, None, None, None, None)
  const NoPoolDefaults := PoolDefaults("", 0, "", None, "", [], "", None, None)
  const NoAutoscaling := Autoscaling([], None, false, [])
  const NoWindow := Window(None, map[], None)
  const NoMaintenance := Maintenance("", None)
  const NoMasterNetworks := MasterNetworks([], false)
  const NoNetworkConfig := NetworkConfig("", None, false, "", "", "")
  const NoPrivateCluster := PrivateCluster(false, false, None, "", "", "", "")
  const NoUsageExport := UsageExport(None, None, false)
  const NoIpAllocation := IpAllocation("", "", false, "", "", "", "", "", false, false, "")
  const NoFixed := Fixed("", "", false, false, "", "", "", "", None, None, None, None, None)
  const NoCluster := ClusterValue("", [], None, None, None, None, None, None, [], "", None, None, "",
                                  None, None, None, None, None, map[], None, None, None, NoFixed)

  const BOOTSTRAP := "crossplane-bootstrap"
}
