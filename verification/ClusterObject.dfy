/** The container.Cluster object and the code that writes it: the section generators,
    AddNodePoolForCreate and IsUpToDate (pkg/clients/cluster/cluster.go). The object holds
    its fields as one record; each generator changes one section of it and no other. */
module ClusterObject {
  import opened Pointers
  import opened ClusterTypes
  import opened ClusterSections
  import opened ClusterUpdate

  class Cluster {
    var value: ClusterValue

    /** A deep copy of a cluster; `Cluster(NoCluster)` is the empty cluster. */
    constructor (v: ClusterValue)
      ensures value == v
    {
      value := v;
    }

    method AddNodePoolForCreate()
      modifies this
      ensures value == old(value).(nodePools := [Some(Pool(BOOTSTRAP, 0))])
    {
      value := value.(nodePools := [Some(Pool(BOOTSTRAP, 0))]);
    }

    method GenerateAddonsConfig(spec: Option<AddonsSpec>)
      modifies this
      ensures value == old(value).(addons := DesiredAddons(spec, old(value.addons)))
    {
      if spec.Some? {
        var a := value.addons.GetOr(NoAddons);
        a := WriteCloudRunAndEnabled(spec.value, a);
        a := WriteDisabled(spec.value, a);
        value := value.(addons := Some(a));
      }
    }

    static method WriteCloudRunAndEnabled(spec: AddonsSpec, cur: Addons) returns (a: Addons)
      ensures a == cur.(cloudRun := DesiredCloudRun(spec.cloudRun, cur.cloudRun),
                        configConnector := DesiredAddon(spec.configConnector, cur.configConnector, "Enabled"),
                        dnsCache := DesiredAddon(spec.dnsCache, cur.dnsCache, "Enabled"),
                        persistentDiskCsi := DesiredAddon(spec.persistentDiskCsi, cur.persistentDiskCsi, "Enabled"))
    {
      a := cur;
      if spec.cloudRun.Some? {
        var run := spec.cloudRun.value;
        a := a.(cloudRun := Some(CloudRun(run.disabled, StringValue(run.loadBalancerType),
                                          ["Disabled", "LoadBalancerType"])));
      }
      if spec.configConnector.Some? {
        a := a.(configConnector := Some(Addon(spec.configConnector.value, ["Enabled"])));
      }
      if spec.dnsCache.Some? {
        a := a.(dnsCache := Some(Addon(spec.dnsCache.value, ["Enabled"])));
      }
      if spec.persistentDiskCsi.Some? {
        a := a.(persistentDiskCsi := Some(Addon(spec.persistentDiskCsi.value, ["Enabled"])));
      }
    }

    static method WriteDisabled(spec: AddonsSpec, cur: Addons) returns (a: Addons)
      ensures a == cur.(horizontalPodAutoscaling :=
                          DesiredAddon(spec.horizontalPodAutoscaling, cur.horizontalPodAutoscaling, "Disabled"),
                        httpLoadBalancing := DesiredAddon(spec.httpLoadBalancing, cur.httpLoadBalancing, "Disabled"),
                        dashboard := DesiredAddon(spec.dashboard, cur.dashboard, "Disabled"),
                        networkPolicy := DesiredAddon(spec.networkPolicy, cur.networkPolicy, "Disabled"))
    {
      a := cur;
      if spec.horizontalPodAutoscaling.Some? {
        a := a.(horizontalPodAutoscaling := Some(Addon(spec.horizontalPodAutoscaling.value, ["Disabled"])));
      }
      if spec.httpLoadBalancing.Some? {
        a := a.(httpLoadBalancing := Some(Addon(spec.httpLoadBalancing.value, ["Disabled"])));
      }
      if spec.dashboard.Some? {
        a := a.(dashboard := Some(Addon(spec.dashboard.value, ["Disabled"])));
      }
      if spec.networkPolicy.Some? {
        a := a.(networkPolicy := Some(Addon(spec.networkPolicy.value, ["Disabled"])));
      }
    }

    method GenerateAutopilot(spec: Option<bool>)
      modifies this
      ensures value == old(value).(autopilot := Overlay(spec, old(value.autopilot)))
    {
      if spec.Some? {
        value := value.(autopilot := Some(spec.value));
      }
    }

    method GenerateAutoscaling(spec: Option<AutoscalingSpec>)
      modifies this
      ensures value == old(value).(autoscaling := DesiredAutoscaling(spec, old(value.autoscaling)))
    {
      if spec.Some? {
        var block := spec.value;
        if value.autoscaling.None? {
          value := value.(autoscaling := Some(NoAutoscaling));
        }
        value := value.(autoscaling := Some(value.autoscaling.value.(locations := block.locations,
                                               autoprovisioning := BoolValue(block.autoprovisioning))));
        if block.defaults.Some? {
          var defaults := value.autoscaling.value.defaults.GetOr(NoPoolDefaults);
          defaults := GeneratePoolDefaults(block.defaults.value, defaults);
          value := value.(autoscaling := Some(value.autoscaling.value.(defaults := Some(defaults))));
        }
        if |block.limits| > 0 {
          var limits := GenerateLimits(block.limits);
          assert limits == DesiredLimits(block.limits, value.autoscaling.value.limits);
          value := value.(autoscaling := Some(value.autoscaling.value.(limits := limits)));
        }
      }
    }

    static method GeneratePoolDefaults(spec: PoolDefaultsSpec, cur: PoolDefaults) returns (d: PoolDefaults)
      ensures Some(d) == DesiredPoolDefaults(Some(spec), Some(cur))
    {
      d := cur.(bootDiskKmsKey := StringValue(spec.bootDiskKmsKey), diskSizeGb := Int64Value(spec.diskSizeGb),
                minCpuPlatform := StringValue(spec.minCpuPlatform), oauthScopes := spec.oauthScopes,
                serviceAccount := StringValue(spec.serviceAccount));
      if spec.management.Some? {
        var m := spec.management.value;
        d := d.(management := Some(d.management.GetOr(Management(false, false, None)).(
                                     autoRepair := BoolValue(m.autoRepair), autoUpgrade := BoolValue(m.autoUpgrade))));
      }
      if spec.shielded.Some? {
        var s := spec.shielded.value;
        d := d.(shielded := Some(Shielded(BoolValue(s.integrityMonitoring), BoolValue(s.secureBoot))));
      }
      if spec.upgrade.Some? {
        var u := spec.upgrade.value;
        d := d.(upgrade := Some(Upgrade(Int64Value(u.maxSurge), Int64Value(u.maxUnavailable))));
      }
    }

    /** The slice is made first and then filled, so an absent entry stays an empty slot. */
    static method GenerateLimits(spec: seq<Option<LimitSpec>>) returns (limits: seq<Option<Limit>>)
      ensures |limits| == |spec|
      ensures forall i :: 0 <= i < |spec| ==> limits[i] == LimitOf(spec[i])
    {
      limits := seq(|spec|, _ => None);
      for i := 0 to |spec|
        invariant |limits| == |spec|
        invariant forall k :: 0 <= k < i ==> limits[k] == LimitOf(spec[k])
        invariant forall k :: i <= k < |spec| ==> limits[k] == None
      {
        if spec[i].Some? {
          var l := spec[i].value;
          limits := limits[i := Some(Limit(Int64Value(l.maximum), Int64Value(l.minimum), StringValue(l.resourceType)))];
        }
      }
    }

    method GenerateBinaryAuthorization(spec: Option<bool>)
      modifies this
      ensures value == old(value).(binaryAuthorization := Overlay(spec, old(value.binaryAuthorization)))
    {
      if spec.Some? {
        value := value.(binaryAuthorization := Some(spec.value));
      }
    }

    method GenerateDatabaseEncryption(spec: Option<EncryptionSpec>)
      modifies this
      ensures value == old(value).(encryption := DesiredEncryption(spec, old(value.encryption)))
    {
      if spec.Some? {
        value := value.(encryption := Some(Encryption(StringValue(spec.value.keyName), StringValue(spec.value.state))));
      }
    }

    method GenerateLegacyAbac(spec: Option<bool>)
      modifies this
      ensures value == old(value).(legacyAbac := Overlay(spec, old(value.legacyAbac)))
    {
      if spec.Some? {
        value := value.(legacyAbac := Some(spec.value));
      }
    }

    method GenerateMaintenancePolicy(spec: Option<MaintenanceSpec>)
      modifies this
      ensures value == old(value).(maintenance := DesiredMaintenance(spec, old(value.maintenance)))
    {
      if spec.Some? {
        var block := spec.value;
        if value.maintenance.None? {
          value := value.(maintenance := Some(NoMaintenance));
        }
        var w := value.maintenance.value.window.GetOr(NoWindow);
        if block.daily.Some? {
          w := w.(daily := Some(w.daily.GetOr(Daily("", "")).(startTime := block.daily.value)));
        }
        if block.exclusions.Some? {
          var exclusions := CopyExclusions(block.exclusions.value);
          w := w.(exclusions := exclusions);
        }
        if block.recurring.Some? {
          var r := w.recurring.GetOr(Recurring("", None));
          if block.recurring.value.recurrence.Some? {
            r := r.(recurrence := block.recurring.value.recurrence.value);
          }
          if block.recurring.value.window.Some? {
            r := r.(window := block.recurring.value.window);
          }
          w := w.(recurring := Some(r));
        }
        value := value.(maintenance := Some(value.maintenance.value.(window := Some(w))));
      }
    }

    /** A range over a map visits its keys in no particular order. */
    static method CopyExclusions(spec: map<string, TimeWindow>) returns (copy: map<string, TimeWindow>)
      ensures copy == spec
    {
      copy := map[];
      var left := spec.Keys;
      while left != {}
        invariant left <= spec.Keys
        invariant copy.Keys == spec.Keys - left
        invariant forall k :: k in copy ==> copy[k] == spec[k]
        decreases |left|
      {
        var k :| k in left;
        copy := copy[k := TimeWindow(spec[k].startTime, spec[k].endTime)];
        left := left - {k};
      }
    }

    method GenerateMasterAuthorizedNetworksConfig(spec: Option<MasterNetworksSpec>)
      modifies this
      ensures value == old(value).(masterNetworks := DesiredMasterNetworks(spec, old(value.masterNetworks)))
    {
      if spec.Some? {
        if value.masterNetworks.None? {
          value := value.(masterNetworks := Some(NoMasterNetworks));
        }
        value := value.(masterNetworks := Some(value.masterNetworks.value.(enabled := BoolValue(spec.value.enabled))));
        if |spec.value.cidrBlocks| > 0 {
          var blocks := GenerateCidrs(spec.value.cidrBlocks);
          assert blocks == DesiredCidrs(spec.value.cidrBlocks, value.masterNetworks.value.cidrBlocks);
          value := value.(masterNetworks := Some(value.masterNetworks.value.(cidrBlocks := blocks)));
        }
      }
    }

    static method GenerateCidrs(spec: seq<Option<CidrSpec>>) returns (blocks: seq<Option<Cidr>>)
      ensures |blocks| == |spec|
      ensures forall i :: 0 <= i < |spec| ==> blocks[i] == CidrOf(spec[i])
    {
      blocks := seq(|spec|, _ => None);
      for i := 0 to |spec|
        invariant |blocks| == |spec|
        invariant forall k :: 0 <= k < i ==> blocks[k] == CidrOf(spec[k])
        invariant forall k :: i <= k < |spec| ==> blocks[k] == None
      {
        if spec[i].Some? {
          blocks := blocks[i := Some(Cidr(spec[i].value.cidr, StringValue(spec[i].value.displayName)))];
        }
      }
    }

    method GenerateNetworkConfig(spec: Option<NetworkConfigSpec>)
      modifies this
      ensures value == old(value).(networkConfig := DesiredNetworkConfig(spec, old(value.networkConfig)))
    {
      if spec.Some? {
        var block := spec.value;
        if value.networkConfig.None? {
          value := value.(networkConfig := Some(NoNetworkConfig));
        }
        value := value.(networkConfig := Some(value.networkConfig.value.(
                                intraNodeVisibility := BoolValue(block.intraNodeVisibility),
                                privateIpv6Access := StringValue(block.privateIpv6Access),
                                datapathProvider := StringValue(block.datapathProvider))));
        if block.snatDisabled.Some? {
          value := value.(networkConfig := Some(value.networkConfig.value.(snatDisabled := block.snatDisabled)));
        }
      }
    }

    method GenerateNetworkPolicy(spec: Option<NetworkPolicySpec>)
      modifies this
      ensures value == old(value).(networkPolicy := DesiredNetworkPolicy(spec, old(value.networkPolicy)))
    {
      if spec.Some? {
        value := value.(networkPolicy := Some(NetworkPolicy(BoolValue(spec.value.enabled),
                                                            StringValue(spec.value.provider))));
      }
    }

    method GenerateNotificationConfig(spec: Option<PubSub>)
      modifies this
      ensures value == old(value).(notification := DesiredNotification(spec, old(value.notification)))
    {
      if spec.Some? {
        if value.notification.None? {
          value := value.(notification := Some(Notification(None)));
        }
        if value.notification.value.pubsub.None? {
          value := value.(notification := Some(Notification(Some(PubSub(spec.value.enabled, spec.value.topic)))));
        }
      }
    }

    method GeneratePrivateClusterConfig(spec: Option<PrivateClusterSpec>)
      modifies this
      ensures value == old(value).(privateCluster := DesiredPrivateCluster(spec, old(value.privateCluster)))
    {
      if spec.Some? {
        var block := spec.value;
        if value.privateCluster.None? {
          value := value.(privateCluster := Some(NoPrivateCluster));
        }
        value := value.(privateCluster := Some(value.privateCluster.value.(
                                 privateEndpoint := BoolValue(block.privateEndpoint),
                                 privateNodes := BoolValue(block.privateNodes),
                                 masterCidr := StringValue(block.masterCidr))));
        if block.globalAccess.Some? {
          value := value.(privateCluster := Some(value.privateCluster.value.(globalAccess := block.globalAccess)));
        }
      }
    }

    method GenerateReleaseChannel(spec: Option<string>)
      modifies this
      ensures value == old(value).(releaseChannel := Overlay(spec, old(value.releaseChannel)))
    {
      if spec.Some? {
        value := value.(releaseChannel := Some(spec.value));
      }
    }

    method GenerateResourceUsageExportConfig(spec: Option<UsageExportSpec>)
      modifies this
      ensures value == old(value).(usageExport := DesiredUsageExport(spec, old(value.usageExport)))
    {
      if spec.Some? {
        var block := spec.value;
        if value.usageExport.None? {
          value := value.(usageExport := Some(NoUsageExport));
        }
        value := value.(usageExport := Some(value.usageExport.value.(egressMetering := BoolValue(block.egressMetering))));
        if block.bigquery.Some? {
          value := value.(usageExport := Some(value.usageExport.value.(bigquery := block.bigquery)));
        }
        if block.consumptionMetering.Some? {
          value := value.(usageExport := Some(value.usageExport.value.(consumptionMetering := block.consumptionMetering)));
        }
      }
    }

    method GenerateVerticalPodAutoscaling(spec: Option<bool>)
      modifies this
      ensures value == old(value).(verticalPodAutoscaling := Overlay(spec, old(value.verticalPodAutoscaling)))
    {
      if spec.Some? {
        value := value.(verticalPodAutoscaling := Some(spec.value));
      }
    }

    method GenerateWorkloadIdentityConfig(spec: Option<string>)
      modifies this
      ensures value == old(value).(workloadIdentity := Overlay(spec, old(value.workloadIdentity)))
    {
      if spec.Some? {
        value := value.(workloadIdentity := Some(spec.value));
      }
    }

    static method GenerateFixedBlocks(s: FixedSpec, cur: Fixed) returns (f: Fixed)
      ensures f == cur.(groups := DesiredGroups(s.groups, cur.groups),
                        confidentialNodes := Overlay(s.confidentialNodes, cur.confidentialNodes),
                        maxPods := Overlay(s.maxPods, cur.maxPods),
                        ipAllocation := DesiredIpAllocation(s.ipAllocation, cur.ipAllocation),
                        masterAuth := DesiredMasterAuth(s.masterAuth, cur.masterAuth))
    {
      f := cur;
      if s.groups.Some? {
        f := f.(groups := Some(Groups(BoolValue(s.groups.value.enabled), StringValue(s.groups.value.securityGroup))));
      }
      if s.confidentialNodes.Some? {
        f := f.(confidentialNodes := Some(s.confidentialNodes.value));
      }
      if s.maxPods.Some? {
        f := f.(maxPods := Some(s.maxPods.value));
      }
      if s.ipAllocation.Some? {
        var p := s.ipAllocation.value;
        f := f.(ipAllocation := Some(f.ipAllocation.GetOr(NoIpAllocation).(
                  clusterCidr := StringValue(p.clusterCidr), clusterRange := StringValue(p.clusterRange),
                  createSubnetwork := BoolValue(p.createSubnetwork), nodeCidr := StringValue(p.nodeCidr),
                  servicesCidr := StringValue(p.servicesCidr), servicesRange := StringValue(p.servicesRange),
                  subnetworkName := StringValue(p.subnetworkName), tpuCidr := StringValue(p.tpuCidr),
                  useIpAliases := BoolValue(p.useIpAliases), useRoutes := BoolValue(p.useRoutes))));
      }
      if s.masterAuth.Some? {
        var a := f.masterAuth.GetOr(MasterAuth("", None, "")).(username := StringValue(s.masterAuth.value.username));
        if s.masterAuth.value.clientCertificate.Some? {
          a := a.(clientCertificate := s.masterAuth.value.clientCertificate);
        }
        f := f.(masterAuth := Some(a));
      }
    }

    /** The fields that are generated but never compared. */
    method GenerateFixed(s: FixedSpec)
      modifies this
      ensures value == old(value).(fixed := DesiredFixed(s, old(value.fixed)))
    {
      var f := value.fixed.(clusterIpv4Cidr := StringValue(s.clusterIpv4Cidr),
                            description := StringValue(s.description),
                            kubernetesAlpha := BoolValue(s.kubernetesAlpha),
                            tpu := BoolValue(s.tpu),
                            initialVersion := StringValue(s.initialVersion),
                            labelFingerprint := StringValue(s.labelFingerprint),
                            network := StringValue(s.network),
                            subnetwork := StringValue(s.subnetwork));
      f := GenerateFixedBlocks(s, f);
      value := value.(fixed := f);
    }

    method GenerateCluster(name: string, spec: ClusterParameters)
      modifies this
      ensures value == Desired(name, spec, old(value))
    {
      value := value.(locations := spec.locations,
                      loggingService := StringValue(spec.loggingService),
                      monitoringService := StringValue(spec.monitoringService),
                      name := name,
                      resourceLabels := spec.resourceLabels);
      GenerateFixed(spec.fixed);
      GenerateAddonsConfig(spec.addons);
      GenerateAutopilot(spec.autopilot);
      GenerateAutoscaling(spec.autoscaling);
      GenerateBinaryAuthorization(spec.binaryAuthorization);
      GenerateDatabaseEncryption(spec.encryption);
      GenerateLegacyAbac(spec.legacyAbac);
      GenerateMaintenancePolicy(spec.maintenance);
      GenerateMasterAuthorizedNetworksConfig(spec.masterNetworks);
      GenerateNetworkConfig(spec.networkConfig);
      GenerateNetworkPolicy(spec.networkPolicy);
      GenerateNotificationConfig(spec.notification);
      GeneratePrivateClusterConfig(spec.privateCluster);
      GenerateReleaseChannel(spec.releaseChannel);
      GenerateResourceUsageExportConfig(spec.usageExport);
      GenerateVerticalPodAutoscaling(spec.verticalPodAutoscaling);
      GenerateWorkloadIdentityConfig(spec.workloadIdentity);
    }
  }

  method CheckForBootstrapNodePool(c: Cluster) returns (found: bool)
    ensures found <==> HasBootstrapPool(c.value.nodePools)
  {
    for i := 0 to |c.value.nodePools|
      invariant forall k :: 0 <= k < i ==> c.value.nodePools[k].None? || c.value.nodePools[k].value.name != BOOTSTRAP
    {
      if c.value.nodePools[i].None? || c.value.nodePools[i].value.name != BOOTSTRAP {
        continue;
      }
      return true;
    }
    return false;
  }

  // The comparison chain: two runs of sections before the network block, the network block,
  // and three runs after it. Each run finds its first section that differs.

  method CompareFirst(ghost name: string, ghost spec: ClusterParameters, d: ClusterValue, c: ClusterValue)
    returns (found: Option<Section>)
    requires d == Desired(name, spec, c) && AgreeBefore(Rank(AddonsSection), spec, c)
    ensures found.Some? ==> Differs(found.value, spec, c) && AgreeBefore(Rank(found.value), spec, c)
    ensures found.None? ==> AgreeBefore(Rank(LocationsSection), spec, c)
  {
    if DropForce(d.addons) != DropForce(c.addons) {
      return Some(AddonsSection);
    }
    OneMoreAgrees(AddonsSection, spec, c);
    if d.autopilot != c.autopilot {
      return Some(AutopilotSection);
    }
    OneMoreAgrees(AutopilotSection, spec, c);
    if d.autoscaling != c.autoscaling {
      return Some(AutoscalingSection);
    }
    OneMoreAgrees(AutoscalingSection, spec, c);
    if d.binaryAuthorization != c.binaryAuthorization {
      return Some(BinaryAuthorizationSection);
    }
    OneMoreAgrees(BinaryAuthorizationSection, spec, c);
    if d.encryption != c.encryption {
      return Some(EncryptionSection);
    }
    OneMoreAgrees(EncryptionSection, spec, c);
    if d.legacyAbac != c.legacyAbac {
      return Some(LegacyAbacSection);
    }
    OneMoreAgrees(LegacyAbacSection, spec, c);
    return None;
  }

  method CompareSecond(ghost name: string, ghost spec: ClusterParameters, d: ClusterValue, c: ClusterValue)
    returns (found: Option<Section>)
    requires d == Desired(name, spec, c) && AgreeBefore(Rank(LocationsSection), spec, c)
    ensures found.Some? ==> Differs(found.value, spec, c) && AgreeBefore(Rank(found.value), spec, c)
    ensures found.None? ==> AgreeBefore(Rank(IntraNodeSection), spec, c)
  {
    if d.locations != c.locations {
      return Some(LocationsSection);
    }
    OneMoreAgrees(LocationsSection, spec, c);
    if d.loggingService != c.loggingService {
      return Some(LoggingSection);
    }
    OneMoreAgrees(LoggingSection, spec, c);
    if d.maintenance != c.maintenance {
      return Some(MaintenanceSection);
    }
    OneMoreAgrees(MaintenanceSection, spec, c);
    if d.masterNetworks != c.masterNetworks {
      return Some(MasterNetworksSection);
    }
    OneMoreAgrees(MasterNetworksSection, spec, c);
    if d.monitoringService != c.monitoringService {
      return Some(MonitoringSection);
    }
    OneMoreAgrees(MonitoringSection, spec, c);
    return None;
  }

  /** The two parts of the network block, of which an absent one is first made empty. */
  method CompareNetwork(ghost spec: ClusterParameters, d: ClusterValue, observed: Cluster)
    returns (found: Option<Section>)
    requires d.networkConfig == DesiredNetworkConfig(spec.networkConfig, observed.value.networkConfig)
    requires AgreeBefore(Rank(IntraNodeSection), spec, observed.value)
    modifies observed
    ensures var c := old(observed.value);
            found.Some? ==> Differs(found.value, spec, c) && AgreeBefore(Rank(found.value), spec, c)
    ensures found.None? ==> AgreeBefore(Rank(NetworkPolicySection), spec, old(observed.value))
    ensures observed.value == old(observed.value) || NetworkFilled(old(observed.value), observed.value)
  {
    var c := observed.value;
    if d.networkConfig.Some? {
      if observed.value.networkConfig.None? {
        observed.value := observed.value.(networkConfig := Some(NoNetworkConfig));
      }
      if d.networkConfig.value.intraNodeVisibility != observed.value.networkConfig.value.intraNodeVisibility {
        return Some(IntraNodeSection);
      }
      OneMoreAgrees(IntraNodeSection, spec, c);
      if d.networkConfig.value.datapathProvider != observed.value.networkConfig.value.datapathProvider {
        return Some(DatapathSection);
      }
      OneMoreAgrees(DatapathSection, spec, c);
    } else {
      OneMoreAgrees(IntraNodeSection, spec, c);
      OneMoreAgrees(DatapathSection, spec, c);
    }
    return None;
  }

  /** An absent network block became an empty one, and nothing else changed. */
  predicate NetworkFilled(was: ClusterValue, now: ClusterValue) {
    was.networkConfig.None? && now == was.(networkConfig := Some(NoNetworkConfig))
  }

  method CompareThird(ghost name: string, ghost spec: ClusterParameters, d: ClusterValue, c: ClusterValue)
    returns (found: Option<Section>)
    requires d == Desired(name, spec, c) && AgreeBefore(Rank(NetworkPolicySection), spec, c)
    ensures found.Some? ==> Differs(found.value, spec, c) && AgreeBefore(Rank(found.value), spec, c)
    ensures found.None? ==> AgreeBefore(Rank(ReleaseChannelSection), spec, c)
  {
    if d.networkPolicy != c.networkPolicy {
      return Some(NetworkPolicySection);
    }
    OneMoreAgrees(NetworkPolicySection, spec, c);
    if d.notification != c.notification {
      return Some(NotificationSection);
    }
    OneMoreAgrees(NotificationSection, spec, c);
    if d.privateCluster != c.privateCluster {
      return Some(PrivateClusterSection);
    }
    OneMoreAgrees(PrivateClusterSection, spec, c);
    return None;
  }

  method CompareFourth(ghost name: string, ghost spec: ClusterParameters, d: ClusterValue, c: ClusterValue)
    returns (found: Option<Section>)
    requires d == Desired(name, spec, c) && AgreeBefore(Rank(ReleaseChannelSection), spec, c)
    ensures found.Some? ==> Differs(found.value, spec, c) && AgreeBefore(Rank(found.value), spec, c)
    ensures found.None? ==> AgreeBefore(Rank(UsageExportSection), spec, c)
  {
    if d.releaseChannel != c.releaseChannel {
      return Some(ReleaseChannelSection);
    }
    OneMoreAgrees(ReleaseChannelSection, spec, c);
    if d.resourceLabels != c.resourceLabels {
      return Some(LabelsSection);
    }
    OneMoreAgrees(LabelsSection, spec, c);
    return None;
  }

  method CompareFifth(ghost name: string, ghost spec: ClusterParameters, d: ClusterValue, c: ClusterValue)
    returns (found: Option<Section>)
    requires d == Desired(name, spec, c) && AgreeBefore(Rank(UsageExportSection), spec, c)
    ensures found.Some? ==> Differs(found.value, spec, c) && AgreeBefore(Rank(found.value), spec, c)
    ensures found.None? ==> AgreeBefore(|Order|, spec, c)
  {
    if d.usageExport != c.usageExport {
      return Some(UsageExportSection);
    }
    OneMoreAgrees(UsageExportSection, spec, c);
    if d.verticalPodAutoscaling != c.verticalPodAutoscaling {
      return Some(VerticalPodSection);
    }
    OneMoreAgrees(VerticalPodSection, spec, c);
    if d.workloadIdentity != c.workloadIdentity {
      return Some(WorkloadIdentitySection);
    }
    OneMoreAgrees(WorkloadIdentitySection, spec, c);
    return None;
  }

  /** Compares section after section and stops at the first that differs. The update
      returned is the one `Next` specifies, and no absent spec block is read on the way.
      An absent network block of the observed cluster may be filled with an empty one. */
  method IsUpToDate(name: string, spec: ClusterParameters, observed: Cluster)
    returns (upToDate: bool, update: Option<Request>)
    modifies observed
    ensures upToDate <==> update.None?
    ensures update == Next(spec, old(observed.value))
    ensures observed.value == old(observed.value) || NetworkFilled(old(observed.value), observed.value)
  {
    var desired := new Cluster(observed.value);
    desired.GenerateCluster(name, spec);
    var c, d := observed.value, desired.value;
    var bootstrap := CheckForBootstrapNodePool(observed);
    if bootstrap {
      return false, Some(DeleteBootstrapPool);
    }
    var found := CompareFirst(name, spec, d, c);
    if found.None? {
      found := CompareSecond(name, spec, d, c);
    }
    if found.None? {
      found := CompareNetwork(spec, d, observed);
      if found.None? {
        found := CompareThird(name, spec, d, c);
      }
      if found.None? {
        found := CompareFourth(name, spec, d, c);
      }
      if found.None? {
        found := CompareFifth(name, spec, d, c);
      }
    }
    if found.None? {
      AllAgreeDecides(spec, c);
      return true, None;
    }
    FirstDifferingDecides(found.value, spec, c);
    return false, Some(RequestFor(found.value, spec));
  }
}
