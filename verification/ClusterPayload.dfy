/** What Create and the updates send: every field generation writes, by the spec field of its
    name, the ones the comparison never looks at included. */
module ClusterPayload {
  import opened Pointers
  import opened ClusterTypes
  import opened ClusterSections
  import opened ClusterUpdate
  import opened ClusterDrift

  // ---- what generation writes where the comparison does not look ----

  predicate IpAllocationWritten(s: IpAllocationSpec, now: IpAllocation) {
    && now.clusterCidr == StringValue(s.clusterCidr) && now.clusterRange == StringValue(s.clusterRange)
    && now.createSubnetwork == BoolValue(s.createSubnetwork) && now.nodeCidr == StringValue(s.nodeCidr)
    && now.servicesCidr == StringValue(s.servicesCidr) && now.servicesRange == StringValue(s.servicesRange)
    && now.subnetworkName == StringValue(s.subnetworkName) && now.tpuCidr == StringValue(s.tpuCidr)
    && now.useIpAliases == BoolValue(s.useIpAliases) && now.useRoutes == BoolValue(s.useRoutes)
  }

  predicate FixedWritten(s: FixedSpec, was: Fixed, now: Fixed) {
    && now.clusterIpv4Cidr == StringValue(s.clusterIpv4Cidr) && now.description == StringValue(s.description)
    && now.kubernetesAlpha == BoolValue(s.kubernetesAlpha) && now.tpu == BoolValue(s.tpu)
    && now.initialVersion == StringValue(s.initialVersion) && now.labelFingerprint == StringValue(s.labelFingerprint)
    && now.network == StringValue(s.network) && now.subnetwork == StringValue(s.subnetwork)
    && (if s.groups.None? then now.groups == was.groups
        else now.groups.Some? && now.groups.value.enabled == BoolValue(s.groups.value.enabled) &&
             now.groups.value.securityGroup == StringValue(s.groups.value.securityGroup))
    && now.confidentialNodes == (if s.confidentialNodes.Some? then s.confidentialNodes else was.confidentialNodes)
    && now.maxPods == (if s.maxPods.Some? then s.maxPods else was.maxPods)
    && (if s.ipAllocation.None? then now.ipAllocation == was.ipAllocation
        else now.ipAllocation.Some? && IpAllocationWritten(s.ipAllocation.value, now.ipAllocation.value) &&
             now.ipAllocation.value.rest == if was.ipAllocation.Some? then was.ipAllocation.value.rest else "")
    && (if s.masterAuth.None? then now.masterAuth == was.masterAuth
        else now.masterAuth.Some? && now.masterAuth.value.username == StringValue(s.masterAuth.value.username) &&
             (s.masterAuth.value.clientCertificate.Some? ==>
                now.masterAuth.value.clientCertificate == s.masterAuth.value.clientCertificate) &&
             (s.masterAuth.value.clientCertificate.None? ==>
                now.masterAuth.value.clientCertificate ==
                if was.masterAuth.Some? then was.masterAuth.value.clientCertificate else None) &&
             now.masterAuth.value.rest == if was.masterAuth.Some? then was.masterAuth.value.rest else "")
  }

  predicate NetworkWritten(spec: Option<NetworkConfigSpec>, was: Option<NetworkConfig>, now: Option<NetworkConfig>) {
    if spec.None? then now == was
    else
      var s, w := spec.value, if was.Some? then was.value else NetworkConfig("", None, false, "", "", "");
      now.Some? && now.value.datapathProvider == StringValue(s.datapathProvider) &&
      now.value.intraNodeVisibility == BoolValue(s.intraNodeVisibility) &&
      now.value.privateIpv6Access == StringValue(s.privateIpv6Access) &&
      now.value.snatDisabled == (if s.snatDisabled.Some? then s.snatDisabled else w.snatDisabled) &&
      now.value.network == w.network && now.value.subnetwork == w.subnetwork
  }

  /** A Pub/Sub block the cluster has stays; where it has none the spec's is written. */
  predicate NotificationWritten(spec: Option<PubSub>, was: Option<Notification>, now: Option<Notification>) {
    if spec.None? || (was.Some? && was.value.pubsub.Some?) then now == was
    else now.Some? && now.value.pubsub.Some? && now.value.pubsub.value.enabled == spec.value.enabled &&
         now.value.pubsub.value.topic == spec.value.topic
  }

  /** The instructions to the encoder: the flags of an add-on in the spec are sent even when
      they are false. */
  predicate AddonSends(spec: Option<bool>, now: Option<Addon>, field: string) {
    spec.Some? ==> now.Some? && now.value.forceSend == [field]
  }

  predicate AddonsSend(spec: AddonsSpec, now: Addons) {
    && (spec.cloudRun.Some? ==>
          now.cloudRun.Some? && now.cloudRun.value.forceSend == ["Disabled", "LoadBalancerType"])
    && AddonSends(spec.configConnector, now.configConnector, "Enabled")
    && AddonSends(spec.dnsCache, now.dnsCache, "Enabled")
    && AddonSends(spec.persistentDiskCsi, now.persistentDiskCsi, "Enabled")
    && AddonSends(spec.horizontalPodAutoscaling, now.horizontalPodAutoscaling, "Disabled")
    && AddonSends(spec.httpLoadBalancing, now.httpLoadBalancing, "Disabled")
    && AddonSends(spec.dashboard, now.dashboard, "Disabled")
    && AddonSends(spec.networkPolicy, now.networkPolicy, "Disabled")
  }

  lemma FixedGenerated(s: FixedSpec, c: Fixed)
    ensures FixedWritten(s, c, DesiredFixed(s, c))
  {
  }

  lemma BlocksGenerated(spec: ClusterParameters, c: ClusterValue)
    ensures NetworkWritten(spec.networkConfig, c.networkConfig, DesiredNetworkConfig(spec.networkConfig, c.networkConfig))
    ensures NotificationWritten(spec.notification, c.notification, DesiredNotification(spec.notification, c.notification))
    ensures spec.addons.Some? ==> AddonsSend(spec.addons.value, DesiredAddons(spec.addons, c.addons).value)
  {
  }

  /** What generation writes over a cluster `c` outside what the comparison reads. */
  lemma GenerationWrites(name: string, spec: ClusterParameters, c: ClusterValue)
    ensures var d := Desired(name, spec, c);
            && d.name == name && d.nodePools == c.nodePools && FixedWritten(spec.fixed, c.fixed, d.fixed)
            && NetworkWritten(spec.networkConfig, c.networkConfig, d.networkConfig)
            && NotificationWritten(spec.notification, c.notification, d.notification)
            && (spec.addons.Some? ==> d.addons.Some? && AddonsSend(spec.addons.value, d.addons.value))
  {
    FixedGenerated(spec.fixed, c.fixed);
    BlocksGenerated(spec, c);
  }

  /** Generation meets the spec in every section, from any cluster: with the lemma above,
      every field it writes is fixed by the spec field of its name. */
  lemma GenerationMeets(name: string, spec: ClusterParameters, c: ClusterValue, s: Section)
    ensures Met(s, spec, Desired(name, spec, c))
  {
    GenerateSettles(name, spec, c);
    FixedPointAgrees(s, name, spec, Desired(name, spec, c));
    DiffersIffUnmet(s, spec, Desired(name, spec, c));
  }

  // ---- what Create and the updates send ----

  predicate NoOtherAddons(spec: AddonsSpec, a: Addons) {
    && (a.cloudRun.Some? <==> spec.cloudRun.Some?) && (a.configConnector.Some? <==> spec.configConnector.Some?)
    && (a.dnsCache.Some? <==> spec.dnsCache.Some?) && (a.persistentDiskCsi.Some? <==> spec.persistentDiskCsi.Some?)
    && (a.horizontalPodAutoscaling.Some? <==> spec.horizontalPodAutoscaling.Some?)
    && (a.httpLoadBalancing.Some? <==> spec.httpLoadBalancing.Some?) && (a.dashboard.Some? <==> spec.dashboard.Some?)
    && (a.networkPolicy.Some? <==> spec.networkPolicy.Some?)
  }

  predicate NoOtherDefaults(spec: Option<PoolDefaultsSpec>, d: Option<PoolDefaults>) {
    && (d.Some? <==> spec.Some?)
    && (d.Some? ==>
          d.value.diskType == "" && (d.value.management.Some? <==> spec.value.management.Some?) &&
          (d.value.management.Some? ==> d.value.management.value.options.None?) &&
          (d.value.shielded.Some? <==> spec.value.shielded.Some?) &&
          (d.value.upgrade.Some? <==> spec.value.upgrade.Some?))
  }

  predicate NoOtherWindows(spec: MaintenanceSpec, w: Window) {
    && (w.daily.Some? <==> spec.daily.Some?) && (w.daily.Some? ==> w.daily.value.duration == "")
    && w.exclusions == spec.exclusions.GetOr(map[]) && (w.recurring.Some? <==> spec.recurring.Some?)
    && (w.recurring.Some? ==>
          w.recurring.value.recurrence == StringValue(spec.recurring.value.recurrence) &&
          w.recurring.value.window == spec.recurring.value.window)
  }

  /** The blocks of a created cluster are those of the spec, and the fields only GKE writes
      are empty. */
  predicate NothingElse(spec: ClusterParameters, c: ClusterValue) {
    && (c.addons.Some? <==> spec.addons.Some?) && c.autopilot == spec.autopilot
    && (c.addons.Some? ==> NoOtherAddons(spec.addons.value, c.addons.value))
    && (c.autoscaling.Some? <==> spec.autoscaling.Some?)
    && (c.autoscaling.Some? ==> NoOtherDefaults(spec.autoscaling.value.defaults, c.autoscaling.value.defaults))
    && c.binaryAuthorization == spec.binaryAuthorization
    && (c.encryption.Some? <==> spec.encryption.Some?) && c.legacyAbac == spec.legacyAbac
    && (c.maintenance.Some? <==> spec.maintenance.Some?)
    && (c.maintenance.Some? ==>
          c.maintenance.value.resourceVersion == "" && c.maintenance.value.window.Some? &&
          NoOtherWindows(spec.maintenance.value, c.maintenance.value.window.value))
    && (c.masterNetworks.Some? <==> spec.masterNetworks.Some?)
    && (c.networkPolicy.Some? <==> spec.networkPolicy.Some?)
    && (c.privateCluster.Some? <==> spec.privateCluster.Some?)
    && (c.privateCluster.Some? ==>
          c.privateCluster.value.peeringName == "" && c.privateCluster.value.privateEndpointAddress == "" &&
          c.privateCluster.value.publicEndpointAddress == "" &&
          c.privateCluster.value.globalAccess == spec.privateCluster.value.globalAccess)
    && c.releaseChannel == spec.releaseChannel && (c.usageExport.Some? <==> spec.usageExport.Some?)
    && (c.usageExport.Some? ==>
          c.usageExport.value.bigquery == spec.usageExport.value.bigquery &&
          c.usageExport.value.consumptionMetering == spec.usageExport.value.consumptionMetering)
    && c.verticalPodAutoscaling == spec.verticalPodAutoscaling && c.workloadIdentity == spec.workloadIdentity
  }

  predicate FixedCreated(s: FixedSpec, f: Fixed) {
    && FixedWritten(s, f, f) && (f.groups.Some? <==> s.groups.Some?) && f.confidentialNodes == s.confidentialNodes
    && f.maxPods == s.maxPods && (f.ipAllocation.Some? <==> s.ipAllocation.Some?)
    && (f.masterAuth.Some? <==> s.masterAuth.Some?)
  }

  lemma CreatedFixed(s: FixedSpec)
    ensures FixedCreated(s, DesiredFixed(s, NoFixed))
  {
  }

  /** The first eleven sections of `d` are generated from nothing. */
  predicate EarlyFromNothing(spec: ClusterParameters, d: ClusterValue) {
    && d.addons == DesiredAddons(spec.addons, None) && d.autopilot == spec.autopilot
    && d.autoscaling == DesiredAutoscaling(spec.autoscaling, None)
    && d.binaryAuthorization == spec.binaryAuthorization && d.encryption == DesiredEncryption(spec.encryption, None)
    && d.legacyAbac == spec.legacyAbac && d.locations == spec.locations
    && d.loggingService == StringValue(spec.loggingService)
    && d.maintenance == DesiredMaintenance(spec.maintenance, None)
    && d.masterNetworks == DesiredMasterNetworks(spec.masterNetworks, None)
    && d.monitoringService == StringValue(spec.monitoringService)
  }

  predicate LateFromNothing(spec: ClusterParameters, d: ClusterValue) {
    && d.networkConfig == DesiredNetworkConfig(spec.networkConfig, None)
    && d.networkPolicy == DesiredNetworkPolicy(spec.networkPolicy, None)
    && d.notification == DesiredNotification(spec.notification, None)
    && d.privateCluster == DesiredPrivateCluster(spec.privateCluster, None)
    && d.releaseChannel == spec.releaseChannel && d.resourceLabels == spec.resourceLabels
    && d.usageExport == DesiredUsageExport(spec.usageExport, None)
    && d.verticalPodAutoscaling == spec.verticalPodAutoscaling && d.workloadIdentity == spec.workloadIdentity
  }

  lemma CreatedFromNothing(name: string, spec: ClusterParameters)
    ensures EarlyFromNothing(spec, Created(name, spec)) && LateFromNothing(spec, Created(name, spec))
  {
  }

  lemma NothingElseIsThere(spec: ClusterParameters, d: ClusterValue)
    requires EarlyFromNothing(spec, d) && LateFromNothing(spec, d)
    ensures NothingElse(spec, d)
  {
  }

  lemma CreatedUncompared(name: string, spec: ClusterParameters)
    ensures var c := Created(name, spec);
            && c.name == name && c.fixed == DesiredFixed(spec.fixed, NoFixed)
            && NetworkWritten(spec.networkConfig, None, c.networkConfig)
            && c.notification == (if spec.notification.Some? then Some(Notification(spec.notification)) else None)
            && (spec.addons.Some? ==> c.addons.Some? && AddonsSend(spec.addons.value, c.addons.value))
            && c.nodePools == if spec.autopilot == Some(true) then [] else [Some(Pool("crossplane-bootstrap", 0))]
  {
    BlocksGenerated(spec, NoCluster);
  }

  /** The cluster Create sends: it meets the spec in every section, carries the spec's
      notification, network and fixed fields, has no block the spec has not, and has the
      empty bootstrap pool unless it is an autopilot cluster. */
  lemma CreatedCluster(name: string, spec: ClusterParameters)
    ensures var c := Created(name, spec);
            && c.name == name && NothingElse(spec, c) && FixedCreated(spec.fixed, c.fixed)
            && NetworkWritten(spec.networkConfig, None, c.networkConfig)
            && c.notification == (if spec.notification.Some? then Some(Notification(spec.notification)) else None)
            && (spec.addons.Some? ==> c.addons.Some? && AddonsSend(spec.addons.value, c.addons.value))
            && c.nodePools == if spec.autopilot == Some(true) then [] else [Some(Pool("crossplane-bootstrap", 0))]
    ensures forall s: Section :: Met(s, spec, Created(name, spec))
  {
    CreatedFixed(spec.fixed);
    CreatedFromNothing(name, spec);
    NothingElseIsThere(spec, Created(name, spec));
    CreatedUncompared(name, spec);
    forall s: Section
      ensures Met(s, spec, Created(name, spec))
    {
      CreatedAgrees(s, name, spec);
      DiffersIffUnmet(s, spec, Created(name, spec));
    }
  }

  /** The request that sends section `s` of a cluster. */
  function SectionRequest(s: Section, d: ClusterValue): Request {
    match s
    case AddonsSection => SetAddons(d.addons)
    case AutopilotSection => SetAutopilot(d.autopilot)
    case AutoscalingSection => SetAutoscaling(d.autoscaling)
    case BinaryAuthorizationSection => SetBinaryAuthorization(d.binaryAuthorization)
    case EncryptionSection => SetEncryption(d.encryption)
    case LegacyAbacSection => SetLegacyAbac(d.legacyAbac == Some(true))
    case LocationsSection => SetLocations(d.locations)
    case LoggingSection => SetLogging(d.loggingService)
    case MaintenanceSection => SetMaintenance(d.maintenance)
    case MasterNetworksSection => SetMasterNetworks(d.masterNetworks)
    case MonitoringSection => SetMonitoring(d.monitoringService)
    case IntraNodeSection => SetIntraNode(d.networkConfig.GetOr(NoNetworkConfig).intraNodeVisibility)
    case DatapathSection => SetDatapath(d.networkConfig.GetOr(NoNetworkConfig).datapathProvider)
    case NetworkPolicySection => SetNetworkPolicy(d.networkPolicy)
    case NotificationSection => SetNotification(d.notification)
    case PrivateClusterSection => SetPrivateCluster(d.privateCluster)
    case ReleaseChannelSection => SetReleaseChannel(d.releaseChannel)
    case LabelsSection => SetLabels(d.resourceLabels)
    case UsageExportSection => SetUsageExport(d.usageExport)
    case VerticalPodSection => SetVerticalPod(d.verticalPodAutoscaling)
    case WorkloadIdentitySection => SetWorkloadIdentity(d.workloadIdentity)
  }

  /** An update sends what Create would: the section of a cluster created from the spec. In
      particular the notification sent is the spec's, both fields. */
  lemma UpdatesSendWhatCreateSends(s: Section, name: string, spec: ClusterParameters)
    requires Present(s, spec)
    ensures RequestFor(s, spec) == SectionRequest(s, Created(name, spec))
    ensures s.NotificationSection? ==> RequestFor(s, spec) == SetNotification(Some(Notification(spec.notification)))
  {
    CreatedFromNothing(name, spec);
    RequestFromNothing(s, spec, Created(name, spec));
  }

  lemma RequestFromNothing(s: Section, spec: ClusterParameters, d: ClusterValue)
    requires Present(s, spec) && EarlyFromNothing(spec, d) && LateFromNothing(spec, d)
    ensures RequestFor(s, spec) == SectionRequest(s, d)
  {
  }
}
