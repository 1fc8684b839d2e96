/** What "up to date" means for a cluster, said without the generators: section by section,
    the user's fields have the observed values. */
module ClusterDrift {
  import opened Pointers
  import opened ClusterTypes
  import opened ClusterSections
  import opened ClusterUpdate

  /** A one-field block the user set has the user's value. */
  predicate SetAs<T(==)>(spec: Option<T>, c: Option<T>) {
    spec.Some? ==> c == spec
  }

  predicate AddonSetAs(spec: Option<bool>, c: Option<Addon>) {
    spec.Some? ==> c.Some? && c.value.flag == spec.value
  }

  predicate AddonsMet(spec: AddonsSpec, c: Addons) {
    && (spec.cloudRun.Some? ==>
          c.cloudRun.Some? && c.cloudRun.value.disabled == spec.cloudRun.value.disabled &&
          c.cloudRun.value.loadBalancerType == StringValue(spec.cloudRun.value.loadBalancerType))
    && AddonSetAs(spec.configConnector, c.configConnector) && AddonSetAs(spec.dnsCache, c.dnsCache)
    && AddonSetAs(spec.persistentDiskCsi, c.persistentDiskCsi)
    && AddonSetAs(spec.horizontalPodAutoscaling, c.horizontalPodAutoscaling)
    && AddonSetAs(spec.httpLoadBalancing, c.httpLoadBalancing) && AddonSetAs(spec.dashboard, c.dashboard)
    && AddonSetAs(spec.networkPolicy, c.networkPolicy)
  }

  /** Inside a block the user set, an unset scalar is met only by its zero value. */
  predicate PoolDefaultsMet(spec: PoolDefaultsSpec, c: PoolDefaults) {
    && c.bootDiskKmsKey == StringValue(spec.bootDiskKmsKey) && c.diskSizeGb == Int64Value(spec.diskSizeGb)
    && c.minCpuPlatform == StringValue(spec.minCpuPlatform) && c.oauthScopes == spec.oauthScopes
    && c.serviceAccount == StringValue(spec.serviceAccount)
    && (spec.management.Some? ==>
          c.management.Some? && c.management.value.autoRepair == BoolValue(spec.management.value.autoRepair) &&
          c.management.value.autoUpgrade == BoolValue(spec.management.value.autoUpgrade))
    && (spec.shielded.Some? ==>
          c.shielded.Some? && c.shielded.value.secureBoot == BoolValue(spec.shielded.value.secureBoot) &&
          c.shielded.value.integrityMonitoring == BoolValue(spec.shielded.value.integrityMonitoring))
    && (spec.upgrade.Some? ==>
          c.upgrade.Some? && c.upgrade.value.maxSurge == Int64Value(spec.upgrade.value.maxSurge) &&
          c.upgrade.value.maxUnavailable == Int64Value(spec.upgrade.value.maxUnavailable))
  }

  /** A list the user set matches entry by entry; an empty one asks for nothing. */
  predicate LimitsMet(spec: seq<Option<LimitSpec>>, c: seq<Option<Limit>>) {
    spec != [] ==>
      |c| == |spec| &&
      forall i :: 0 <= i < |spec| ==>
        if spec[i].None? then c[i].None?
        else c[i].Some? && c[i].value.maximum == Int64Value(spec[i].value.maximum) &&
             c[i].value.minimum == Int64Value(spec[i].value.minimum) &&
             c[i].value.resourceType == StringValue(spec[i].value.resourceType)
  }

  predicate AutoscalingMet(spec: AutoscalingSpec, c: Autoscaling) {
    && c.locations == spec.locations && c.autoprovisioning == BoolValue(spec.autoprovisioning)
    && LimitsMet(spec.limits, c.limits)
    && (spec.defaults.Some? ==> c.defaults.Some? && PoolDefaultsMet(spec.defaults.value, c.defaults.value))
  }

  predicate WindowMet(spec: MaintenanceSpec, w: Window) {
    && (spec.daily.Some? ==> w.daily.Some? && w.daily.value.startTime == spec.daily.value)
    && (spec.exclusions.Some? ==> w.exclusions == spec.exclusions.value)
    && (spec.recurring.Some? ==>
          w.recurring.Some? && SetAs(spec.recurring.value.window, w.recurring.value.window) &&
          (spec.recurring.value.recurrence.Some? ==> w.recurring.value.recurrence == spec.recurring.value.recurrence.value))
  }

  predicate CidrsMet(spec: seq<Option<CidrSpec>>, c: seq<Option<Cidr>>) {
    spec != [] ==>
      |c| == |spec| &&
      forall i :: 0 <= i < |spec| ==>
        if spec[i].None? then c[i].None?
        else c[i].Some? && c[i].value.cidr == spec[i].value.cidr &&
             c[i].value.displayName == StringValue(spec[i].value.displayName)
  }

  predicate PrivateClusterMet(spec: PrivateClusterSpec, c: PrivateCluster) {
    && c.privateEndpoint == BoolValue(spec.privateEndpoint) && c.privateNodes == BoolValue(spec.privateNodes)
    && c.masterCidr == StringValue(spec.masterCidr) && SetAs(spec.globalAccess, c.globalAccess)
  }

  /** The cluster meets the spec in section `s`. Locations, logging, monitoring and labels
      are always compared, so leaving them unset asks for their zero value; of the
      notification block only the presence of a Pub/Sub block is asked for; a network block
      asks for node visibility and datapath only. */
  predicate Met(s: Section, spec: ClusterParameters, c: ClusterValue) {
    match s
    case AddonsSection => spec.addons.Some? ==> c.addons.Some? && AddonsMet(spec.addons.value, c.addons.value)
    case AutopilotSection => SetAs(spec.autopilot, c.autopilot)
    case AutoscalingSection =>
      spec.autoscaling.Some? ==> c.autoscaling.Some? && AutoscalingMet(spec.autoscaling.value, c.autoscaling.value)
    case BinaryAuthorizationSection => SetAs(spec.binaryAuthorization, c.binaryAuthorization)
    case EncryptionSection =>
      spec.encryption.Some? ==>
        c.encryption.Some? && c.encryption.value.keyName == StringValue(spec.encryption.value.keyName) &&
        c.encryption.value.state == StringValue(spec.encryption.value.state)
    case LegacyAbacSection => SetAs(spec.legacyAbac, c.legacyAbac)
    case LocationsSection => c.locations == spec.locations
    case LoggingSection => c.loggingService == StringValue(spec.loggingService)
    case MaintenanceSection =>
      spec.maintenance.Some? ==>
        c.maintenance.Some? && c.maintenance.value.window.Some? &&
        WindowMet(spec.maintenance.value, c.maintenance.value.window.value)
    case MasterNetworksSection =>
      spec.masterNetworks.Some? ==>
        c.masterNetworks.Some? && c.masterNetworks.value.enabled == BoolValue(spec.masterNetworks.value.enabled) &&
        CidrsMet(spec.masterNetworks.value.cidrBlocks, c.masterNetworks.value.cidrBlocks)
    case MonitoringSection => c.monitoringService == StringValue(spec.monitoringService)
    case IntraNodeSection =>
      spec.networkConfig.Some? ==>
        (c.networkConfig.Some? && c.networkConfig.value.intraNodeVisibility) ==
        BoolValue(spec.networkConfig.value.intraNodeVisibility)
    case DatapathSection =>
      spec.networkConfig.Some? ==>
        (if c.networkConfig.Some? then c.networkConfig.value.datapathProvider else "") ==
        StringValue(spec.networkConfig.value.datapathProvider)
    case NetworkPolicySection =>
      spec.networkPolicy.Some? ==>
        c.networkPolicy.Some? && c.networkPolicy.value.enabled == BoolValue(spec.networkPolicy.value.enabled) &&
        c.networkPolicy.value.provider == StringValue(spec.networkPolicy.value.provider)
    case NotificationSection => spec.notification.Some? ==> c.notification.Some? && c.notification.value.pubsub.Some?
    case PrivateClusterSection =>
      spec.privateCluster.Some? ==>
        c.privateCluster.Some? && PrivateClusterMet(spec.privateCluster.value, c.privateCluster.value)
    case ReleaseChannelSection => SetAs(spec.releaseChannel, c.releaseChannel)
    case LabelsSection => c.resourceLabels == spec.resourceLabels
    case UsageExportSection =>
      spec.usageExport.Some? ==>
        c.usageExport.Some? && c.usageExport.value.egressMetering == BoolValue(spec.usageExport.value.egressMetering) &&
        SetAs(spec.usageExport.value.bigquery, c.usageExport.value.bigquery) &&
        SetAs(spec.usageExport.value.consumptionMetering, c.usageExport.value.consumptionMetering)
    case VerticalPodSection => SetAs(spec.verticalPodAutoscaling, c.verticalPodAutoscaling)
    case WorkloadIdentitySection => SetAs(spec.workloadIdentity, c.workloadIdentity)
  }

  lemma AddonsDrift(spec: Option<AddonsSpec>, c: Option<Addons>)
    ensures DropForce(DesiredAddons(spec, c)) == DropForce(c) <==>
            (spec.Some? ==> c.Some? && AddonsMet(spec.value, c.value))
  {
  }

  lemma PoolDefaultsDrift(spec: Option<PoolDefaultsSpec>, c: Option<PoolDefaults>)
    ensures DesiredPoolDefaults(spec, c) == c <==> (spec.Some? ==> c.Some? && PoolDefaultsMet(spec.value, c.value))
  {
  }

  lemma LimitsDrift(spec: seq<Option<LimitSpec>>, c: seq<Option<Limit>>)
    ensures DesiredLimits(spec, c) == c <==> LimitsMet(spec, c)
  {
    if spec != [] && DesiredLimits(spec, c) == c {
      forall i | 0 <= i < |spec|
        ensures c[i] == LimitOf(spec[i])
      {
        assert DesiredLimits(spec, c)[i] == LimitOf(spec[i]);
      }
    }
  }

  lemma CidrsDrift(spec: seq<Option<CidrSpec>>, c: seq<Option<Cidr>>)
    ensures DesiredCidrs(spec, c) == c <==> CidrsMet(spec, c)
  {
    if spec != [] && DesiredCidrs(spec, c) == c {
      forall i | 0 <= i < |spec|
        ensures c[i] == CidrOf(spec[i])
      {
        assert DesiredCidrs(spec, c)[i] == CidrOf(spec[i]);
      }
    }
  }

  lemma MaintenanceDrift(spec: Option<MaintenanceSpec>, c: Option<Maintenance>)
    ensures DesiredMaintenance(spec, c) == c <==>
            (spec.Some? ==> c.Some? && c.value.window.Some? && WindowMet(spec.value, c.value.window.value))
  {
  }

  /** The comparison of a section is exact: it finds a difference if and only if the
      cluster does not meet the spec there. */
  lemma DiffersIffUnmet(s: Section, spec: ClusterParameters, c: ClusterValue)
    ensures Differs(s, spec, c) <==> !Met(s, spec, c)
  {
    match s
    case AddonsSection => AddonsDrift(spec.addons, c.addons);
    case AutoscalingSection =>
      if spec.autoscaling.Some? {
        var a := c.autoscaling.GetOr(NoAutoscaling);
        PoolDefaultsDrift(spec.autoscaling.value.defaults, a.defaults);
        LimitsDrift(spec.autoscaling.value.limits, a.limits);
      }
    case MaintenanceSection => MaintenanceDrift(spec.maintenance, c.maintenance);
    case MasterNetworksSection =>
      if spec.masterNetworks.Some? {
        CidrsDrift(spec.masterNetworks.value.cidrBlocks, c.masterNetworks.GetOr(NoMasterNetworks).cidrBlocks);
      }
    case _ =>
  }

  /** A cluster is up to date exactly when its bootstrap pool is gone and it meets the spec
      in every section. */
  lemma UpToDateIffMet(spec: ClusterParameters, c: ClusterValue)
    ensures Next(spec, c).None? <==> !HasBootstrapPool(c.nodePools) && forall s: Section :: Met(s, spec, c)
  {
    EveryUpdateCounts(spec, c);
    forall s: Section
      ensures s in Differing(spec, c) <==> !Met(s, spec, c)
    {
      DiffersIffUnmet(s, spec, c);
    }
    if forall s: Section :: Met(s, spec, c) {
      assert Differing(spec, c) == {};
    }
    if Work(spec, c) == 0 {
      assert Differing(spec, c) == {};
    }
  }

  /** Repeated updates bring every cluster to meet its spec, in at most 22 of them. */
  lemma UpdatesMeetSpec(spec: ClusterParameters, c: ClusterValue, n: nat, s: Section)
    requires n >= Work(spec, c)
    ensures Met(s, spec, After(spec, c, n)) && !HasBootstrapPool(After(spec, c, n).nodePools)
  {
    UpdatesConverge(spec, c, n);
    UpToDateIffMet(spec, After(spec, c, n));
  }

  /** The order in which the sections are compared. */
  const ComparisonOrder: seq<Section> := [
    AddonsSection, AutopilotSection, AutoscalingSection, BinaryAuthorizationSection, EncryptionSection,
    LegacyAbacSection, LocationsSection, LoggingSection, MaintenanceSection, MasterNetworksSection,
    MonitoringSection, IntraNodeSection, DatapathSection, NetworkPolicySection, NotificationSection,
    PrivateClusterSection, ReleaseChannelSection, LabelsSection, UsageExportSection, VerticalPodSection,
    WorkloadIdentitySection]

  lemma ComparisonOrderByRank(i: nat)
    requires i < |ComparisonOrder|
    ensures Rank(ComparisonOrder[i]) == i
  {
  }

  /** Which update is sent, on the spec's fields: without the bootstrap pool, the one for the
      first section in that order that the cluster does not meet. */
  lemma FirstUnmetIsUpdated(i: nat, spec: ClusterParameters, c: ClusterValue)
    requires i < |ComparisonOrder| && !HasBootstrapPool(c.nodePools) && !Met(ComparisonOrder[i], spec, c)
    requires forall j :: 0 <= j < i ==> Met(ComparisonOrder[j], spec, c)
    ensures Present(ComparisonOrder[i], spec)
    ensures Next(spec, c) == Some(RequestFor(ComparisonOrder[i], spec))
  {
    var s := ComparisonOrder[i];
    ComparisonOrderByRank(i);
    DiffersIffUnmet(s, spec, c);
    forall t: Section | Rank(t) < Rank(s)
      ensures !Differs(t, spec, c)
    {
      ComparisonOrderByRank(Rank(t));
      RankIsInjective(t, ComparisonOrder[Rank(t)]);
      DiffersIffUnmet(t, spec, c);
    }
    FirstDifferingDecides(s, spec, c);
  }
}
