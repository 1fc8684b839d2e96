/** The one-section-at-a-time update protocol of pkg/clients/cluster/cluster.go: which
    sections differ, which single request is sent, and what repeating that does. */
module ClusterUpdate {
  import opened Pointers
  import opened ClusterTypes
  import opened ClusterSections
  import opened Iteration

  /** The compared sections, in the order they are compared. */
  datatype Section =
    | AddonsSection | AutopilotSection | AutoscalingSection | BinaryAuthorizationSection
    | EncryptionSection | LegacyAbacSection | LocationsSection | LoggingSection
    | MaintenanceSection | MasterNetworksSection | MonitoringSection
    | IntraNodeSection | DatapathSection | NetworkPolicySection | NotificationSection
    | PrivateClusterSection | ReleaseChannelSection | LabelsSection | UsageExportSection
    | VerticalPodSection | WorkloadIdentitySection

  function Rank(s: Section): nat {
    match s
    case AddonsSection => 0
    case AutopilotSection => 1
    case AutoscalingSection => 2
    case BinaryAuthorizationSection => 3
    case EncryptionSection => 4
    case LegacyAbacSection => 5
    case LocationsSection => 6
    case LoggingSection => 7
    case MaintenanceSection => 8
    case MasterNetworksSection => 9
    case MonitoringSection => 10
    case IntraNodeSection => 11
    case DatapathSection => 12
    case NetworkPolicySection => 13
    case NotificationSection => 14
    case PrivateClusterSection => 15
    case ReleaseChannelSection => 16
    case LabelsSection => 17
    case UsageExportSection => 18
    case VerticalPodSection => 19
    case WorkloadIdentitySection => 20
  }

  // ---- comparison ----

  function DropCloudRunForce(r: Option<CloudRun>): Option<CloudRun> {
    if r.Some? then Some(r.value.(forceSend := [])) else None
  }

  function DropAddonForce(a: Option<Addon>): Option<Addon> {
    if a.Some? then Some(a.value.(forceSend := [])) else None
  }

  /** The add-ons without their ForceSendFields: what the comparison looks at, and what
      is left of a payload once it has been sent. */
  function DropForce(a: Option<Addons>): Option<Addons> {
    match a
    case None => None
    case Some(v) => Some(Addons(
      DropCloudRunForce(v.cloudRun), DropAddonForce(v.configConnector), DropAddonForce(v.dnsCache),
      DropAddonForce(v.persistentDiskCsi), DropAddonForce(v.horizontalPodAutoscaling),
      DropAddonForce(v.httpLoadBalancing), DropAddonForce(v.dashboard), DropAddonForce(v.networkPolicy)))
  }

  /** Whether section `s`, generated over the observed section, compares unequal to it. */
  predicate Differs(s: Section, spec: ClusterParameters, c: ClusterValue) {
    match s
    case AddonsSection => DropForce(DesiredAddons(spec.addons, c.addons)) != DropForce(c.addons)
    case AutopilotSection => Overlay(spec.autopilot, c.autopilot) != c.autopilot
    case AutoscalingSection => DesiredAutoscaling(spec.autoscaling, c.autoscaling) != c.autoscaling
    case BinaryAuthorizationSection =>
      Overlay(spec.binaryAuthorization, c.binaryAuthorization) != c.binaryAuthorization
    case EncryptionSection => DesiredEncryption(spec.encryption, c.encryption) != c.encryption
    case LegacyAbacSection => Overlay(spec.legacyAbac, c.legacyAbac) != c.legacyAbac
    case LocationsSection => spec.locations != c.locations
    case LoggingSection => StringValue(spec.loggingService) != c.loggingService
    case MaintenanceSection => DesiredMaintenance(spec.maintenance, c.maintenance) != c.maintenance
    case MasterNetworksSection => DesiredMasterNetworks(spec.masterNetworks, c.masterNetworks) != c.masterNetworks
    case MonitoringSection => StringValue(spec.monitoringService) != c.monitoringService
    case IntraNodeSection =>
      var d := DesiredNetworkConfig(spec.networkConfig, c.networkConfig);
      d.Some? && d.value.intraNodeVisibility != c.networkConfig.GetOr(NoNetworkConfig).intraNodeVisibility
    case DatapathSection =>
      var d := DesiredNetworkConfig(spec.networkConfig, c.networkConfig);
      d.Some? && d.value.datapathProvider != c.networkConfig.GetOr(NoNetworkConfig).datapathProvider
    case NetworkPolicySection => DesiredNetworkPolicy(spec.networkPolicy, c.networkPolicy) != c.networkPolicy
    case NotificationSection => DesiredNotification(spec.notification, c.notification) != c.notification
    case PrivateClusterSection => DesiredPrivateCluster(spec.privateCluster, c.privateCluster) != c.privateCluster
    case ReleaseChannelSection => Overlay(spec.releaseChannel, c.releaseChannel) != c.releaseChannel
    case LabelsSection => spec.resourceLabels != c.resourceLabels
    case UsageExportSection => DesiredUsageExport(spec.usageExport, c.usageExport) != c.usageExport
    case VerticalPodSection =>
      Overlay(spec.verticalPodAutoscaling, c.verticalPodAutoscaling) != c.verticalPodAutoscaling
    case WorkloadIdentitySection => Overlay(spec.workloadIdentity, c.workloadIdentity) != c.workloadIdentity
  }

  predicate HasBootstrapPool(pools: seq<Option<Pool>>) {
    exists i :: 0 <= i < |pools| && pools[i].Some? && pools[i].value.name == BOOTSTRAP
  }

  // ---- requests ----

  /** What an update function sends: one request, about one section. */
  datatype Request =
    | DeleteBootstrapPool
    | SetAddons(addons: Option<Addons>)
    | SetAutopilot(autopilot: Option<bool>)
    | SetAutoscaling(autoscaling: Option<Autoscaling>)
    | SetBinaryAuthorization(binaryAuthorization: Option<bool>)
    | SetEncryption(encryption: Option<Encryption>)
    | SetLegacyAbac(legacyAbac: bool)
    | SetLocations(locations: seq<string>)
    | SetLogging(loggingService: string)
    | SetMaintenance(maintenance: Option<Maintenance>)
    | SetMasterNetworks(masterNetworks: Option<MasterNetworks>)
    | SetMonitoring(monitoringService: string)
    | SetIntraNode(intraNodeVisibility: bool)
    | SetDatapath(datapathProvider: string)
    | SetNetworkPolicy(networkPolicy: Option<NetworkPolicy>)
    | SetNotification(notification: Option<Notification>)
    | SetPrivateCluster(privateCluster: Option<PrivateCluster>)
    | SetReleaseChannel(releaseChannel: Option<string>)
    | SetLabels(resourceLabels: map<string, string>)
    | SetUsageExport(usageExport: Option<UsageExport>)
    | SetVerticalPod(verticalPodAutoscaling: Option<bool>)
    | SetWorkloadIdentity(workloadIdentity: Option<string>)

  /** The spec block an update of section `s` reads, for the sections held by a pointer. */
  predicate Present(s: Section, spec: ClusterParameters) {
    match s
    case AddonsSection => spec.addons.Some?
    case AutopilotSection => spec.autopilot.Some?
    case AutoscalingSection => spec.autoscaling.Some?
    case BinaryAuthorizationSection => spec.binaryAuthorization.Some?
    case EncryptionSection => spec.encryption.Some?
    case LegacyAbacSection => spec.legacyAbac.Some?
    case LocationsSection => true
    case LoggingSection => true
    case MaintenanceSection => spec.maintenance.Some?
    case MasterNetworksSection => spec.masterNetworks.Some?
    case MonitoringSection => true
    case IntraNodeSection => spec.networkConfig.Some?
    case DatapathSection => spec.networkConfig.Some?
    case NetworkPolicySection => spec.networkPolicy.Some?
    case NotificationSection => spec.notification.Some?
    case PrivateClusterSection => spec.privateCluster.Some?
    case ReleaseChannelSection => spec.releaseChannel.Some?
    case LabelsSection => true
    case UsageExportSection => spec.usageExport.Some?
    case VerticalPodSection => spec.verticalPodAutoscaling.Some?
    case WorkloadIdentitySection => spec.workloadIdentity.Some?
  }

  /** The payload of each update function: its generator run on an empty cluster. */
  function RequestFor(s: Section, spec: ClusterParameters): Request
    requires Present(s, spec)
  {
    match s
    case AddonsSection => SetAddons(DesiredAddons(spec.addons, None))
    case AutopilotSection => SetAutopilot(spec.autopilot)
    case AutoscalingSection => SetAutoscaling(DesiredAutoscaling(spec.autoscaling, None))
    case BinaryAuthorizationSection => SetBinaryAuthorization(spec.binaryAuthorization)
    case EncryptionSection => SetEncryption(DesiredEncryption(spec.encryption, None))
    case LegacyAbacSection => SetLegacyAbac(spec.legacyAbac.value)
    case LocationsSection => SetLocations(spec.locations)
    case LoggingSection => SetLogging(StringValue(spec.loggingService))
    case MaintenanceSection => SetMaintenance(DesiredMaintenance(spec.maintenance, None))
    case MasterNetworksSection => SetMasterNetworks(DesiredMasterNetworks(spec.masterNetworks, None))
    case MonitoringSection => SetMonitoring(StringValue(spec.monitoringService))
    case IntraNodeSection => SetIntraNode(BoolValue(spec.networkConfig.value.intraNodeVisibility))
    case DatapathSection => SetDatapath(StringValue(spec.networkConfig.value.datapathProvider))
    case NetworkPolicySection => SetNetworkPolicy(DesiredNetworkPolicy(spec.networkPolicy, None))
    case NotificationSection => SetNotification(DesiredNotification(spec.notification, None))
    case PrivateClusterSection => SetPrivateCluster(DesiredPrivateCluster(spec.privateCluster, None))
    case ReleaseChannelSection => SetReleaseChannel(spec.releaseChannel)
    case LabelsSection => SetLabels(spec.resourceLabels)
    case UsageExportSection => SetUsageExport(DesiredUsageExport(spec.usageExport, None))
    case VerticalPodSection => SetVerticalPod(spec.verticalPodAutoscaling)
    case WorkloadIdentitySection => SetWorkloadIdentity(spec.workloadIdentity)
  }

  function WithoutBootstrap(pools: seq<Option<Pool>>): seq<Option<Pool>> {
    if pools == [] then []
    else
      var rest := WithoutBootstrap(pools[1..]);
      if pools[0].Some? && pools[0].value.name == BOOTSTRAP then rest else [pools[0]] + rest
  }

  /** The provider rule: an accepted request installs exactly its payload in its own
      section (ForceSendFields do not travel) and leaves the rest of the cluster alone. */
  function Install(r: Request, c: ClusterValue): ClusterValue {
    match r
    case DeleteBootstrapPool => c.(nodePools := WithoutBootstrap(c.nodePools))
    case SetAddons(v) => c.(addons := DropForce(v))
    case SetAutopilot(v) => c.(autopilot := v)
    case SetAutoscaling(v) => c.(autoscaling := v)
    case SetBinaryAuthorization(v) => c.(binaryAuthorization := v)
    case SetEncryption(v) => c.(encryption := v)
    case SetLegacyAbac(v) => c.(legacyAbac := Some(v))
    case SetLocations(v) => c.(locations := v)
    case SetLogging(v) => c.(loggingService := v)
    case SetMaintenance(v) => c.(maintenance := v)
    case SetMasterNetworks(v) => c.(masterNetworks := v)
    case SetMonitoring(v) => c.(monitoringService := v)
    case SetIntraNode(v) =>
      c.(networkConfig := Some(c.networkConfig.GetOr(NoNetworkConfig).(intraNodeVisibility := v)))
    case SetDatapath(v) =>
      c.(networkConfig := Some(c.networkConfig.GetOr(NoNetworkConfig).(datapathProvider := v)))
    case SetNetworkPolicy(v) => c.(networkPolicy := v)
    case SetNotification(v) => c.(notification := v)
    case SetPrivateCluster(v) => c.(privateCluster := v)
    case SetReleaseChannel(v) => c.(releaseChannel := v)
    case SetLabels(v) => c.(resourceLabels := v)
    case SetUsageExport(v) => c.(usageExport := v)
    case SetVerticalPod(v) => c.(verticalPodAutoscaling := v)
    case SetWorkloadIdentity(v) => c.(workloadIdentity := v)
  }

  // ---- one step ----

  /** No chosen update reads an absent block. */
  lemma DifferingIsPresent(s: Section, spec: ClusterParameters, c: ClusterValue)
    requires Differs(s, spec, c)
    ensures Present(s, spec)
  {
  }

  // The encoder's instructions are written again by the next generation, and ignored again.
  lemma AddonsPayloadSettles(spec: Option<AddonsSpec>)
    ensures var sent := DropForce(DesiredAddons(spec, None));
            DropForce(DesiredAddons(spec, sent)) == sent
  {
  }

  /** The payload built on an empty cluster is a fixed point of the next comparison. */
  lemma InstallSettles(s: Section, spec: ClusterParameters, c: ClusterValue)
    requires Present(s, spec)
    ensures !Differs(s, spec, Install(RequestFor(s, spec), c))
  {
    if Rank(s) <= Rank(MonitoringSection) {
      InstallSettlesEarly(s, spec, c);
    } else {
      InstallSettlesLate(s, spec, c);
    }
  }

  lemma InstallSettlesEarly(s: Section, spec: ClusterParameters, c: ClusterValue)
    requires Present(s, spec) && Rank(s) <= Rank(MonitoringSection)
    ensures !Differs(s, spec, Install(RequestFor(s, spec), c))
  {
    match s
    case AddonsSection => AddonsPayloadSettles(spec.addons);
    case AutoscalingSection => AutoscalingSettles(spec.autoscaling, None);
    case MaintenanceSection => MaintenanceSettles(spec.maintenance, None);
    case _ =>
  }

  lemma InstallSettlesLate(s: Section, spec: ClusterParameters, c: ClusterValue)
    requires Present(s, spec) && Rank(s) > Rank(MonitoringSection)
    ensures !Differs(s, spec, Install(RequestFor(s, spec), c))
  {
  }

  /** What the comparison of section `s` reads of the observed cluster. */
  predicate SameSection(s: Section, c: ClusterValue, d: ClusterValue) {
    match s
    case AddonsSection => c.addons == d.addons
    case AutopilotSection => c.autopilot == d.autopilot
    case AutoscalingSection => c.autoscaling == d.autoscaling
    case BinaryAuthorizationSection => c.binaryAuthorization == d.binaryAuthorization
    case EncryptionSection => c.encryption == d.encryption
    case LegacyAbacSection => c.legacyAbac == d.legacyAbac
    case LocationsSection => c.locations == d.locations
    case LoggingSection => c.loggingService == d.loggingService
    case MaintenanceSection => c.maintenance == d.maintenance
    case MasterNetworksSection => c.masterNetworks == d.masterNetworks
    case MonitoringSection => c.monitoringService == d.monitoringService
    case IntraNodeSection =>
      c.networkConfig.GetOr(NoNetworkConfig).intraNodeVisibility ==
      d.networkConfig.GetOr(NoNetworkConfig).intraNodeVisibility
    case DatapathSection =>
      c.networkConfig.GetOr(NoNetworkConfig).datapathProvider ==
      d.networkConfig.GetOr(NoNetworkConfig).datapathProvider
    case NetworkPolicySection => c.networkPolicy == d.networkPolicy
    case NotificationSection => c.notification == d.notification
    case PrivateClusterSection => c.privateCluster == d.privateCluster
    case ReleaseChannelSection => c.releaseChannel == d.releaseChannel
    case LabelsSection => c.resourceLabels == d.resourceLabels
    case UsageExportSection => c.usageExport == d.usageExport
    case VerticalPodSection => c.verticalPodAutoscaling == d.verticalPodAutoscaling
    case WorkloadIdentitySection => c.workloadIdentity == d.workloadIdentity
  }

  lemma SameSectionSameVerdict(s: Section, spec: ClusterParameters, c: ClusterValue, d: ClusterValue)
    requires SameSection(s, c, d)
    ensures Differs(s, spec, c) == Differs(s, spec, d)
  {
  }

  /** The section a request is about. */
  function Target(r: Request): Option<Section> {
    match r
    case DeleteBootstrapPool => None
    case SetAddons(_) => Some(AddonsSection)
    case SetAutopilot(_) => Some(AutopilotSection)
    case SetAutoscaling(_) => Some(AutoscalingSection)
    case SetBinaryAuthorization(_) => Some(BinaryAuthorizationSection)
    case SetEncryption(_) => Some(EncryptionSection)
    case SetLegacyAbac(_) => Some(LegacyAbacSection)
    case SetLocations(_) => Some(LocationsSection)
    case SetLogging(_) => Some(LoggingSection)
    case SetMaintenance(_) => Some(MaintenanceSection)
    case SetMasterNetworks(_) => Some(MasterNetworksSection)
    case SetMonitoring(_) => Some(MonitoringSection)
    case SetIntraNode(_) => Some(IntraNodeSection)
    case SetDatapath(_) => Some(DatapathSection)
    case SetNetworkPolicy(_) => Some(NetworkPolicySection)
    case SetNotification(_) => Some(NotificationSection)
    case SetPrivateCluster(_) => Some(PrivateClusterSection)
    case SetReleaseChannel(_) => Some(ReleaseChannelSection)
    case SetLabels(_) => Some(LabelsSection)
    case SetUsageExport(_) => Some(UsageExportSection)
    case SetVerticalPod(_) => Some(VerticalPodSection)
    case SetWorkloadIdentity(_) => Some(WorkloadIdentitySection)
  }

  lemma InstallKeepsOthers(r: Request, t: Section, c: ClusterValue)
    requires Target(r) != Some(t)
    ensures SameSection(t, c, Install(r, c))
  {
    if Rank(t) <= Rank(MonitoringSection) {
      InstallKeepsEarly(r, t, c);
    } else {
      InstallKeepsLate(r, t, c);
    }
  }

  lemma InstallKeepsEarly(r: Request, t: Section, c: ClusterValue)
    requires Target(r) != Some(t) && Rank(t) <= Rank(MonitoringSection)
    ensures SameSection(t, c, Install(r, c))
  {
  }

  lemma InstallKeepsLate(r: Request, t: Section, c: ClusterValue)
    requires Target(r) != Some(t) && Rank(t) > Rank(MonitoringSection)
    ensures SameSection(t, c, Install(r, c))
  {
  }

  lemma TargetOfRequestFor(s: Section, spec: ClusterParameters)
    requires Present(s, spec)
    ensures Target(RequestFor(s, spec)) == Some(s)
  {
  }

  lemma RankIsInjective(s: Section, t: Section)
    requires Rank(s) == Rank(t)
    ensures s == t
  {
  }

  lemma WithoutBootstrapHasNone(pools: seq<Option<Pool>>)
    ensures !HasBootstrapPool(WithoutBootstrap(pools))
    ensures !HasBootstrapPool(pools) ==> WithoutBootstrap(pools) == pools
  {
    if pools != [] {
      WithoutBootstrapHasNone(pools[1..]);
      assert !HasBootstrapPool(pools) ==> !HasBootstrapPool(pools[1..]) by {
        if HasBootstrapPool(pools[1..]) {
          var i :| 0 <= i < |pools[1..]| && pools[1..][i].Some? && pools[1..][i].value.name == BOOTSTRAP;
          assert pools[i + 1].Some?;
        }
      }
      if !HasBootstrapPool(pools) {
        assert !(pools[0].Some? && pools[0].value.name == BOOTSTRAP);
      }
    }
  }

  // ---- the choice ----

  const Order: seq<Section> := [
    AddonsSection, AutopilotSection, AutoscalingSection, BinaryAuthorizationSection, EncryptionSection,
    LegacyAbacSection, LocationsSection, LoggingSection, MaintenanceSection, MasterNetworksSection,
    MonitoringSection, IntraNodeSection, DatapathSection, NetworkPolicySection, NotificationSection,
    PrivateClusterSection, ReleaseChannelSection, LabelsSection, UsageExportSection, VerticalPodSection,
    WorkloadIdentitySection]

  lemma OrderIsByRank(i: nat)
    requires i < |Order|
    ensures Rank(Order[i]) == i
  {
  }

  /** The first section from position `i` on that differs. */
  function FirstDiffering(i: nat, spec: ClusterParameters, c: ClusterValue): (r: Option<Section>)
    requires i <= |Order|
    ensures r.Some? ==> Differs(r.value, spec, c) && Rank(r.value) >= i
    ensures forall t :: i <= Rank(t) && (r.Some? ==> Rank(t) < Rank(r.value)) ==> !Differs(t, spec, c)
    decreases |Order| - i
  {
    if i == |Order| then None
    else
      OrderIsByRank(i);
      assert forall t :: Rank(t) == i ==> t == Order[i] by {
        forall t | Rank(t) == i { RankIsInjective(t, Order[i]); }
      }
      if Differs(Order[i], spec, c) then Some(Order[i]) else FirstDiffering(i + 1, spec, c)
  }

  /** The update IsUpToDate picks, `None` when the cluster is up to date. */
  function Next(spec: ClusterParameters, c: ClusterValue): Option<Request> {
    if HasBootstrapPool(c.nodePools) then Some(DeleteBootstrapPool)
    else
      match FirstDiffering(0, spec, c)
      case None => None
      case Some(s) => DifferingIsPresent(s, spec, c); Some(RequestFor(s, spec))
  }

  // ---- the comparison chain ----

  /** The sections before position `i` all compare equal. */
  ghost predicate AgreeBefore(i: nat, spec: ClusterParameters, c: ClusterValue) {
    forall t: Section :: Rank(t) < i ==> !Differs(t, spec, c)
  }

  lemma OneMoreAgrees(s: Section, spec: ClusterParameters, c: ClusterValue)
    requires AgreeBefore(Rank(s), spec, c) && !Differs(s, spec, c)
    ensures AgreeBefore(Rank(s) + 1, spec, c)
  {
    forall t: Section | Rank(t) == Rank(s) { RankIsInjective(s, t); }
  }

  /** The first section found to differ, and nothing else, decides the update. */
  lemma FirstDifferingDecides(s: Section, spec: ClusterParameters, c: ClusterValue)
    requires !HasBootstrapPool(c.nodePools) && Differs(s, spec, c) && AgreeBefore(Rank(s), spec, c)
    ensures Present(s, spec)
    ensures Next(spec, c) == Some(RequestFor(s, spec))
  {
    var first := FirstDiffering(0, spec, c);
    assert Rank(first.value) == Rank(s);
    RankIsInjective(first.value, s);
    DifferingIsPresent(s, spec, c);
  }

  lemma AllAgreeDecides(spec: ClusterParameters, c: ClusterValue)
    requires !HasBootstrapPool(c.nodePools) && AgreeBefore(|Order|, spec, c)
    ensures Next(spec, c) == None
  {
    if FirstDiffering(0, spec, c).Some? {
      RankIsWithin(FirstDiffering(0, spec, c).value);
    }
  }

  // ---- convergence ----

  function Differing(spec: ClusterParameters, c: ClusterValue): set<Section> {
    set s: Section | Differs(s, spec, c)
  }

  /** How many updates the cluster still needs. */
  function Work(spec: ClusterParameters, c: ClusterValue): nat {
    |Differing(spec, c)| + if HasBootstrapPool(c.nodePools) then 1 else 0
  }

  lemma UpdateKeepsVerdict(r: Request, t: Section, spec: ClusterParameters, c: ClusterValue)
    requires Target(r) != Some(t)
    ensures Differs(t, spec, Install(r, c)) == Differs(t, spec, c)
  {
    InstallKeepsOthers(r, t, c);
    SameSectionSameVerdict(t, spec, c, Install(r, c));
  }

  lemma InstallKeepsPools(r: Request, c: ClusterValue)
    ensures Install(r, c).nodePools == if r.DeleteBootstrapPool? then WithoutBootstrap(c.nodePools) else c.nodePools
  {
  }

  lemma SectionUpdateRemovesOne(s: Section, spec: ClusterParameters, c: ClusterValue)
    requires Differs(s, spec, c) && Present(s, spec)
    ensures Differing(spec, Install(RequestFor(s, spec), c)) == Differing(spec, c) - {s}
  {
    var r := RequestFor(s, spec);
    InstallSettles(s, spec, c);
    TargetOfRequestFor(s, spec);
    forall t: Section | t != s
      ensures Differs(t, spec, Install(r, c)) == Differs(t, spec, c)
    {
      UpdateKeepsVerdict(r, t, spec, c);
    }
  }

  lemma BootstrapDeletionKeepsSections(spec: ClusterParameters, c: ClusterValue)
    ensures Differing(spec, Install(DeleteBootstrapPool, c)) == Differing(spec, c)
  {
    forall t: Section
      ensures Differs(t, spec, Install(DeleteBootstrapPool, c)) == Differs(t, spec, c)
    {
      UpdateKeepsVerdict(DeleteBootstrapPool, t, spec, c);
    }
  }

  /** Every accepted update takes exactly one unit of work off, and only a finished
      cluster has no update to offer. */
  lemma EveryUpdateCounts(spec: ClusterParameters, c: ClusterValue)
    ensures Next(spec, c).None? <==> Work(spec, c) == 0
    ensures Next(spec, c).Some? ==> Work(spec, Install(Next(spec, c).value, c)) == Work(spec, c) - 1
  {
    if HasBootstrapPool(c.nodePools) {
      WithoutBootstrapHasNone(c.nodePools);
      BootstrapDeletionKeepsSections(spec, c);
    } else {
      match FirstDiffering(0, spec, c)
      case None =>
        assert Differing(spec, c) == {};
      case Some(s) =>
        DifferingIsPresent(s, spec, c);
        SectionUpdateRemovesOne(s, spec, c);
        TargetOfRequestFor(s, spec);
        InstallKeepsPools(RequestFor(s, spec), c);
        assert s in Differing(spec, c);
    }
  }

  lemma WorkIsBounded(spec: ClusterParameters, c: ClusterValue)
    ensures Work(spec, c) <= 22
  {
    forall s | s in Differing(spec, c)
      ensures s in Order
    {
      RankIsWithin(s);
      OrderIsByRank(Rank(s));
      RankIsInjective(s, Order[Rank(s)]);
    }
    ListedSetIsNoLarger(Differing(spec, c), Order);
  }

  lemma RankIsWithin(s: Section)
    ensures Rank(s) < |Order|
  {
  }

  lemma ListedSetIsNoLarger<T>(elements: set<T>, list: seq<T>)
    requires forall x :: x in elements ==> x in list
    ensures |elements| <= |list|
  {
    if list != [] {
      assert elements <= (elements - {list[0]}) + {list[0]};
      ListedSetIsNoLarger(elements - {list[0]}, list[1..]);
    } else {
      assert elements == {};
    }
  }

  function Picks(spec: ClusterParameters): ClusterValue -> Option<Request> {
    c => Next(spec, c)
  }

  function WorkOn(spec: ClusterParameters): ClusterValue -> nat {
    c => Work(spec, c)
  }

  /** The cluster after `n` rounds of "compare, send the one update, GKE accepts it". */
  function After(spec: ClusterParameters, c: ClusterValue, n: nat): ClusterValue {
    Iterate(Picks(spec), Install, c, n)
  }

  lemma UpdatesCount(spec: ClusterParameters)
    ensures Counts(Picks(spec), Install, WorkOn(spec))
  {
    forall c: ClusterValue { EveryUpdateCounts(spec, c); }
  }

  /** Convergence: from every spec and every cluster, repeated updates reach "up to date"
      after exactly as many updates as there are differing sections (plus one while the
      bootstrap pool is there), which is never more than 22, and stay there. */
  lemma UpdatesConverge(spec: ClusterParameters, c: ClusterValue, n: nat)
    ensures Next(spec, After(spec, c, n)).None? <==> n >= Work(spec, c)
    ensures Work(spec, c) <= 22
  {
    UpdatesCount(spec);
    IterateConverges(Picks(spec), Install, WorkOn(spec), c, n);
    assert Picks(spec)(After(spec, c, n)) == Next(spec, After(spec, c, n)) && WorkOn(spec)(c) == Work(spec, c);
    WorkIsBounded(spec, c);
  }

  /** What the updates leave alone: a section that agreed is never touched, so the
      fields only GKE writes survive there. */
  lemma {:induction false} AgreeingSectionsAreKept(spec: ClusterParameters, c: ClusterValue, n: nat, t: Section)
    requires !Differs(t, spec, c)
    ensures SameSection(t, c, After(spec, c, n))
    decreases n
  {
    if n > 0 && Next(spec, c).Some? {
      var d := Install(Next(spec, c).value, c);
      AgreeingSectionIsKeptOnce(spec, c, t);
      AgreeingSectionsAreKept(spec, d, n - 1, t);
      SameSectionIsTransitive(t, c, d, After(spec, d, n - 1));
    }
  }

  lemma AgreeingSectionIsKeptOnce(spec: ClusterParameters, c: ClusterValue, t: Section)
    requires Next(spec, c).Some? && !Differs(t, spec, c)
    ensures SameSection(t, c, Install(Next(spec, c).value, c))
    ensures !Differs(t, spec, Install(Next(spec, c).value, c))
  {
    NextNeverTargetsAgreeing(spec, c, t);
    InstallKeepsOthers(Next(spec, c).value, t, c);
    UpdateKeepsVerdict(Next(spec, c).value, t, spec, c);
  }

  lemma NextNeverTargetsAgreeing(spec: ClusterParameters, c: ClusterValue, t: Section)
    requires Next(spec, c).Some? && !Differs(t, spec, c)
    ensures Target(Next(spec, c).value) != Some(t)
  {
    if !HasBootstrapPool(c.nodePools) {
      var s := FirstDiffering(0, spec, c).value;
      DifferingIsPresent(s, spec, c);
      TargetOfRequestFor(s, spec);
    }
  }

  lemma SameSectionIsTransitive(s: Section, a: ClusterValue, b: ClusterValue, c: ClusterValue)
    requires SameSection(s, a, b) && SameSection(s, b, c)
    ensures SameSection(s, a, c)
  {
  }

  // ---- what the updates never see ----

  lemma {:induction false} FixedFieldsAreNotCompared(
    i: nat, spec: ClusterParameters, c: ClusterValue, s: FixedSpec, f: Fixed)
    requires i <= |Order|
    ensures FirstDiffering(i, spec.(fixed := s), c.(fixed := f)) == FirstDiffering(i, spec, c)
    decreases |Order| - i
  {
    if i < |Order| {
      FixedFieldIsNotCompared(Order[i], spec, c, s, f);
      FixedFieldsAreNotCompared(i + 1, spec, c, s, f);
    }
  }

  lemma FixedFieldIsNotCompared(t: Section, spec: ClusterParameters, c: ClusterValue, s: FixedSpec, f: Fixed)
    ensures Differs(t, spec.(fixed := s), c.(fixed := f)) == Differs(t, spec, c)
    ensures Present(t, spec) ==> RequestFor(t, spec.(fixed := s)) == RequestFor(t, spec)
  {
  }

  lemma InstallKeepsFixed(r: Request, c: ClusterValue)
    ensures Install(r, c).fixed == c.fixed
  {
  }

  /** The fields outside the compared sections, such as the description, the networks and
      the initial version, are set by Create alone: whatever the spec and the cluster hold
      there, the verdict and the update are the same, and no update changes them. */
  lemma FixedFieldsAreNeverUpdated(spec: ClusterParameters, c: ClusterValue, s: FixedSpec, f: Fixed, r: Request)
    ensures Next(spec.(fixed := s), c.(fixed := f)) == Next(spec, c)
    ensures Install(r, c).fixed == c.fixed
  {
    InstallKeepsFixed(r, c);
    FixedFieldsAreNotCompared(0, spec, c, s, f);
    var first := FirstDiffering(0, spec, c);
    if first.Some? {
      DifferingIsPresent(first.value, spec, c);
      FixedFieldIsNotCompared(first.value, spec, c, s, f);
    }
  }

  // ---- the bootstrap node pool ----

  /** While the bootstrap pool is observed its deletion is the only update offered; no
      other update is ever about it. */
  lemma BootstrapGoesFirst(spec: ClusterParameters, c: ClusterValue)
    ensures Next(spec, c) == Some(DeleteBootstrapPool) <==> HasBootstrapPool(c.nodePools)
  {
    if !HasBootstrapPool(c.nodePools) && FirstDiffering(0, spec, c).Some? {
      var s := FirstDiffering(0, spec, c).value;
      DifferingIsPresent(s, spec, c);
      TargetOfRequestFor(s, spec);
    }
  }

  lemma InstallNeverAddsBootstrap(r: Request, c: ClusterValue)
    requires !HasBootstrapPool(c.nodePools)
    ensures !HasBootstrapPool(Install(r, c).nodePools)
  {
    InstallKeepsPools(r, c);
    WithoutBootstrapHasNone(c.nodePools);
  }

  // ---- creation ----

  predicate AutopilotEnabled(c: ClusterValue) {
    c.autopilot == Some(true)
  }

  /** The cluster Create sends. */
  function Created(name: string, spec: ClusterParameters): ClusterValue {
    var c := Desired(name, spec, NoCluster);
    if AutopilotEnabled(c) then c else c.(nodePools := [Some(Pool(BOOTSTRAP, 0))])
  }

  /** A created cluster agrees with its spec in every section, and carries the bootstrap
      pool exactly when it is not an autopilot cluster: the deletion of that pool is the
      only update creation leaves to do. */
  lemma CreatedNeedsOnlyBootstrapDeletion(name: string, spec: ClusterParameters)
    ensures Differing(spec, Created(name, spec)) == {}
    ensures HasBootstrapPool(Created(name, spec).nodePools) <==> spec.autopilot != Some(true)
    ensures Next(spec, Created(name, spec)) == if spec.autopilot == Some(true) then None else Some(DeleteBootstrapPool)
    ensures Next(spec, After(spec, Created(name, spec), 1)).None?
  {
    var c := Created(name, spec);
    forall s: Section
      ensures !Differs(s, spec, c)
    {
      CreatedAgrees(s, name, spec);
    }
    if spec.autopilot != Some(true) {
      assert c.nodePools[0] == Some(Pool(BOOTSTRAP, 0));
      assert HasBootstrapPool(c.nodePools);
    }
    EveryUpdateCounts(spec, c);
    UpdatesConverge(spec, c, 1);
  }

  lemma CreatedAgrees(s: Section, name: string, spec: ClusterParameters)
    ensures !Differs(s, spec, Created(name, spec))
  {
    GenerateSettles(name, spec, NoCluster);
    FixedPointAgrees(s, name, spec, Created(name, spec));
  }

  /** A cluster that generation leaves as it is has nothing to compare unequal. */
  lemma FixedPointAgrees(s: Section, name: string, spec: ClusterParameters, c: ClusterValue)
    requires Desired(name, spec, c) == c
    ensures !Differs(s, spec, c)
  {
  }
}
