/** Cloud SQL instances: generating the desired instance, late-initialising the spec, and
    deciding drift (pkg/clients/cloudsql/cloudsql.go).

    A spec block that holds a single field is that field. `rest` stands for the fields of
    an API struct that the provider never writes. */
module CloudSQL {
  import opened Pointers

  // ---- spec side (apis/database/v1beta1/cloudsql_instance_types.go) ----

  datatype Flag = Flag(name: string, value: string)

  datatype AclSpec = AclSpec(expirationTime: Option<string>, name: Option<string>, value: Option<string>)

  datatype BackupSpec = BackupSpec(
    binaryLog: Option<bool>, enabled: Option<bool>, location: Option<string>,
    replicationLogArchiving: Option<bool>, startTime: Option<string>)

  datatype IpSpec = IpSpec(
    networks: seq<AclSpec>, ipv4: Option<bool>, privateNetwork: Option<string>, requireSsl: Option<bool>)

  datatype LocationSpec = LocationSpec(followGae: Option<string>, zone: Option<string>)

  datatype WindowSpec = WindowSpec(day: Option<int>, hour: Option<int>, updateTrack: Option<string>)

  datatype SettingsSpec = SettingsSpec(
    tier: string, activationPolicy: Option<string>, gaeApplications: seq<string>,
    availabilityType: Option<string>, crashSafeReplication: Option<bool>, storageAutoResize: Option<bool>,
    dataDiskType: Option<string>, pricingPlan: Option<string>, replicationType: Option<string>,
    userLabels: map<string, string>, flags: seq<Flag>, backup: Option<BackupSpec>, ip: Option<IpSpec>,
    location: Option<LocationSpec>, window: Option<WindowSpec>, dataDiskSizeGb: Option<int>,
    databaseReplication: Option<bool>, storageAutoResizeLimit: Option<int>)

  datatype Parameters = Parameters(
    region: string, settings: SettingsSpec, databaseVersion: Option<string>,
    masterInstanceName: Option<string>, kmsKeyName: Option<string>, failoverReplica: Option<string>,
    gceZone: Option<string>, instanceType: Option<string>, maxDiskSize: Option<int>,
    onPremises: Option<string>, replicaNames: seq<string>, suspensionReason: seq<string>)

  // ---- API side (sqladmin.DatabaseInstance) ----

  datatype AclEntry = AclEntry(expirationTime: string, name: string, value: string, kind: string)

  datatype Backup = Backup(
    binaryLog: bool, enabled: bool, location: string, replicationLogArchiving: bool, startTime: string, rest: string)

  // `forceSend` is ForceSendFields, which the comparison ignores.
  datatype Ip = Ip(
    networks: seq<AclEntry>, ipv4: bool, privateNetwork: string, requireSsl: bool, forceSend: seq<string>)

  datatype Location = Location(followGae: string, zone: string, rest: string)

  datatype Window = Window(day: int, hour: int, updateTrack: string, rest: string)

  datatype Settings = Settings(
    tier: string, activationPolicy: string, gaeApplications: seq<string>, availabilityType: string,
    crashSafeReplication: bool, storageAutoResize: Option<bool>, dataDiskType: string, pricingPlan: string,
    replicationType: string, userLabels: map<string, string>, flags: seq<Flag>, backup: Option<Backup>,
    ip: Option<Ip>, location: Option<Location>, window: Option<Window>, dataDiskSizeGb: int,
    databaseReplication: bool, storageAutoResizeLimit: int, rest: string)

  datatype Named = Named(name: string, rest: string)

  datatype Instance = Instance(
    name: string, region: string, settings: Option<Settings>, databaseVersion: string,
    masterInstanceName: string, kmsKeyName: Option<Named>, failoverReplica: Option<Named>, gceZone: string,
    instanceType: string, maxDiskSize: int, onPremises: Option<Named>, replicaNames: seq<string>,
    suspensionReason: seq<string>, rest: string)

  const ACL_KIND := "sql#aclEntry"
  const NoBackup := Backup(false, false, "", false, "", "")
  const NoIp := Ip([], false, "", false, [])
  const NoLocation := Location("", "", "")
  const NoWindow := Window(0, 0, "", "")
  const NoSettings := Settings("", "", [], "", false, None, "", "", "", map[], [], None, None, None, None, 0, false, 0, "")

  // ---- generation ----

  function DesiredNamed(spec: Option<string>, cur: Option<Named>): Option<Named> {
    match spec
    case None => cur
    case Some(name) => Some(Named(name, if cur.Some? then cur.value.rest else ""))
  }

  function DesiredBackup(spec: Option<BackupSpec>, cur: Option<Backup>): Option<Backup> {
    match spec
    case None => cur
    case Some(b) => Some(Backup(BoolValue(b.binaryLog), BoolValue(b.enabled), StringValue(b.location),
                                BoolValue(b.replicationLogArchiving), StringValue(b.startTime),
                                cur.GetOr(NoBackup).rest))
  }

  function AclOf(a: AclSpec): AclEntry {
    AclEntry(StringValue(a.expirationTime), StringValue(a.name), StringValue(a.value), ACL_KIND)
  }

  function Acls(spec: seq<AclSpec>): seq<AclEntry> {
    seq(|spec|, i requires 0 <= i < |spec| => AclOf(spec[i]))
  }

  function DesiredIp(spec: Option<IpSpec>, cur: Option<Ip>): Option<Ip> {
    match spec
    case None => cur
    case Some(p) => Some(Ip(if p.networks == [] then cur.GetOr(NoIp).networks else Acls(p.networks),
                            BoolValue(p.ipv4), StringValue(p.privateNetwork), BoolValue(p.requireSsl),
                            ["Ipv4Enabled"]))
  }

  function DesiredLocation(spec: Option<LocationSpec>, cur: Option<Location>): Option<Location> {
    match spec
    case None => cur
    case Some(l) => Some(Location(StringValue(l.followGae), StringValue(l.zone), cur.GetOr(NoLocation).rest))
  }

  function DesiredWindow(spec: Option<WindowSpec>, cur: Option<Window>): Option<Window> {
    match spec
    case None => cur
    case Some(w) => Some(Window(Int64Value(w.day), Int64Value(w.hour), StringValue(w.updateTrack),
                                cur.GetOr(NoWindow).rest))
  }

  function DesiredSettings(s: SettingsSpec, c: Settings): Settings {
    Settings(s.tier, StringValue(s.activationPolicy), s.gaeApplications, StringValue(s.availabilityType),
             BoolValue(s.crashSafeReplication), s.storageAutoResize, StringValue(s.dataDiskType),
             StringValue(s.pricingPlan), StringValue(s.replicationType), s.userLabels,
             if s.flags == [] then c.flags else s.flags,
             DesiredBackup(s.backup, c.backup), DesiredIp(s.ip, c.ip),
             DesiredLocation(s.location, c.location), DesiredWindow(s.window, c.window),
             Int64Value(s.dataDiskSizeGb), BoolValue(s.databaseReplication),
             Int64Value(s.storageAutoResizeLimit), c.rest)
  }

  /** GenerateDatabaseInstance on an instance that held `c`. */
  function Desired(name: string, p: Parameters, c: Instance): Instance {
    Instance(name, p.region, Some(DesiredSettings(p.settings, c.settings.GetOr(NoSettings))),
             StringValue(p.databaseVersion), StringValue(p.masterInstanceName),
             DesiredNamed(p.kmsKeyName, c.kmsKeyName), DesiredNamed(p.failoverReplica, c.failoverReplica),
             StringValue(p.gceZone), StringValue(p.instanceType), Int64Value(p.maxDiskSize),
             DesiredNamed(p.onPremises, c.onPremises), p.replicaNames, p.suspensionReason, c.rest)
  }

  // ---- comparison ----

  function DropForce(ip: Option<Ip>): Option<Ip> {
    if ip.Some? then Some(ip.value.(forceSend := [])) else None
  }

  predicate SettingsEqual(a: Option<Settings>, b: Option<Settings>) {
    if a.Some? && b.Some? then a.value.(ip := DropForce(a.value.ip)) == b.value.(ip := DropForce(b.value.ip))
    else a == b
  }

  predicate InstancesEqual(a: Instance, b: Instance) {
    SettingsEqual(a.settings, b.settings) && a.(settings := None) == b.(settings := None)
  }

  predicate UpToDate(name: string, p: Parameters, observed: Instance) {
    InstancesEqual(Desired(name, p, observed), observed)
  }

  // ---- late initialisation ----

  /** A required string counts as unset while it is empty. */
  function LateRequired(s: string, from: string): string {
    if s == "" then from else s
  }

  function LateBackup(spec: Option<BackupSpec>, from: Option<Backup>): Option<BackupSpec> {
    match from
    case None => spec
    case Some(f) =>
      var b := spec.GetOr(BackupSpec(None, None, None, None, None));
      Some(BackupSpec(
        LateInitializeBool(b.binaryLog, f.binaryLog), LateInitializeBool(b.enabled, f.enabled),
        LateInitializeString(b.location, f.location),
        LateInitializeBool(b.replicationLogArchiving, f.replicationLogArchiving),
        LateInitializeString(b.startTime, f.startTime)))
  }

  function AclSpecOf(a: AclEntry): AclSpec {
    AclSpec(Some(a.expirationTime), Some(a.name), Some(a.value))
  }

  function AclSpecs(from: seq<AclEntry>): seq<AclSpec> {
    seq(|from|, i requires 0 <= i < |from| => AclSpecOf(from[i]))
  }

  function LateIp(spec: Option<IpSpec>, from: Option<Ip>): Option<IpSpec> {
    match from
    case None => spec
    case Some(f) =>
      var p := spec.GetOr(IpSpec([], None, None, None));
      Some(IpSpec(
        if p.networks == [] then AclSpecs(f.networks) else p.networks,
        LateInitializeBool(p.ipv4, f.ipv4), LateInitializeString(p.privateNetwork, f.privateNetwork),
        LateInitializeBool(p.requireSsl, f.requireSsl)))
  }

  function LateLocation(spec: Option<LocationSpec>, from: Option<Location>): Option<LocationSpec> {
    match from
    case None => spec
    case Some(f) =>
      var l := spec.GetOr(LocationSpec(None, None));
      Some(LocationSpec(LateInitializeString(l.followGae, f.followGae), LateInitializeString(l.zone, f.zone)))
  }

  function LateWindow(spec: Option<WindowSpec>, from: Option<Window>): Option<WindowSpec> {
    match from
    case None => spec
    case Some(f) =>
      var w := spec.GetOr(WindowSpec(None, None, None));
      Some(WindowSpec(LateInitializeInt64(w.day, f.day), LateInitializeInt64(w.hour, f.hour),
                      LateInitializeString(w.updateTrack, f.updateTrack)))
  }

  function LateSettings(s: SettingsSpec, f: Settings): SettingsSpec {
    SettingsSpec(
      LateRequired(s.tier, f.tier), LateInitializeString(s.activationPolicy, f.activationPolicy),
      LateInitializeStringSlice(s.gaeApplications, f.gaeApplications),
      LateInitializeString(s.availabilityType, f.availabilityType),
      LateInitializeBool(s.crashSafeReplication, f.crashSafeReplication),
      if s.storageAutoResize.None? then f.storageAutoResize else s.storageAutoResize,
      LateInitializeString(s.dataDiskType, f.dataDiskType), LateInitializeString(s.pricingPlan, f.pricingPlan),
      LateInitializeString(s.replicationType, f.replicationType),
      LateInitializeStringMap(s.userLabels, f.userLabels),
      if s.flags == [] then f.flags else s.flags,
      LateBackup(s.backup, f.backup), LateIp(s.ip, f.ip), LateLocation(s.location, f.location),
      LateWindow(s.window, f.window), LateInitializeInt64(s.dataDiskSizeGb, f.dataDiskSizeGb),
      LateInitializeBool(s.databaseReplication, f.databaseReplication),
      LateInitializeInt64(s.storageAutoResizeLimit, f.storageAutoResizeLimit))
  }

  /** The encryption key block: an empty key name is filled like an absent block. */
  function LateKey(spec: Option<string>, from: Option<Named>): Option<string> {
    match from
    case None => spec
    case Some(f) => Some(LateRequired(spec.GetOr(""), f.name))
  }

  /** The replica and on-premises blocks: filled whole or not at all. */
  function LateBlock(spec: Option<string>, from: Option<Named>): Option<string> {
    if spec.None? && from.Some? then Some(from.value.name) else spec
  }

  /** LateInitializeSpec. */
  function LateInit(p: Parameters, o: Instance): Parameters {
    Parameters(
      LateRequired(p.region, o.region),
      if o.settings.Some? then LateSettings(p.settings, o.settings.value) else p.settings,
      LateInitializeString(p.databaseVersion, o.databaseVersion),
      LateInitializeString(p.masterInstanceName, o.masterInstanceName),
      LateKey(p.kmsKeyName, o.kmsKeyName), LateBlock(p.failoverReplica, o.failoverReplica),
      LateInitializeString(p.gceZone, o.gceZone), LateInitializeString(p.instanceType, o.instanceType),
      LateInitializeInt64(p.maxDiskSize, o.maxDiskSize), LateBlock(p.onPremises, o.onPremises),
      LateInitializeStringSlice(p.replicaNames, o.replicaNames),
      LateInitializeStringSlice(p.suspensionReason, o.suspensionReason))
  }

  // ---- agreement: every field the user set has the observed value ----

  predicate Agrees<T(==)>(s: Option<T>, v: T) { s.Some? ==> s.value == v }

  predicate AgreesRequired(s: string, v: string) { s != "" ==> s == v }

  predicate AgreesList<T(==)>(s: seq<T>, v: seq<T>) { s != [] ==> s == v }

  /** A block the user set must exist, with its name. */
  predicate AgreesBlock(s: Option<string>, o: Option<Named>) {
    s.Some? ==> o.Some? && s.value == o.value.name
  }

  predicate AgreesKey(s: Option<string>, o: Option<Named>) {
    s.Some? ==> o.Some? && AgreesRequired(s.value, o.value.name)
  }

  predicate AgreesBackup(s: Option<BackupSpec>, o: Option<Backup>) {
    s.Some? ==>
      && o.Some?
      && Agrees(s.value.binaryLog, o.value.binaryLog) && Agrees(s.value.enabled, o.value.enabled)
      && Agrees(s.value.location, o.value.location)
      && Agrees(s.value.replicationLogArchiving, o.value.replicationLogArchiving)
      && Agrees(s.value.startTime, o.value.startTime)
  }

  /** A list of networks the user set must match entry by entry. */
  predicate AgreesNetworks(s: seq<AclSpec>, o: seq<AclEntry>) {
    s != [] ==>
      |s| == |o| &&
      forall i :: 0 <= i < |s| ==>
        StringValue(s[i].expirationTime) == o[i].expirationTime && StringValue(s[i].name) == o[i].name &&
        StringValue(s[i].value) == o[i].value
  }

  predicate AgreesIp(s: Option<IpSpec>, o: Option<Ip>) {
    s.Some? ==>
      && o.Some?
      && AgreesNetworks(s.value.networks, o.value.networks)
      && Agrees(s.value.ipv4, o.value.ipv4) && Agrees(s.value.privateNetwork, o.value.privateNetwork)
      && Agrees(s.value.requireSsl, o.value.requireSsl)
  }

  predicate AgreesLocation(s: Option<LocationSpec>, o: Option<Location>) {
    s.Some? ==> o.Some? && Agrees(s.value.followGae, o.value.followGae) && Agrees(s.value.zone, o.value.zone)
  }

  predicate AgreesWindow(s: Option<WindowSpec>, o: Option<Window>) {
    s.Some? ==>
      o.Some? && Agrees(s.value.day, o.value.day) && Agrees(s.value.hour, o.value.hour) &&
      Agrees(s.value.updateTrack, o.value.updateTrack)
  }

  predicate AgreesScalars(s: SettingsSpec, o: Settings) {
    && AgreesRequired(s.tier, o.tier) && Agrees(s.activationPolicy, o.activationPolicy)
    && AgreesList(s.gaeApplications, o.gaeApplications) && Agrees(s.availabilityType, o.availabilityType)
    && Agrees(s.crashSafeReplication, o.crashSafeReplication)
    && (s.storageAutoResize.Some? ==> o.storageAutoResize == s.storageAutoResize)
    && Agrees(s.dataDiskType, o.dataDiskType) && Agrees(s.pricingPlan, o.pricingPlan)
    && Agrees(s.replicationType, o.replicationType) && (s.userLabels != map[] ==> s.userLabels == o.userLabels)
    && AgreesList(s.flags, o.flags) && Agrees(s.dataDiskSizeGb, o.dataDiskSizeGb)
    && Agrees(s.databaseReplication, o.databaseReplication)
    && Agrees(s.storageAutoResizeLimit, o.storageAutoResizeLimit)
  }

  predicate AgreesSettings(s: SettingsSpec, o: Settings) {
    && AgreesScalars(s, o)
    && AgreesBackup(s.backup, o.backup) && AgreesIp(s.ip, o.ip)
    && AgreesLocation(s.location, o.location) && AgreesWindow(s.window, o.window)
  }

  predicate AgreesOutsideSettings(p: Parameters, o: Instance) {
    && AgreesRequired(p.region, o.region) && Agrees(p.databaseVersion, o.databaseVersion)
    && Agrees(p.masterInstanceName, o.masterInstanceName) && Agrees(p.gceZone, o.gceZone)
    && Agrees(p.instanceType, o.instanceType) && Agrees(p.maxDiskSize, o.maxDiskSize)
    && AgreesList(p.replicaNames, o.replicaNames) && AgreesList(p.suspensionReason, o.suspensionReason)
    && AgreesKey(p.kmsKeyName, o.kmsKeyName) && AgreesBlock(p.failoverReplica, o.failoverReplica)
    && AgreesBlock(p.onPremises, o.onPremises)
  }

  /** Every field the user set has the observed value; a block the user set exists. */
  predicate AgreesInstance(p: Parameters, o: Instance) {
    o.settings.Some? && AgreesSettings(p.settings, o.settings.value) && AgreesOutsideSettings(p, o)
  }

  /** The observed networks are entries of the kind the generator writes. */
  predicate AclKindsMatch(o: Instance) {
    o.settings.Some? && o.settings.value.ip.Some? ==>
      forall a :: a in o.settings.value.ip.value.networks ==> a.kind == ACL_KIND
  }

  // ---- drift is exactly disagreement ----

  lemma BackupDrift(s: Option<BackupSpec>, o: Option<Backup>)
    ensures DesiredBackup(LateBackup(s, o), o) == o <==> AgreesBackup(s, o)
  {
  }

  lemma NetworksRoundTrip(o: seq<AclEntry>)
    ensures Acls(AclSpecs(o)) == o <==> forall a :: a in o ==> a.kind == ACL_KIND
  {
    var r := Acls(AclSpecs(o));
    forall i | 0 <= i < |o|
      ensures r[i] == o[i] <==> o[i].kind == ACL_KIND
    {
    }
    if r == o {
      forall a | a in o ensures a.kind == ACL_KIND {
        var i :| 0 <= i < |o| && o[i] == a;
        assert r[i] == o[i];
      }
    }
  }

  lemma NetworksMatch(s: seq<AclSpec>, o: seq<AclEntry>)
    requires s != []
    ensures Acls(s) == o <==> AgreesNetworks(s, o) && forall a :: a in o ==> a.kind == ACL_KIND
  {
    if Acls(s) == o {
      forall i | 0 <= i < |s|
        ensures o[i] == AclOf(s[i])
      {
        assert Acls(s)[i] == AclOf(s[i]);
      }
    }
  }

  lemma IpDrift(s: Option<IpSpec>, o: Option<Ip>)
    ensures DropForce(DesiredIp(LateIp(s, o), o)) == DropForce(o) <==>
            AgreesIp(s, o) && (o.Some? ==> forall a :: a in o.value.networks ==> a.kind == ACL_KIND)
  {
    if o.Some? {
      var p := s.GetOr(IpSpec([], None, None, None));
      if p.networks != [] {
        NetworksMatch(p.networks, o.value.networks);
      } else if o.value.networks != [] {
        assert AclSpecs(o.value.networks) != [];
        NetworksRoundTrip(o.value.networks);
      }
    }
  }

  lemma LocationDrift(s: Option<LocationSpec>, o: Option<Location>)
    ensures DesiredLocation(LateLocation(s, o), o) == o <==> AgreesLocation(s, o)
  {
  }

  lemma WindowDrift(s: Option<WindowSpec>, o: Option<Window>)
    ensures DesiredWindow(LateWindow(s, o), o) == o <==> AgreesWindow(s, o)
  {
  }

  /** The settings without their nested blocks. */
  function Scalars(s: Settings): Settings {
    s.(backup := None, ip := None, location := None, window := None)
  }

  lemma SettingsEqualByParts(a: Settings, b: Settings)
    ensures SettingsEqual(Some(a), Some(b)) <==>
            Scalars(a) == Scalars(b) && a.backup == b.backup && DropForce(a.ip) == DropForce(b.ip) &&
            a.location == b.location && a.window == b.window
  {
  }

  lemma ScalarsDrift(s: SettingsSpec, o: Settings)
    ensures Scalars(DesiredSettings(LateSettings(s, o), o)) == Scalars(o) <==> AgreesScalars(s, o)
  {
  }

  lemma SettingsDrift(s: SettingsSpec, o: Settings)
    ensures SettingsEqual(Some(DesiredSettings(LateSettings(s, o), o)), Some(o)) <==>
            AgreesSettings(s, o) && (o.ip.Some? ==> forall a :: a in o.ip.value.networks ==> a.kind == ACL_KIND)
  {
    SettingsEqualByParts(DesiredSettings(LateSettings(s, o), o), o);
    ScalarsDrift(s, o);
    BackupDrift(s.backup, o.backup);
    IpDrift(s.ip, o.ip);
    LocationDrift(s.location, o.location);
    WindowDrift(s.window, o.window);
  }

  lemma BlockDrift(s: Option<string>, o: Option<Named>)
    ensures DesiredNamed(LateBlock(s, o), o) == o <==> AgreesBlock(s, o)
    ensures DesiredNamed(LateKey(s, o), o) == o <==> AgreesKey(s, o)
  {
  }

  lemma DriftOutsideSettings(name: string, p: Parameters, o: Instance)
    ensures Desired(name, LateInit(p, o), o).(settings := None) == o.(settings := None) <==>
            o.name == name && AgreesOutsideSettings(p, o)
  {
    BlockDrift(p.kmsKeyName, o.kmsKeyName);
    BlockDrift(p.failoverReplica, o.failoverReplica);
    BlockDrift(p.onPremises, o.onPremises);
  }

  /** Drift detection is exact: after late initialisation an instance is up to date if and
      only if it has settings and the right name, its network entries are of the expected
      kind, and it agrees with every field the user had set. */
  lemma DriftIsDisagreement(name: string, p: Parameters, o: Instance)
    ensures UpToDate(name, LateInit(p, o), o) <==> o.name == name && AgreesInstance(p, o) && AclKindsMatch(o)
  {
    DriftOutsideSettings(name, p, o);
    if o.settings.Some? {
      SettingsDrift(p.settings, o.settings.value);
    }
  }

  // ---- late initialisation only fills ----

  predicate Keeps<T(==)>(s: Option<T>, t: Option<T>) { s.Some? ==> t == s }

  predicate KeepsRequired(s: string, t: string) { s != "" ==> t == s }

  predicate KeepsList<T(==)>(s: seq<T>, t: seq<T>) { s != [] ==> t == s }

  predicate KeepsKey(s: Option<string>, t: Option<string>) { s.Some? ==> t.Some? && KeepsRequired(s.value, t.value) }

  predicate KeepsBackup(s: Option<BackupSpec>, t: Option<BackupSpec>) {
    s.Some? ==>
      t.Some? && Keeps(s.value.binaryLog, t.value.binaryLog) && Keeps(s.value.enabled, t.value.enabled) &&
      Keeps(s.value.location, t.value.location) && Keeps(s.value.startTime, t.value.startTime) &&
      Keeps(s.value.replicationLogArchiving, t.value.replicationLogArchiving)
  }

  predicate KeepsIp(s: Option<IpSpec>, t: Option<IpSpec>) {
    s.Some? ==>
      t.Some? && KeepsList(s.value.networks, t.value.networks) && Keeps(s.value.ipv4, t.value.ipv4) &&
      Keeps(s.value.privateNetwork, t.value.privateNetwork) && Keeps(s.value.requireSsl, t.value.requireSsl)
  }

  predicate KeepsLocation(s: Option<LocationSpec>, t: Option<LocationSpec>) {
    s.Some? ==> t.Some? && Keeps(s.value.followGae, t.value.followGae) && Keeps(s.value.zone, t.value.zone)
  }

  predicate KeepsWindow(s: Option<WindowSpec>, t: Option<WindowSpec>) {
    s.Some? ==>
      t.Some? && Keeps(s.value.day, t.value.day) && Keeps(s.value.hour, t.value.hour) &&
      Keeps(s.value.updateTrack, t.value.updateTrack)
  }

  predicate KeepsSettings(s: SettingsSpec, t: SettingsSpec) {
    && KeepsRequired(s.tier, t.tier) && Keeps(s.activationPolicy, t.activationPolicy)
    && KeepsList(s.gaeApplications, t.gaeApplications) && Keeps(s.availabilityType, t.availabilityType)
    && Keeps(s.crashSafeReplication, t.crashSafeReplication) && Keeps(s.storageAutoResize, t.storageAutoResize)
    && Keeps(s.dataDiskType, t.dataDiskType) && Keeps(s.pricingPlan, t.pricingPlan)
    && Keeps(s.replicationType, t.replicationType) && (s.userLabels != map[] ==> t.userLabels == s.userLabels)
    && KeepsList(s.flags, t.flags) && Keeps(s.dataDiskSizeGb, t.dataDiskSizeGb)
    && Keeps(s.databaseReplication, t.databaseReplication)
    && Keeps(s.storageAutoResizeLimit, t.storageAutoResizeLimit)
    && KeepsBackup(s.backup, t.backup) && KeepsIp(s.ip, t.ip)
    && KeepsLocation(s.location, t.location) && KeepsWindow(s.window, t.window)
  }

  /** Every field set in `p` has the same value in `q`: where they differ, `p` is unset. */
  predicate Fills(p: Parameters, q: Parameters) {
    && KeepsRequired(p.region, q.region) && KeepsSettings(p.settings, q.settings)
    && Keeps(p.databaseVersion, q.databaseVersion) && Keeps(p.masterInstanceName, q.masterInstanceName)
    && KeepsKey(p.kmsKeyName, q.kmsKeyName) && Keeps(p.failoverReplica, q.failoverReplica)
    && Keeps(p.gceZone, q.gceZone) && Keeps(p.instanceType, q.instanceType) && Keeps(p.maxDiskSize, q.maxDiskSize)
    && Keeps(p.onPremises, q.onPremises) && KeepsList(p.replicaNames, q.replicaNames)
    && KeepsList(p.suspensionReason, q.suspensionReason)
  }

  lemma SettingsFills(s: SettingsSpec, o: Settings)
    ensures KeepsSettings(s, LateSettings(s, o))
  {
  }

  lemma LateInitFills(p: Parameters, o: Instance)
    ensures Fills(p, LateInit(p, o))
  {
    if o.settings.Some? {
      SettingsFills(p.settings, o.settings.value);
    }
  }

  lemma KeepsSettingsIsTransitive(a: SettingsSpec, b: SettingsSpec, c: SettingsSpec)
    requires KeepsSettings(a, b) && KeepsSettings(b, c)
    ensures KeepsSettings(a, c)
  {
  }

  lemma FillsIsTransitive(a: Parameters, b: Parameters, c: Parameters)
    requires Fills(a, b) && Fills(b, c)
    ensures Fills(a, c)
  {
    KeepsSettingsIsTransitive(a.settings, b.settings, c.settings);
  }

  /** The spec after a sequence of observations. */
  function LateInitAll(p: Parameters, os: seq<Instance>): Parameters
    decreases |os|
  {
    if os == [] then p else LateInitAll(LateInit(p, os[0]), os[1..])
  }

  lemma {:induction false} LateInitAllFills(p: Parameters, os: seq<Instance>)
    ensures Fills(p, LateInitAll(p, os))
    decreases |os|
  {
    if os == [] {
      FillsIsReflexive(p);
    } else {
      var q := LateInit(p, os[0]);
      LateInitFills(p, os[0]);
      LateInitAllFills(q, os[1..]);
      FillsIsTransitive(p, q, LateInitAll(q, os[1..]));
    }
  }

  lemma {:induction false} LateInitAllConcatenates(p: Parameters, os: seq<Instance>, more: seq<Instance>)
    ensures LateInitAll(p, os + more) == LateInitAll(LateInitAll(p, os), more)
    decreases |os|
  {
    if os == [] {
      assert os + more == more;
    } else {
      assert (os + more)[1..] == os[1..] + more;
      LateInitAllConcatenates(LateInit(p, os[0]), os[1..], more);
    }
  }

  /** Across any sequence of observations each field changes at most once, from unset to
      set: whatever is observed after a moment, what was set then stays as it was. */
  lemma ObservationsOnlyFill(p: Parameters, os: seq<Instance>, more: seq<Instance>)
    ensures Fills(p, LateInitAll(p, os))
    ensures Fills(LateInitAll(p, os), LateInitAll(p, os + more))
  {
    LateInitAllFills(p, os);
    LateInitAllConcatenates(p, os, more);
    LateInitAllFills(LateInitAll(p, os), more);
  }

  lemma FillsIsReflexive(p: Parameters)
    ensures Fills(p, p)
  {
  }

  lemma BlocksSettle(s: SettingsSpec, o: Settings)
    ensures LateBackup(LateBackup(s.backup, o.backup), o.backup) == LateBackup(s.backup, o.backup)
    ensures LateIp(LateIp(s.ip, o.ip), o.ip) == LateIp(s.ip, o.ip)
    ensures LateLocation(LateLocation(s.location, o.location), o.location) == LateLocation(s.location, o.location)
    ensures LateWindow(LateWindow(s.window, o.window), o.window) == LateWindow(s.window, o.window)
  {
    if o.ip.Some? && o.ip.value.networks != [] {
      assert AclSpecs(o.ip.value.networks) != [];
    }
  }

  lemma SettingsSettle(s: SettingsSpec, o: Settings)
    ensures LateSettings(LateSettings(s, o), o) == LateSettings(s, o)
  {
    BlocksSettle(s, o);
  }

  /** Observing the same instance again fills nothing more. */
  lemma LateInitSettles(p: Parameters, o: Instance)
    ensures LateInit(LateInit(p, o), o) == LateInit(p, o)
  {
    if o.settings.Some? {
      SettingsSettle(p.settings, o.settings.value);
    }
  }

  // ---- generation settles ----

  lemma DesiredSettingsSettle(s: SettingsSpec, c: Settings)
    ensures DesiredSettings(s, DesiredSettings(s, c)) == DesiredSettings(s, c)
  {
  }

  /** What Create sends is up to date with the spec it was made from, and so is any
      instance the generator has written over. */
  lemma GeneratedIsUpToDate(name: string, p: Parameters, c: Instance)
    ensures UpToDate(name, p, Desired(name, p, c))
  {
    DesiredSettingsSettle(p.settings, c.settings.GetOr(NoSettings));
  }

  // ---- what generation writes ----

  predicate SettingsWritten(s: SettingsSpec, was: Settings, now: Settings) {
    && now.tier == s.tier && now.activationPolicy == StringValue(s.activationPolicy)
    && now.gaeApplications == s.gaeApplications && now.availabilityType == StringValue(s.availabilityType)
    && now.crashSafeReplication == BoolValue(s.crashSafeReplication) && now.storageAutoResize == s.storageAutoResize
    && now.dataDiskType == StringValue(s.dataDiskType) && now.pricingPlan == StringValue(s.pricingPlan)
    && now.replicationType == StringValue(s.replicationType) && now.userLabels == s.userLabels
    && now.flags == (if s.flags != [] then s.flags else was.flags)
    && now.dataDiskSizeGb == Int64Value(s.dataDiskSizeGb)
    && now.databaseReplication == BoolValue(s.databaseReplication)
    && now.storageAutoResizeLimit == Int64Value(s.storageAutoResizeLimit) && now.rest == was.rest
  }

  predicate BlocksWritten(s: SettingsSpec, was: Settings, now: Settings) {
    && (if s.backup.None? then now.backup == was.backup
        else now.backup.Some? &&
             var a, b := s.backup.value, now.backup.value;
             b.binaryLog == BoolValue(a.binaryLog) && b.enabled == BoolValue(a.enabled) &&
             b.location == StringValue(a.location) && b.startTime == StringValue(a.startTime) &&
             b.replicationLogArchiving == BoolValue(a.replicationLogArchiving) &&
             b.rest == if was.backup.Some? then was.backup.value.rest else "")
    && (if s.ip.None? then now.ip == was.ip
        else now.ip.Some? && IpWritten(s.ip.value, was.ip, now.ip.value))
    && (if s.location.None? then now.location == was.location
        else now.location.Some? && now.location.value.zone == StringValue(s.location.value.zone) &&
             now.location.value.followGae == StringValue(s.location.value.followGae) &&
             now.location.value.rest == if was.location.Some? then was.location.value.rest else "")
    && (if s.window.None? then now.window == was.window
        else now.window.Some? && now.window.value.day == Int64Value(s.window.value.day) &&
             now.window.value.hour == Int64Value(s.window.value.hour) &&
             now.window.value.updateTrack == StringValue(s.window.value.updateTrack) &&
             now.window.value.rest == if was.window.Some? then was.window.value.rest else "")
  }

  /** The IPv4 flag is sent even when it is false. */
  predicate IpWritten(s: IpSpec, was: Option<Ip>, now: Ip) {
    && now.ipv4 == BoolValue(s.ipv4) && now.privateNetwork == StringValue(s.privateNetwork)
    && now.requireSsl == BoolValue(s.requireSsl) && now.forceSend == ["Ipv4Enabled"]
    && (s.networks == [] ==> now.networks == if was.Some? then was.value.networks else [])
    && (s.networks != [] ==>
          |now.networks| == |s.networks| &&
          forall i :: 0 <= i < |s.networks| ==>
            now.networks[i].value == StringValue(s.networks[i].value) &&
            now.networks[i].name == StringValue(s.networks[i].name) &&
            now.networks[i].expirationTime == StringValue(s.networks[i].expirationTime) &&
            now.networks[i].kind == "sql#aclEntry")
  }

  predicate NamedWritten(s: Option<string>, was: Option<Named>, now: Option<Named>) {
    if s.None? then now == was
    else now.Some? && now.value.name == s.value && now.value.rest == if was.Some? then was.value.rest else ""
  }

  lemma SettingsGenerated(s: SettingsSpec, c: Settings)
    ensures SettingsWritten(s, c, DesiredSettings(s, c)) && BlocksWritten(s, c, DesiredSettings(s, c))
  {
  }

  /** Field by field, what an instance holds after generation over `c`: every field it writes
      is the spec field of its name. */
  lemma GenerationWrites(name: string, p: Parameters, c: Instance)
    ensures var d := Desired(name, p, c);
            && d.name == name && d.region == p.region && d.databaseVersion == StringValue(p.databaseVersion)
            && d.masterInstanceName == StringValue(p.masterInstanceName) && d.gceZone == StringValue(p.gceZone)
            && d.instanceType == StringValue(p.instanceType) && d.maxDiskSize == Int64Value(p.maxDiskSize)
            && d.replicaNames == p.replicaNames && d.suspensionReason == p.suspensionReason && d.rest == c.rest
            && NamedWritten(p.kmsKeyName, c.kmsKeyName, d.kmsKeyName)
            && NamedWritten(p.failoverReplica, c.failoverReplica, d.failoverReplica)
            && NamedWritten(p.onPremises, c.onPremises, d.onPremises)
            && d.settings.Some? && SettingsWritten(p.settings, c.settings.GetOr(NoSettings), d.settings.value)
            && BlocksWritten(p.settings, c.settings.GetOr(NoSettings), d.settings.value)
  {
    SettingsGenerated(p.settings, c.settings.GetOr(NoSettings));
  }
}
