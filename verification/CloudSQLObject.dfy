/** The instance and spec objects and the code that writes them field by field
    (pkg/clients/cloudsql/cloudsql.go). */
module CloudSQLObject {
  import opened Pointers
  import opened CloudSQL

  class DatabaseInstance {
    var value: Instance

    /** A deep copy of an instance. */
    constructor (v: Instance)
      ensures value == v
    {
      value := v;
    }

    method GenerateDatabaseInstance(name: string, p: Parameters)
      modifies this
      ensures value == Desired(name, p, old(value))
    {
      value := value.(databaseVersion := StringValue(p.databaseVersion),
                      gceZone := StringValue(p.gceZone),
                      instanceType := StringValue(p.instanceType),
                      masterInstanceName := StringValue(p.masterInstanceName),
                      maxDiskSize := Int64Value(p.maxDiskSize),
                      name := name,
                      region := p.region,
                      replicaNames := p.replicaNames,
                      suspensionReason := p.suspensionReason);
      var key := WriteName(p.kmsKeyName, value.kmsKeyName);
      var replica := WriteName(p.failoverReplica, value.failoverReplica);
      var premises := WriteName(p.onPremises, value.onPremises);
      value := value.(kmsKeyName := key, failoverReplica := replica, onPremises := premises);
      if value.settings.None? {
        value := value.(settings := Some(NoSettings));
      }
      var settings := GenerateSettings(p.settings, value.settings.value);
      value := value.(settings := Some(settings));
    }
  }

  method WriteName(spec: Option<string>, cur: Option<Named>) returns (n: Option<Named>)
    ensures n == DesiredNamed(spec, cur)
  {
    n := cur;
    if spec.Some? {
      if n.None? {
        n := Some(Named("", ""));
      }
      n := Some(n.value.(name := spec.value));
    }
  }

  method GenerateSettings(s: SettingsSpec, cur: Settings) returns (d: Settings)
    ensures d == DesiredSettings(s, cur)
  {
    d := cur.(activationPolicy := StringValue(s.activationPolicy),
              gaeApplications := s.gaeApplications,
              availabilityType := StringValue(s.availabilityType),
              crashSafeReplication := BoolValue(s.crashSafeReplication),
              dataDiskSizeGb := Int64Value(s.dataDiskSizeGb),
              dataDiskType := StringValue(s.dataDiskType),
              databaseReplication := BoolValue(s.databaseReplication),
              pricingPlan := StringValue(s.pricingPlan),
              replicationType := StringValue(s.replicationType),
              storageAutoResize := s.storageAutoResize,
              storageAutoResizeLimit := Int64Value(s.storageAutoResizeLimit),
              tier := s.tier,
              userLabels := s.userLabels);
    d := GenerateBlocks(s, d);
    if |s.flags| > 0 {
      var flags := CopyFlags(s.flags);
      d := d.(flags := flags);
    }
  }

  method GenerateBlocks(s: SettingsSpec, cur: Settings) returns (d: Settings)
    ensures d == cur.(backup := DesiredBackup(s.backup, cur.backup), ip := DesiredIp(s.ip, cur.ip),
                      location := DesiredLocation(s.location, cur.location),
                      window := DesiredWindow(s.window, cur.window))
  {
    d := cur;
    if s.backup.Some? {
      var b := s.backup.value;
      var cb := d.backup.GetOr(NoBackup);
      d := d.(backup := Some(cb.(binaryLog := BoolValue(b.binaryLog), enabled := BoolValue(b.enabled),
                                 location := StringValue(b.location),
                                 replicationLogArchiving := BoolValue(b.replicationLogArchiving),
                                 startTime := StringValue(b.startTime))));
    }
    if s.ip.Some? {
      var ip := GenerateIp(s.ip.value, d.ip.GetOr(NoIp));
      d := d.(ip := Some(ip));
    }
    if s.location.Some? {
      var l := s.location.value;
      d := d.(location := Some(d.location.GetOr(NoLocation).(followGae := StringValue(l.followGae),
                                                             zone := StringValue(l.zone))));
    }
    if s.window.Some? {
      var w := s.window.value;
      d := d.(window := Some(d.window.GetOr(NoWindow).(day := Int64Value(w.day), hour := Int64Value(w.hour),
                                                       updateTrack := StringValue(w.updateTrack))));
    }
  }

  method GenerateIp(p: IpSpec, cur: Ip) returns (d: Ip)
    ensures Some(d) == DesiredIp(Some(p), Some(cur))
  {
    d := cur.(ipv4 := BoolValue(p.ipv4), privateNetwork := StringValue(p.privateNetwork),
              requireSsl := BoolValue(p.requireSsl), forceSend := ["Ipv4Enabled"]);
    if |p.networks| > 0 {
      var networks: seq<AclEntry> := [];
      for i := 0 to |p.networks|
        invariant |networks| == i
        invariant forall k :: 0 <= k < i ==> networks[k] == AclOf(p.networks[k])
      {
        var val := p.networks[i];
        networks := networks + [AclEntry(StringValue(val.expirationTime), StringValue(val.name),
                                         StringValue(val.value), ACL_KIND)];
      }
      d := d.(networks := networks);
      assert networks == Acls(p.networks);
    }
  }

  method CopyFlags(from: seq<Flag>) returns (flags: seq<Flag>)
    ensures flags == from
  {
    flags := [];
    for i := 0 to |from|
      invariant flags == from[..i]
    {
      flags := flags + [Flag(from[i].name, from[i].value)];
    }
  }

  // ---- the spec ----

  class SpecObject {
    var value: Parameters

    constructor (v: Parameters)
      ensures value == v
    {
      value := v;
    }

    method LateInitializeSpec(o: Instance)
      modifies this
      ensures value == LateInit(old(value), o)
    {
      if value.region == "" {
        value := value.(region := o.region);
      }
      value := value.(databaseVersion := LateInitializeString(value.databaseVersion, o.databaseVersion),
                      masterInstanceName := LateInitializeString(value.masterInstanceName, o.masterInstanceName),
                      gceZone := LateInitializeString(value.gceZone, o.gceZone),
                      instanceType := LateInitializeString(value.instanceType, o.instanceType),
                      maxDiskSize := LateInitializeInt64(value.maxDiskSize, o.maxDiskSize),
                      replicaNames := LateInitializeStringSlice(value.replicaNames, o.replicaNames),
                      suspensionReason := LateInitializeStringSlice(value.suspensionReason, o.suspensionReason));
      if o.settings.Some? {
        var settings := LateInitializeSettings(value.settings, o.settings.value);
        value := value.(settings := settings);
      }
      if o.kmsKeyName.Some? {
        if value.kmsKeyName.None? {
          value := value.(kmsKeyName := Some(""));
        }
        if value.kmsKeyName.value == "" {
          value := value.(kmsKeyName := Some(o.kmsKeyName.value.name));
        }
      }
      if o.failoverReplica.Some? && value.failoverReplica.None? {
        value := value.(failoverReplica := Some(o.failoverReplica.value.name));
      }
      if o.onPremises.Some? && value.onPremises.None? {
        value := value.(onPremises := Some(o.onPremises.value.name));
      }
    }
  }

  method LateInitializeSettings(s: SettingsSpec, f: Settings) returns (r: SettingsSpec)
    ensures r == LateSettings(s, f)
  {
    r := s;
    if r.tier == "" {
      r := r.(tier := f.tier);
    }
    r := r.(activationPolicy := LateInitializeString(r.activationPolicy, f.activationPolicy),
            gaeApplications := LateInitializeStringSlice(r.gaeApplications, f.gaeApplications),
            availabilityType := LateInitializeString(r.availabilityType, f.availabilityType),
            crashSafeReplication := LateInitializeBool(r.crashSafeReplication, f.crashSafeReplication),
            dataDiskType := LateInitializeString(r.dataDiskType, f.dataDiskType),
            pricingPlan := LateInitializeString(r.pricingPlan, f.pricingPlan),
            replicationType := LateInitializeString(r.replicationType, f.replicationType),
            userLabels := LateInitializeStringMap(r.userLabels, f.userLabels),
            dataDiskSizeGb := LateInitializeInt64(r.dataDiskSizeGb, f.dataDiskSizeGb),
            databaseReplication := LateInitializeBool(r.databaseReplication, f.databaseReplication),
            storageAutoResizeLimit := LateInitializeInt64(r.storageAutoResizeLimit, f.storageAutoResizeLimit));
    if r.storageAutoResize.None? {
      r := r.(storageAutoResize := f.storageAutoResize);
    }
    if |r.flags| == 0 && |f.flags| != 0 {
      var flags := CopyFlags(f.flags);
      r := r.(flags := flags);
    }
    r := LateInitializeBlocks(r, f);
  }

  method LateInitializeBlocks(s: SettingsSpec, f: Settings) returns (r: SettingsSpec)
    ensures r == s.(backup := LateBackup(s.backup, f.backup), ip := LateIp(s.ip, f.ip),
                    location := LateLocation(s.location, f.location), window := LateWindow(s.window, f.window))
  {
    r := s;
    if f.backup.Some? {
      var b := r.backup.GetOr(BackupSpec(None, None, None, None, None));
      r := r.(backup := Some(BackupSpec(
        LateInitializeBool(b.binaryLog, f.backup.value.binaryLog),
        LateInitializeBool(b.enabled, f.backup.value.enabled),
        LateInitializeString(b.location, f.backup.value.location),
        LateInitializeBool(b.replicationLogArchiving, f.backup.value.replicationLogArchiving),
        LateInitializeString(b.startTime, f.backup.value.startTime))));
    }
    if f.ip.Some? {
      var ip := LateInitializeIp(r.ip.GetOr(IpSpec([], None, None, None)), f.ip.value);
      r := r.(ip := Some(ip));
    }
    if f.location.Some? {
      var l := r.location.GetOr(LocationSpec(None, None));
      r := r.(location := Some(LocationSpec(LateInitializeString(l.followGae, f.location.value.followGae),
                                            LateInitializeString(l.zone, f.location.value.zone))));
    }
    if f.window.Some? {
      var w := r.window.GetOr(WindowSpec(None, None, None));
      r := r.(window := Some(WindowSpec(LateInitializeInt64(w.day, f.window.value.day),
                                        LateInitializeInt64(w.hour, f.window.value.hour),
                                        LateInitializeString(w.updateTrack, f.window.value.updateTrack))));
    }
  }

  method LateInitializeIp(p: IpSpec, f: Ip) returns (r: IpSpec)
    ensures Some(r) == LateIp(Some(p), Some(f))
  {
    r := p.(ipv4 := LateInitializeBool(p.ipv4, f.ipv4),
            privateNetwork := LateInitializeString(p.privateNetwork, f.privateNetwork),
            requireSsl := LateInitializeBool(p.requireSsl, f.requireSsl));
    assert |f.networks| == 0 ==> AclSpecs(f.networks) == [];
    if |f.networks| != 0 && |p.networks| == 0 {
      var networks: seq<AclSpec> := [];
      for i := 0 to |f.networks|
        invariant |networks| == i
        invariant forall k :: 0 <= k < i ==> networks[k] == AclSpecOf(f.networks[k])
      {
        var val := f.networks[i];
        networks := networks + [AclSpec(Some(val.expirationTime), Some(val.name), Some(val.value))];
      }
      r := r.(networks := networks);
      assert networks == AclSpecs(f.networks);
    }
  }

  /** Generates over a copy of the observed instance and compares; nothing is written. */
  method IsUpToDate(name: string, p: Parameters, observed: DatabaseInstance) returns (upToDate: bool)
    ensures upToDate <==> UpToDate(name, p, observed.value)
    ensures unchanged(observed)
  {
    var desired := new DatabaseInstance(observed.value);
    desired.GenerateDatabaseInstance(name, p);
    upToDate := InstancesEqual(desired.value, observed.value);
  }

  /** One observation: late-initialise, then compare. The verdict is exact for the fields
      the user had set before. */
  method ObserveDrift(name: string, spec: SpecObject, observed: DatabaseInstance) returns (upToDate: bool)
    modifies spec
    ensures spec.value == LateInit(old(spec.value), observed.value)
    ensures Fills(old(spec.value), spec.value)
    ensures upToDate <==>
            observed.value.name == name && AgreesInstance(old(spec.value), observed.value) &&
            AclKindsMatch(observed.value)
  {
    ghost var was := spec.value;
    spec.LateInitializeSpec(observed.value);
    upToDate := IsUpToDate(name, spec.value, observed);
    DriftIsDisagreement(name, was, observed.value);
    LateInitFills(was, observed.value);
  }
}
