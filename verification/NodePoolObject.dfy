/** The container.NodePool and spec objects and the code that writes them
    (pkg/clients/nodepool/nodepool.go), and the controller of
    pkg/controller/container/nodepool.go. */
module NodePoolObject {
  import opened Pointers
  import opened ClusterTypes
  import opened ClusterSections
  import opened NodePool
  import Reconcile

  /** The slice is made first and then filled, so an absent entry stays an empty slot. */
  method CopyAccelerators(from: seq<Option<Accelerator>>) returns (copy: seq<Option<Accelerator>>)
    ensures copy == from
  {
    copy := seq(|from|, _ => None);
    for i := 0 to |from|
      invariant |copy| == |from|
      invariant forall k :: 0 <= k < i ==> copy[k] == from[k]
      invariant forall k :: i <= k < |from| ==> copy[k] == None
    {
      if from[i].Some? {
        copy := copy[i := Some(Accelerator(from[i].value.count, from[i].value.kind))];
      }
    }
  }

  method CopyTaints(from: seq<Taint>) returns (copy: seq<Taint>)
    ensures copy == from
  {
    copy := [];
    for i := 0 to |from|
      invariant copy == from[..i]
    {
      copy := copy + [Taint(from[i].effect, from[i].key, from[i].value)];
    }
  }

  class Pool {
    var value: PoolValue

    /** A deep copy of a pool; `Pool(NoPool)` is the empty one. */
    constructor (v: PoolValue)
      ensures value == v
    {
      value := v;
    }

    method GenerateAutoscaling(spec: Option<ScalingSpec>)
      modifies this
      ensures value == old(value).(autoscaling := DesiredScaling(spec, old(value.autoscaling)))
    {
      if spec.Some? {
        if value.autoscaling.None? {
          value := value.(autoscaling := Some(Scaling(false, false, 0, 0)));
        }
        value := value.(autoscaling := Some(value.autoscaling.value.(
                                              autoprovisioned := BoolValue(spec.value.autoprovisioned),
                                              enabled := BoolValue(spec.value.enabled),
                                              maxNodes := Int64Value(spec.value.maxNodes),
                                              minNodes := Int64Value(spec.value.minNodes))));
      }
    }

    method GenerateConfig(spec: Option<ConfigSpec>)
      modifies this
      ensures value == old(value).(config := DesiredConfig(spec, old(value.config)))
    {
      if spec.Some? {
        var s := spec.value;
        var c := value.config.GetOr(NoConfig);
        c := c.(bootDiskKmsKey := StringValue(s.bootDiskKmsKey), diskSizeGb := Int64Value(s.diskSizeGb),
                diskType := StringValue(s.diskType), imageType := StringValue(s.imageType), labels := s.labels,
                localSsdCount := Int64Value(s.localSsdCount), machineType := StringValue(s.machineType),
                metadata := s.metadata, minCpuPlatform := StringValue(s.minCpuPlatform),
                nodeGroup := StringValue(s.nodeGroup), oauthScopes := s.oauthScopes,
                preemptible := BoolValue(s.preemptible), serviceAccount := StringValue(s.serviceAccount),
                tags := s.tags);
        if |s.accelerators| > 0 {
          var copy := CopyAccelerators(s.accelerators);
          c := c.(accelerators := copy);
        }
        c := GenerateConfigBlocks(s, c);
        if |s.taints| > 0 {
          var copy := CopyTaints(s.taints);
          c := c.(taints := Some(copy));
        }
        value := value.(config := Some(c));
      }
    }

    static method GenerateConfigBlocks(s: ConfigSpec, cur: Config) returns (c: Config)
      ensures c == cur.(kubelet := DesiredKubelet(s.kubelet, cur.kubelet), sysctls := Overlay(s.sysctls, cur.sysctls),
                        affinity := DesiredAffinity(s.affinity, cur.affinity), sandbox := Overlay(s.sandbox, cur.sandbox),
                        shielded := DesiredShielded(s.shielded, cur.shielded),
                        workloadMode := Overlay(s.workloadMode, cur.workloadMode))
    {
      c := cur;
      if s.kubelet.Some? {
        var k := s.kubelet.value;
        c := c.(kubelet := Some(Kubelet(BoolValue(k.cpuCfsQuota), StringValue(k.cpuCfsQuotaPeriod),
                                        StringValue(k.cpuManagerPolicy))));
      }
      if s.sysctls.Some? {
        c := c.(sysctls := Some(s.sysctls.value));
      }
      if s.affinity.Some? {
        var a := s.affinity.value;
        c := c.(affinity := Some(Affinity(StringValue(a.reservationType), StringValue(a.key), a.values)));
      }
      if s.sandbox.Some? {
        c := c.(sandbox := Some(s.sandbox.value));
      }
      if s.shielded.Some? {
        c := c.(shielded := Some(Shielded(BoolValue(s.shielded.value.integrityMonitoring),
                                          BoolValue(s.shielded.value.secureBoot))));
      }
      if s.workloadMode.Some? {
        c := c.(workloadMode := Some(s.workloadMode.value));
      }
    }

    method GenerateManagement(spec: Option<ManagementSpec>)
      modifies this
      ensures value == old(value).(management := DesiredManagement(spec, old(value.management)))
    {
      if spec.Some? {
        if value.management.None? {
          value := value.(management := Some(Management(false, false, None)));
        }
        value := value.(management := Some(value.management.value.(autoRepair := BoolValue(spec.value.autoRepair),
                                                                   autoUpgrade := BoolValue(spec.value.autoUpgrade))));
      }
    }

    method GenerateNodePool(name: string, spec: PoolSpec)
      modifies this
      ensures value == DesiredPool(name, spec, old(value))
    {
      value := value.(initialNodeCount := Int64Value(spec.initialNodeCount), locations := spec.locations, name := name);
      // A version GKE has moved to stays while auto-upgrade is on.
      if value.version == "" || !AutoUpgradeEnabled(spec) {
        value := value.(version := StringValue(spec.version));
      }
      GenerateAutoscaling(spec.autoscaling);
      GenerateConfig(spec.config);
      GenerateManagement(spec.management);
      if spec.maxPods.Some? {
        value := value.(maxPods := Some(spec.maxPods.value));
      }
      if spec.upgrade.Some? {
        value := value.(upgrade := Some(Upgrade(Int64Value(spec.upgrade.value.maxSurge),
                                                Int64Value(spec.upgrade.value.maxUnavailable))));
      }
    }
  }

  /** Picks the first of the three kinds of update that applies; nothing is written. */
  method IsUpToDate(fold: char -> char, name: string, spec: PoolSpec, observed: Pool)
    returns (upToDate: bool, update: Option<PoolRequest>)
    ensures upToDate <==> update.None?
    ensures update == Next(fold, name, spec, observed.value)
    ensures unchanged(observed)
  {
    var desired := new Pool(observed.value);
    desired.GenerateNodePool(name, spec);
    if desired.value.autoscaling != observed.value.autoscaling {
      return false, Some(SetScaling(DesiredScaling(spec.autoscaling, None)));
    }
    if desired.value.management != observed.value.management {
      return false, Some(SetManagement(DesiredManagement(spec.management, None)));
    }
    if !PoolsAlike(fold, desired.value, observed.value) {
      return false, Some(GeneralUpdate(spec));
    }
    return true, None;
  }

  class SpecObject {
    var value: PoolSpec

    constructor (v: PoolSpec)
      ensures value == v
    {
      value := v;
    }

    method LateInitializeSpec(o: PoolValue)
      modifies this
      ensures value == LateInit(old(value), o)
    {
      if o.autoscaling.Some? {
        var s := value.autoscaling.GetOr(ScalingSpec(None, None, None, None));
        value := value.(autoscaling := Some(ScalingSpec(
          LateInitializeBool(s.autoprovisioned, o.autoscaling.value.autoprovisioned),
          LateInitializeBool(s.enabled, o.autoscaling.value.enabled),
          LateInitializeInt64(s.maxNodes, o.autoscaling.value.maxNodes),
          LateInitializeInt64(s.minNodes, o.autoscaling.value.minNodes))));
      }
      if o.config.Some? {
        var c := LateInitializeConfig(value.config.GetOr(NoConfigSpec), o.config.value);
        value := value.(config := Some(c));
      }
      value := value.(initialNodeCount := LateInitializeInt64(value.initialNodeCount, o.initialNodeCount),
                      locations := LateInitializeStringSlice(value.locations, o.locations));
      if o.management.Some? {
        var m := value.management.GetOr(ManagementSpec(None, None));
        value := value.(management := Some(ManagementSpec(
          LateInitializeBool(m.autoRepair, o.management.value.autoRepair),
          LateInitializeBool(m.autoUpgrade, o.management.value.autoUpgrade))));
      }
      if o.maxPods.Some? && value.maxPods.None? {
        value := value.(maxPods := Some(o.maxPods.value));
      }
      if o.upgrade.Some? {
        var u := value.upgrade.GetOr(UpgradeSpec(None, None));
        value := value.(upgrade := Some(UpgradeSpec(LateInitializeInt64(u.maxSurge, o.upgrade.value.maxSurge),
                                                    LateInitializeInt64(u.maxUnavailable, o.upgrade.value.maxUnavailable))));
      }
      value := value.(version := LateInitializeString(value.version, o.version));
    }
  }

  method LateInitializeConfig(s: ConfigSpec, f: Config) returns (r: ConfigSpec)
    ensures Some(r) == LateConfig(Some(s), Some(f))
  {
    r := s.(bootDiskKmsKey := LateInitializeString(s.bootDiskKmsKey, f.bootDiskKmsKey),
            diskSizeGb := LateInitializeInt64(s.diskSizeGb, f.diskSizeGb),
            diskType := LateInitializeString(s.diskType, f.diskType),
            imageType := LateInitializeString(s.imageType, f.imageType),
            labels := LateEntries(s.labels, f.labels),
            localSsdCount := LateInitializeInt64(s.localSsdCount, f.localSsdCount),
            machineType := LateInitializeString(s.machineType, f.machineType),
            metadata := LateEntries(s.metadata, f.metadata),
            minCpuPlatform := LateInitializeString(s.minCpuPlatform, f.minCpuPlatform),
            nodeGroup := LateInitializeString(s.nodeGroup, f.nodeGroup),
            oauthScopes := LateInitializeStringSlice(s.oauthScopes, f.oauthScopes),
            preemptible := LateInitializeBool(s.preemptible, f.preemptible),
            serviceAccount := LateInitializeString(s.serviceAccount, f.serviceAccount),
            tags := LateInitializeStringSlice(s.tags, f.tags));
    if |f.accelerators| != 0 && |r.accelerators| == 0 {
      var copy := CopyAccelerators(f.accelerators);
      r := r.(accelerators := copy);
    }
    if |f.taints.GetOr([])| != 0 && |r.taints| == 0 {
      var copy := CopyTaints(f.taints.GetOr([]));
      r := r.(taints := copy);
    }
    r := LateInitializeConfigBlocks(r, f);
  }

  method LateInitializeConfigBlocks(s: ConfigSpec, f: Config) returns (r: ConfigSpec)
    ensures r == s.(kubelet := LateKubelet(s.kubelet, f.kubelet), sysctls := Overlay(s.sysctls, f.sysctls),
                    affinity := LateAffinity(s.affinity, f.affinity), sandbox := Overlay(s.sandbox, f.sandbox),
                    shielded := LateShielded(s.shielded, f.shielded),
                    workloadMode := Overlay(s.workloadMode, f.workloadMode))
  {
    r := s;
    if f.kubelet.Some? {
      var k := r.kubelet.GetOr(KubeletSpec(None, None, None));
      r := r.(kubelet := Some(KubeletSpec(LateInitializeBool(k.cpuCfsQuota, f.kubelet.value.cpuCfsQuota),
                                          LateInitializeString(k.cpuCfsQuotaPeriod, f.kubelet.value.cpuCfsQuotaPeriod),
                                          LateInitializeString(k.cpuManagerPolicy, f.kubelet.value.cpuManagerPolicy))));
    }
    if f.sysctls.Some? && r.sysctls.None? {
      r := r.(sysctls := f.sysctls);
    }
    if f.affinity.Some? {
      var a := r.affinity.GetOr(AffinitySpec(None, None, []));
      r := r.(affinity := Some(AffinitySpec(LateInitializeString(a.reservationType, f.affinity.value.reservationType),
                                            LateInitializeString(a.key, f.affinity.value.key),
                                            LateInitializeStringSlice(a.values, f.affinity.value.values))));
    }
    r := LateInitializeSecurityBlocks(r, f);
  }

  method LateInitializeSecurityBlocks(s: ConfigSpec, f: Config) returns (r: ConfigSpec)
    ensures r == s.(sandbox := Overlay(s.sandbox, f.sandbox), shielded := LateShielded(s.shielded, f.shielded),
                    workloadMode := Overlay(s.workloadMode, f.workloadMode))
  {
    r := s;
    if f.sandbox.Some? && r.sandbox.None? {
      r := r.(sandbox := f.sandbox);
    }
    if f.shielded.Some? {
      var h := r.shielded.GetOr(ShieldedSpec(None, None));
      r := r.(shielded := Some(ShieldedSpec(LateInitializeBool(h.integrityMonitoring, f.shielded.value.integrityMonitoring),
                                            LateInitializeBool(h.secureBoot, f.shielded.value.secureBoot))));
    }
    if f.workloadMode.Some? && r.workloadMode.None? {
      r := r.(workloadMode := f.workloadMode);
    }
  }

  // ---- the controller ----

  function PoolDriver(fold: char -> char, name: string): Reconcile.Driver<PoolSpec, PoolValue, PoolRequest> {
    Reconcile.Driver(spec => DesiredPool(name, spec, NoPool), (spec, o) => Next(fold, name, spec, o), Install)
  }

  function PoolProgress(fold: char -> char, name: string): Reconcile.Progress<PoolSpec, PoolValue> {
    Reconcile.Progress((spec, o) => Settleable(fold, name, spec, o), (spec, o) => Work(fold, spec, o))
  }

  lemma PoolMeasures(fold: char -> char, name: string)
    ensures Reconcile.Measures(PoolProgress(fold, name), PoolDriver(fold, name))
  {
    forall spec: PoolSpec, o: PoolValue | Settleable(fold, name, spec, o) {
      EveryUpdateCounts(fold, name, spec, o);
    }
  }

  /** In every quiet rest of a run over a pool that can be settled, with any operation in
      flight, refusals and failures in between, at most four operations complete, that one
      included, and the pool is up to date exactly when its work is done. */
  lemma PoolRestConverges(
    fold: char -> char, name: string, s: Reconcile.State<PoolSpec, PoolValue, PoolRequest>,
    steps: seq<Reconcile.Step<PoolSpec>>)
    requires Reconcile.Safe(s) && s.cloud.Some?
    requires Settleable(fold, name, s.spec, s.cloud.value)
    requires Reconcile.Run(PoolDriver(fold, name), s, steps)
    requires forall i :: 0 <= i < |steps| ==> Reconcile.Quiet(s.spec, steps[i])
    ensures var k := PoolDriver(fold, name);
            var e, work := Reconcile.End(k, s, steps), Reconcile.WorkFrom(PoolProgress(fold, name), k, s, steps);
            e.cloud.Some? && e.spec == s.spec &&
            Reconcile.Completed(steps) + Work(fold, s.spec, e.cloud.value) == work <= (if s.op.Some? then 4 else 3) &&
            (Next(fold, name, s.spec, e.cloud.value).None? <==> Reconcile.Completed(steps) == work)
  {
    PoolMeasures(fold, name);
    if s.op.Some? && s.op.value.Updating? {
      SettleableIsKept(fold, name, s.spec, s.cloud.value, s.op.value.update);
    }
    Reconcile.QuietRestConverges(PoolProgress(fold, name), PoolDriver(fold, name), s, steps);
  }

  // ---- runs in which Observe late-initialises ----

  /** Every Observe of the run late-initialises the spec from the pool it finds; nobody
      edits the spec and the pool stays. */
  ghost predicate Initialises(
    fold: char -> char, name: string, s: Reconcile.State<PoolSpec, PoolValue, PoolRequest>,
    steps: seq<Reconcile.Step<PoolSpec>>)
    decreases |steps|
  {
    steps == [] ||
    (!steps[0].EditSpec? && !steps[0].Vanish? &&
     (steps[0].Observe? && s.cloud.Some? ==> steps[0].late == LateInit(s.spec, s.cloud.value)) &&
     Initialises(fold, name, Reconcile.Apply(PoolDriver(fold, name), s, steps[0]), steps[1..]))
  }

  /** The spec has nothing left to fill in, and an update in flight is the one it picks. */
  ghost predicate Settled(fold: char -> char, name: string, s: Reconcile.State<PoolSpec, PoolValue, PoolRequest>) {
    && Reconcile.Safe(s) && s.cloud.Some? && LateInit(s.spec, s.cloud.value) == s.spec
    && (s.op.Some? ==>
          s.op.value.Updating? && Next(fold, name, s.spec, s.cloud.value) == Some(s.op.value.update))
  }

  lemma StepKeepsSettled(
    fold: char -> char, name: string, s: Reconcile.State<PoolSpec, PoolValue, PoolRequest>,
    step: Reconcile.Step<PoolSpec>)
    requires Settled(fold, name, s) && Reconcile.Enabled(PoolDriver(fold, name), s, step)
    requires Reconcile.Quiet(s.spec, step)
    ensures var t := Reconcile.Apply(PoolDriver(fold, name), s, step); Settled(fold, name, t) && t.spec == s.spec
  {
    Reconcile.StepKeepsSafe(PoolDriver(fold, name), s, step);
    if step.Complete? {
      UpdateKeepsSpecSettled(fold, name, s.spec, s.cloud.value);
    }
  }

  /** From a settled state late initialisation never changes the spec again. */
  lemma {:induction false} SettledRunsAreQuiet(
    fold: char -> char, name: string, s: Reconcile.State<PoolSpec, PoolValue, PoolRequest>,
    steps: seq<Reconcile.Step<PoolSpec>>)
    requires Settled(fold, name, s) && Reconcile.Run(PoolDriver(fold, name), s, steps)
    requires Initialises(fold, name, s, steps)
    ensures forall i :: 0 <= i < |steps| ==> Reconcile.Quiet(s.spec, steps[i])
    decreases |steps|
  {
    if steps != [] {
      StepKeepsSettled(fold, name, s, steps[0]);
      SettledRunsAreQuiet(fold, name, Reconcile.Apply(PoolDriver(fold, name), s, steps[0]), steps[1..]);
      assert forall i :: 1 <= i < |steps| ==> steps[i] == steps[1..][i - 1];
    }
  }

  /** With nothing in flight, the first thing to happen is an Observe, and it settles the spec. */
  lemma FirstObserveSettles(
    fold: char -> char, name: string, s: Reconcile.State<PoolSpec, PoolValue, PoolRequest>,
    step: Reconcile.Step<PoolSpec>)
    requires s.phase.Idle? && s.op.None? && s.cloud.Some? && !step.EditSpec? && !step.Vanish?
    requires Reconcile.Enabled(PoolDriver(fold, name), s, step)
    requires step.Observe? ==> step.late == LateInit(s.spec, s.cloud.value)
    ensures var t := Reconcile.Apply(PoolDriver(fold, name), s, step);
            !step.Complete? && t.cloud == s.cloud && t.op.None? &&
            if step.Observe? then Settled(fold, name, t) && t.spec == step.late
            else t.phase.Idle? && t.spec == s.spec
  {
    LateInitSettles(s.spec, s.cloud.value);
  }

  /** Convergence over whole runs with late initialisation in them, from any spec: if the
      late-initialised spec differs from the pool only where updates reach, at most three
      updates complete, and the pool is up to date with that spec exactly when its work is
      done. */
  lemma {:induction false} PoolRunsConverge(
    fold: char -> char, name: string, s: Reconcile.State<PoolSpec, PoolValue, PoolRequest>,
    steps: seq<Reconcile.Step<PoolSpec>>)
    requires s.phase.Idle? && s.op.None? && s.cloud.Some?
    requires Settleable(fold, name, LateInit(s.spec, s.cloud.value), s.cloud.value)
    requires Reconcile.Run(PoolDriver(fold, name), s, steps) && Initialises(fold, name, s, steps)
    ensures var late, e := LateInit(s.spec, s.cloud.value), Reconcile.End(PoolDriver(fold, name), s, steps);
            var work := Work(fold, late, s.cloud.value);
            e.cloud.Some? && (e.spec == s.spec || e.spec == late) &&
            Reconcile.Completed(steps) + Work(fold, late, e.cloud.value) == work <= 3 &&
            (Next(fold, name, late, e.cloud.value).None? <==> Reconcile.Completed(steps) == work)
    decreases |steps|
  {
    var k, late := PoolDriver(fold, name), LateInit(s.spec, s.cloud.value);
    if steps == [] {
      EveryUpdateCounts(fold, name, late, s.cloud.value);
    } else {
      var t := Reconcile.Apply(k, s, steps[0]);
      FirstObserveSettles(fold, name, s, steps[0]);
      if steps[0].Observe? {
        SettledRunsAreQuiet(fold, name, t, steps[1..]);
        PoolRestConverges(fold, name, t, steps[1..]);
      } else {
        PoolRunsConverge(fold, name, t, steps[1..]);
      }
    }
  }

  lemma CreatedPoolIsUpToDate(fold: char -> char, name: string, spec: PoolSpec)
    ensures var o := DesiredPool(name, spec, NoPool);
            Settleable(fold, name, spec, o) && Work(fold, spec, o) == 0
  {
    var o := DesiredPool(name, spec, NoPool);
    assert DesiredPool(name, spec, o) == o;
  }

  /** From nothing to up to date: one create and no update, possible if and only if the
      status stored is not PROVISIONING. */
  lemma PoolLifecycle(fold: char -> char, name: string, spec: PoolSpec, held: string)
    ensures var k, s := PoolDriver(fold, name), Reconcile.Start(spec, held);
            held != Reconcile.PROVISIONING ==>
              Reconcile.Run(k, s, Reconcile.CreateRound(spec, held)) &&
              Reconcile.UpToDateAt(k, Reconcile.End(k, s, Reconcile.CreateRound(spec, held)))
    ensures var k, s := PoolDriver(fold, name), Reconcile.Start(spec, held);
            (exists steps :: Reconcile.Run(k, s, steps) && Reconcile.UpToDateAt(k, Reconcile.End(k, s, steps))) <==>
            held != Reconcile.PROVISIONING
  {
    PoolMeasures(fold, name);
    CreatedPoolIsUpToDate(fold, name, spec);
    Reconcile.LifecycleIff(PoolProgress(fold, name), PoolDriver(fold, name), spec, held);
    assert Reconcile.CreateRound(spec, held) + [] == Reconcile.CreateRound(spec, held);
  }
}
