/** The cluster controller: pkg/controller/container/cluster.go over the update protocol. */
module ClusterController {
  import opened Pointers
  import opened ClusterTypes
  import opened ClusterUpdate
  import opened ClusterObject
  import opened Reconcile

  /** The cluster object Create sends: generated from nothing, plus the bootstrap pool
      unless the cluster is an autopilot one, where node pools cannot be specified. */
  method ClusterForCreate(name: string, spec: ClusterParameters) returns (c: Cluster)
    ensures fresh(c) && c.value == Created(name, spec)
  {
    c := new Cluster(NoCluster);
    c.GenerateCluster(name, spec);
    if c.value.autopilot.None? || !c.value.autopilot.value {
      c.AddNodePoolForCreate();
    }
  }

  function ClusterDriver(name: string): Driver<ClusterParameters, ClusterValue, Request> {
    Driver(spec => Created(name, spec), Next, Install)
  }

  const ClusterProgress: Progress<ClusterParameters, ClusterValue> := Progress((_, _) => true, Work)

  lemma ClusterMeasures(name: string)
    ensures Measures(ClusterProgress, ClusterDriver(name))
  {
    forall spec: ClusterParameters, c: ClusterValue {
      EveryUpdateCounts(spec, c);
    }
  }

  /** In every rest of a run that leaves the spec alone and the cluster in place, from any
      cluster and with any operation in flight, refusals, failures and status changes in
      between: at most 23 operations complete, that one included, and the cluster is up to
      date exactly when all its work is done. With nothing in flight the bound is 22. */
  lemma ClusterRunsConverge(
    name: string, s: State<ClusterParameters, ClusterValue, Request>, steps: seq<Step<ClusterParameters>>)
    requires Safe(s) && s.cloud.Some?
    requires Run(ClusterDriver(name), s, steps) && forall i :: 0 <= i < |steps| ==> Quiet(s.spec, steps[i])
    ensures var k := ClusterDriver(name);
            var e, work := End(k, s, steps), WorkFrom(ClusterProgress, k, s, steps);
            e.cloud.Some? && e.spec == s.spec &&
            Completed(steps) + Work(s.spec, e.cloud.value) == work <= (if s.op.Some? then 23 else 22) &&
            (Next(s.spec, e.cloud.value).None? <==> Completed(steps) == work)
  {
    var k := ClusterDriver(name);
    ClusterMeasures(name);
    QuietRestConverges(ClusterProgress, k, s, steps);
    WorkIsBounded(s.spec, s.cloud.value);
    WorkIsBounded(s.spec, Landed(k, s));
  }

  /** In every state of every run: while the bootstrap pool is there, the only request an
      Update step can send is its deletion, and that request is sent for no other reason. */
  lemma BootstrapDeletedBeforeAnythingElse(name: string, s: State<ClusterParameters, ClusterValue, Request>)
    requires Sent(ClusterDriver(name), s).Some?
    ensures s.cloud.Some?
    ensures HasBootstrapPool(s.cloud.value.nodePools) <==> Sent(ClusterDriver(name), s) == Some(DeleteBootstrapPool)
  {
    BootstrapGoesFirst(s.spec, s.cloud.value);
  }

  /** Once gone, the bootstrap pool does not come back unless the cluster is created anew. */
  lemma BootstrapNeverReturns(
    name: string, s: State<ClusterParameters, ClusterValue, Request>, steps: seq<Step<ClusterParameters>>)
    requires s.cloud.Some? ==> !HasBootstrapPool(s.cloud.value.nodePools)
    requires forall i :: 0 <= i < |steps| ==> !steps[i].Create?
    ensures var e := End(ClusterDriver(name), s, steps);
            e.cloud.Some? ==> !HasBootstrapPool(e.cloud.value.nodePools)
  {
    var keep := (c: ClusterValue) => !HasBootstrapPool(c.nodePools);
    forall r: Request, c: ClusterValue | keep(c)
      ensures keep(Install(r, c))
    {
      InstallNeverAddsBootstrap(r, c);
    }
    UpdatesKeep(ClusterDriver(name), keep, s, steps);
  }

  /** From nothing to up to date: one create, then the deletion of the bootstrap pool, or
      no update at all for an autopilot cluster. Possible if and only if the status stored
      is not PROVISIONING: with that status no run ever creates the cluster. */
  lemma LifecycleReachesUpToDate(name: string, spec: ClusterParameters, held: string)
    ensures var k, s := ClusterDriver(name), Start(spec, held);
            var steps := CreateRound(spec, held) + Rounds(spec, RUNNING, if spec.autopilot == Some(true) then 0 else 1);
            held != PROVISIONING ==> Run(k, s, steps) && UpToDateAt(k, End(k, s, steps))
    ensures var k, s := ClusterDriver(name), Start(spec, held);
            (exists steps :: Run(k, s, steps) && UpToDateAt(k, End(k, s, steps))) <==> held != PROVISIONING
  {
    ClusterMeasures(name);
    CreatedWork(name, spec);
    LifecycleIff(ClusterProgress, ClusterDriver(name), spec, held);
  }

  lemma CreatedWork(name: string, spec: ClusterParameters)
    ensures Work(spec, Created(name, spec)) == if spec.autopilot == Some(true) then 0 else 1
  {
    CreatedNeedsOnlyBootstrapDeletion(name, spec);
  }

  /** The overlapping run of a cluster: unless it is an autopilot one, the deletion of its
      bootstrap pool is sent during the create, for every spec and every late initialisation
      that changes it. */
  lemma StaleClusterRunOverlaps(name: string, spec: ClusterParameters, late: ClusterParameters)
    requires late != spec && spec.autopilot != Some(true)
    ensures var k, s := ClusterDriver(name), Start(spec, "");
            Safe(s) && Run(k, s, StaleRun(spec, late)) && !NeverOverlaps(k, s, StaleRun(spec, late)) &&
            End(k, s, StaleRun(spec, late)).op == Some(Updating(DeleteBootstrapPool))
  {
    CreatedNeedsOnlyBootstrapDeletion(name, spec);
    BootstrapGoesFirst(late, Created(name, spec));
    StaleRunOverlaps(ClusterDriver(name), spec, late);
  }
}
