# Verified model of provider-gcp

`provider-gcp` drives GCP objects towards Kubernetes specs. This project models the logic that sits
around its API calls and proves what that logic is for. It is written in Dafny 4.11;
`dafny verify dfyconfig.toml` checks all of it.

- **The GKE update protocol** (`ClusterTypes`, `ClusterSections`, `Iteration`, `ClusterUpdate`,
  `ClusterObject`, `ClusterDrift`, `ClusterPayload`). GKE accepts one kind of change per call, so the provider compares 21 sections in a
  fixed order and sends one update. From every spec and every cluster, repeating that reaches "up to
  date" in exactly as many accepted updates as there are differing sections (one more while the
  bootstrap node pool is there), never more than 22; the result meets the spec in every section, and
  sections that agreed are never touched.
- **The reconcile loop** (`Reconcile`, `Controller`, `ClusterController`) as a transition system with
  user edits, GKE status changes, refusals, failures and deletions in between. It says exactly when a
  create or an update is sent while another is in flight and when an object is never created; every
  completed update does one unit of work; the bootstrap pool goes first and never comes back.
- **Node pools** (`NodePool`, `NodePoolDrift`, `NodePoolObject`). With late initialisation in the loop, three accepted
  updates reach "up to date" if and only if the remaining differences are of the kinds GKE can change.
- **Bucket IAM policies** (`StableSort`, `BucketPolicy`, `BucketPolicyObject`). The list of bindings
  refines a set of grants under every sequence of edits, and edits of different grants commute up to
  the order-insensitive comparison, on every policy.
- **Cloud SQL** (`CloudSQL`, `CloudSQLObject`, `ConnectionDetails`). After late initialisation an
  instance is up to date if and only if it agrees with every field the user had set; late
  initialisation only ever fills; the published endpoint prefers private addresses.
- **Buckets and topics** (`Bucket`, `Topic`). The label patch and the masked update request reproduce
  the desired state, and attribute conversion is an idempotent normalisation.

Objects the source mutates are classes holding a record of their fields; the methods that write one
section or block are each proved against that section's specification function and have no row below.
`copystructure.Copy` is a value copy and `cmp.Equal` with its options is spelled out: nil equals empty
where `EquateEmpty` is given, ignored fields and elements are dropped, sorting is stable.

## Rules taken from outside the repository

- The runtime calls Observe and then at most one of Create, Update and Delete, and only the controller
  starts creates and updates; an object may vanish at any time.
- While a create or an update is in flight GKE shows PROVISIONING or RECONCILING. An accepted update
  installs exactly what it sends in its own section and leaves the rest alone; a failed one changes
  nothing. `ForceSendFields` are instructions to the encoder and are not stored.
- Pub/Sub replaces exactly the masked fields, and Cloud Storage sets and deletes exactly the labels of
  a patch.

## Where a promise holds only under a condition

- The guard against overlapping updates reads the status Observe stored. Observe stores it before it
  writes a late-initialised spec back through the Kubernetes client, whose reply may bring an older
  status back. `Reconcile.GuardedRunsNeverOverlap` and `Reconcile.OverlapIffStale` give the exact
  condition over runs, and `ClusterController.StaleClusterRunOverlaps` a run from nothing in which the
  bootstrap pool's deletion is sent during the create.
- An object that is not found leaves the stored status alone, and Create does nothing while that status
  is PROVISIONING. A cluster or node pool that vanishes while it is being provisioned is therefore never
  created again: `Reconcile.LostStaysLost`, reached by `Reconcile.ProvisioningObjectMayBeLost`; the exact
  condition is in `ClusterController.LifecycleReachesUpToDate` and `NodePoolObject.PoolLifecycle`.
- With auto-upgrade on, the version in a node pool's spec does not cause an update, but every general
  update still sends it, and late initialisation has filled it in with the version first observed. So
  the pool is taken off the version GKE upgraded it to whenever anything but scaling and management
  differs: `NodePool.RoundsMoveVersion` gives the version after any number of rounds, and
  `NodePool.AutoUpgradeMayBeUndone` a pool that is downgraded.
- `BindRoleToMember` adds to the role's first binding whatever its condition:
  `BucketPolicy.BindGrantsUnconditionallyIff` says when the grant is unconditional, and
  `BucketPolicy.BindMayGrantConditionally` gives a policy where it is not.
- Cluster fields outside the 21 sections, such as the description, the networks and the initial version,
  are set at creation and never repaired (`ClusterUpdate.FixedFieldsAreNeverUpdated`).
- `UnbindRoleFromMember` takes one listing away. `BucketPolicy.UnbindRevokesIff` says exactly when that
  revokes the grant, `BucketPolicy.UnbindMayLeaveGrant` gives a policy where it does not, and
  `BucketPolicy.UnbindUndoesBindIff` says when it undoes a bind.
- An existing notification block is never compared by content: `ClusterDrift.DiffersIffUnmet` shows
  that its mere presence meets the spec.
- A topic spec with an empty, non-nil label map or an empty KMS key name is never up to date
  (`Topic.AttainableIff`); `Topic.RequestRepairs` says what one update achieves.
- A retention period comes back unchanged exactly up to 9223372036 seconds either way
  (`Bucket.RetentionRoundTrip`); the CRD allows less.

## Model

| member | source | states |
|---|---|---|
| `ClusterUpdate.UpdatesConverge` | pkg/clients/cluster/cluster.go:1266-1357 | for every spec and cluster, `n` accepted updates end up to date if and only if `n` reaches the number of differing sections plus one for the bootstrap pool, which is at most 22 |
| `ClusterDrift.UpdatesMeetSpec` | pkg/clients/cluster/cluster.go:1266-1357 | the cluster reached that way meets the spec in every section and has no bootstrap pool |
| `ClusterDrift.DiffersIffUnmet` | pkg/clients/cluster/cluster.go:1279-1355 | the comparison of a section finds a difference exactly when a field the spec asks for there has another observed value |
| `ClusterDrift.UpToDateIffMet` | pkg/clients/cluster/cluster.go:1266-1357 | up to date means no bootstrap pool and every section met, both directions |
| `ClusterDrift.FirstUnmetIsUpdated` | pkg/clients/cluster/cluster.go:1279-1355 | without the bootstrap pool, the update sent is the one for the first section, in the order of the comparisons, that the cluster does not meet |
| `ClusterPayload.CreatedCluster` | pkg/clients/cluster/cluster.go:57-102 | the cluster Create sends meets the spec in every section, carries its notification, network and fixed fields each under its own name, forces the add-on flags to be sent, has no block the spec has not, and has the one bootstrap pool with no nodes unless it is an autopilot cluster |
| `ClusterPayload.UpdatesSendWhatCreateSends` | pkg/clients/cluster/cluster.go:957-1233 | every update sends exactly the section of a cluster created from the spec; the notification sent is the spec's |
| `ClusterPayload.GenerationMeets` | pkg/clients/cluster/cluster.go:66-510 | generation over any cluster meets the spec in every section |
| `ClusterPayload.GenerationWrites` | pkg/clients/cluster/cluster.go:66-510 | over any cluster, what generation writes where the comparison does not look: name, fixed fields, network and notification blocks and encoder instructions, with what GKE wrote kept |
| `ClusterDrift.AddonsDrift` | pkg/clients/cluster/cluster.go:1279-1289 | add-ons compare equal, encoder instructions ignored, exactly when every add-on in the spec has its flag |
| `ClusterDrift.MaintenanceDrift` | pkg/clients/cluster/cluster.go:318-356 | the maintenance policy compares equal exactly when each window the spec names is there with its times |
| `ClusterDrift.PoolDefaultsDrift` | pkg/clients/cluster/cluster.go:200-230 | node pool defaults compare equal exactly when their fields and nested blocks have the spec's values |
| `ClusterDrift.LimitsDrift` | pkg/clients/cluster/cluster.go:232-243 | resource limits compare equal exactly when unset or matching entry by entry |
| `ClusterDrift.CidrsDrift` | pkg/clients/cluster/cluster.go:383-393 | authorized networks compare equal exactly when unset or matching entry by entry |
| `ClusterUpdate.EveryUpdateCounts` | pkg/clients/cluster/cluster.go:1266-1357 | each picked update, once accepted, lowers the work by exactly one, and none is picked exactly when no work is left |
| `ClusterUpdate.AgreeingSectionsAreKept` | pkg/clients/cluster/cluster.go:1266-1357 | a section that agreed is the same after any number of updates |
| `ClusterUpdate.InstallSettles` | pkg/clients/cluster/cluster.go:957-1233 | the payload built on an empty cluster is a fixed point of the next comparison, for all 21 sections |
| `ClusterUpdate.InstallKeepsOthers` | pkg/clients/cluster/cluster.go:957-1233 | a request about one section leaves what the comparison reads of every other section |
| `ClusterUpdate.DifferingIsPresent` | pkg/clients/cluster/cluster.go:1027-1037 | the section whose update is picked is present in the spec, so no update function reads an absent block |
| `ClusterUpdate.FirstDiffering` | pkg/clients/cluster/cluster.go:1279-1355 | the section found differs and none before it in the fixed order does |
| `ClusterUpdate.FirstDifferingDecides` | pkg/clients/cluster/cluster.go:1279-1355 | the first section found to differ, and nothing after it, decides the request |
| `ClusterUpdate.AllAgreeDecides` | pkg/clients/cluster/cluster.go:1279-1356 | if no section differs and the bootstrap pool is gone, no update is picked |
| `ClusterUpdate.SectionUpdateRemovesOne` | pkg/clients/cluster/cluster.go:957-1233 | an accepted section update removes its section, and only it, from the set of differing ones |
| `ClusterUpdate.WorkIsBounded` | pkg/clients/cluster/cluster.go:1276-1355 | at most 22 updates are ever needed |
| `ClusterUpdate.FixedFieldsAreNeverUpdated` | pkg/clients/cluster/cluster.go:1266-1357 | the generated fields outside the 21 sections change neither the verdict nor the update, whatever spec and cluster hold there, and no update changes them |
| `ClusterUpdate.BootstrapGoesFirst` | pkg/clients/cluster/cluster.go:1276-1278 | deleting the bootstrap pool is picked exactly while the pool is observed |
| `ClusterUpdate.InstallNeverAddsBootstrap` | pkg/clients/cluster/cluster.go:1235-1240 | no accepted update brings the bootstrap pool in |
| `ClusterUpdate.CreatedNeedsOnlyBootstrapDeletion` | pkg/controller/container/cluster.go:150-165 | a created cluster agrees with its spec in every section and carries the bootstrap pool exactly when it is not an autopilot cluster |
| `ClusterSections.GenerateSettles` | pkg/clients/cluster/cluster.go:66-510 | generating twice is generating once, from any starting cluster |
| `ClusterObject.Cluster.GenerateCluster` | pkg/clients/cluster/cluster.go:66-510 | every section and every field outside the sections generated over what it held, node pools untouched |
| `ClusterObject.CheckForBootstrapNodePool` | pkg/clients/cluster/cluster.go:1251-1259 | true exactly when some non-nil pool has the bootstrap name |
| `ClusterObject.IsUpToDate` | pkg/clients/cluster/cluster.go:1266-1357 | returns the update the specification picks and reads no absent block; of the observed cluster at most an absent network block is filled with an empty one |
| `Reconcile.GuardedRunsNeverOverlap` | pkg/controller/container/cluster.go:97-201 | in every run whose observations leave a busy status while an operation is in flight, no create or update is sent during one |
| `Reconcile.SentIff` | pkg/controller/container/cluster.go:176-198 | an Update step sends the update the comparison picks if and only if the status stored is neither PROVISIONING nor RECONCILING |
| `Reconcile.StepFrames` | pkg/controller/container/cluster.go:97-216 | only Observe stores a status, only Observe and users change the spec, only Create and Update start operations |
| `Reconcile.StepKeepsSafe` | pkg/controller/container/cluster.go:97-216 | every such step keeps the invariant: an operation in flight shows a busy status, and an observed idle status means none is in flight |
| `Reconcile.OverlapIffStale` | pkg/controller/container/cluster.go:108-115 | after any such run, an Observe and the Update that follows it overlap an operation if and only if one is in flight and the Observe left a status that is not busy |
| `Reconcile.SteadyRunsAreGuarded` | pkg/controller/container/cluster.go:108-115 | runs in which late initialisation changes nothing during an operation are all of that kind |
| `Reconcile.StaleRunOverlaps` | pkg/controller/container/cluster.go:97-201 | from nothing, a run that does overlap: an update is sent while the create is in flight |
| `ClusterController.StaleClusterRunOverlaps` | pkg/controller/container/cluster.go:97-201 | the same run for every cluster that is not an autopilot one and every late initialisation that changes its spec; what is sent is the deletion of the bootstrap pool |
| `Reconcile.LostStaysLost` | pkg/controller/container/cluster.go:103-148 | with nothing there, nothing in flight and PROVISIONING stored, no run ever creates the object |
| `Reconcile.ProvisioningObjectMayBeLost` | pkg/controller/container/cluster.go:97-148 | from nothing, a run that ends in that state: the object vanishes while it is being provisioned |
| `Reconcile.CreatableIff` | pkg/controller/container/cluster.go:138-148 | from nothing, some run creates the object if and only if the status stored is not PROVISIONING |
| `Reconcile.LifecycleIff` | pkg/controller/container/cluster.go:97-201 | from nothing, some run ends up to date if and only if the status stored is not PROVISIONING; one create and as many updates as it leaves work is such a run |
| `Reconcile.QuietRunsConverge` | pkg/controller/container/cluster.go:171-201 | in every run that keeps the spec and the object, completed updates plus work left is the work at the start, and all work done means up to date |
| `Reconcile.QuietRestConverges` | pkg/controller/container/cluster.go:171-201 | the same from any state of a run, the operation then in flight counted as one more once it lands |
| `Reconcile.RoundsConverge` | pkg/controller/container/cluster.go:171-201 | from any status shown other than PROVISIONING and RECONCILING, undisturbed rounds are a possible run and end up to date, one for each unit of work |
| `Reconcile.UpdatesKeep` | pkg/controller/container/cluster.go:171-201 | a property no update breaks survives every run without a create |
| `Controller.External.Observe` | pkg/controller/container/cluster.go:97-136 | takes the Observe step: not found, or status and late-initialised spec stored and the verdict of the comparison |
| `Controller.External.Update` | pkg/controller/container/cluster.go:171-201 | takes the Update step; from a safe state it sends a request only if no operation is in flight |
| `Controller.External.Reconcile` | pkg/controller/container/cluster.go:97-201 | Observe and then Create or Update is a run, and overlaps nothing when the spec stays, nothing is in flight, or the status left is a busy one |
| `ClusterController.ClusterForCreate` | pkg/controller/container/cluster.go:150-165 | the cluster sent is generated from nothing, with the bootstrap pool unless autopilot is enabled |
| `ClusterController.ClusterRunsConverge` | pkg/controller/container/cluster.go:171-201 | in every rest of a run that keeps the spec and the cluster, at most 22 operations complete, 23 with one already in flight, and the cluster is up to date exactly when all its work is done |
| `ClusterController.BootstrapDeletedBeforeAnythingElse` | pkg/clients/cluster/cluster.go:1276-1278 | in every state the request sent is the deletion of the bootstrap pool exactly while the pool is there |
| `ClusterController.BootstrapNeverReturns` | pkg/controller/container/cluster.go:171-201 | over every run without a create, a bootstrap pool that is gone stays gone |
| `ClusterController.LifecycleReachesUpToDate` | pkg/controller/container/cluster.go:138-201 | from nothing, one create and at most the bootstrap deletion end up to date, and some run does if and only if the status stored is not PROVISIONING |
| `NodePool.ThreeUpdatesSuffice` | pkg/clients/nodepool/nodepool.go:428-455 | with late initialisation in every round, three or more rounds end up to date if and only if everything outside autoscaling, management, locations, version, image type and workload metadata compares alike |
| `NodePoolDrift.UpToDateIffMet` | pkg/clients/nodepool/nodepool.go:259-455 | after late initialisation a pool is up to date if and only if each field the user set is the observed pool's field of that name, strings up to case, the runtime key aside, the version free while the pool upgrades itself |
| `NodePoolDrift.KindOfUpdate` | pkg/clients/nodepool/nodepool.go:438-453 | the scaling update is sent exactly when a scaling field the user set differs, the management one exactly when only then a management field does, the general one for any other difference |
| `NodePoolDrift.SettleableIffFixedMet` | pkg/clients/nodepool/nodepool.go:239-455 | a pool can be settled exactly when it has every field the user set that no update reaches |
| `NodePoolDrift.RoundsMeetSpec` | pkg/clients/nodepool/nodepool.go:239-455 | three or more rounds end up to date if and only if that is so at the start |
| `NodePoolDrift.GenerationWrites` | pkg/clients/nodepool/nodepool.go:45-204 | over any pool, every field after generation: the spec field of its name, unset read as zero, absent blocks and empty lists kept, the version kept under auto-upgrade |
| `NodePoolDrift.CreatedPool` | pkg/clients/nodepool/nodepool.go:45-204 | the pool Create sends has the spec's fields each under its own name and nothing else |
| `NodePoolDrift.LateInitFills` | pkg/clients/nodepool/nodepool.go:259-386 | late initialisation keeps what is set and fills each unset field from the observed field of its name, leaving it unset where that is zero |
| `NodePoolDrift.KeptTaintsFilter` | pkg/clients/nodepool/nodepool.go:445-449 | the taints compared are all but those with the runtime key, in order |
| `NodePoolDrift.FoldIsFoldedEquality` | pkg/clients/nodepool/nodepool.go:449 | strings compare alike exactly when their folded forms are equal |
| `NodePool.SettledRoundsConverge` | pkg/clients/nodepool/nodepool.go:428-455 | `n` rounds end up to date exactly when the pool can be settled and `n` reaches the kinds of update still needed |
| `NodePool.EveryUpdateCounts` | pkg/clients/nodepool/nodepool.go:388-417 | while the pool can be settled each accepted update lowers the number of kinds still needed by exactly one, and none is picked exactly when none is needed |
| `NodePool.UnsettleableIsNeverUpToDate` | pkg/clients/nodepool/nodepool.go:447-453 | a pool with a difference no update reaches is not up to date |
| `NodePool.SettleableIsKept` | pkg/clients/nodepool/nodepool.go:388-417 | no update, whatever spec it was made for, changes whether the pool can be settled |
| `NodePool.UpdateKeepsSpecSettled` | pkg/clients/nodepool/nodepool.go:259-386 | after an update, late initialisation finds nothing new to fill |
| `NodePool.LateInitSettles` | pkg/clients/nodepool/nodepool.go:259-386 | late-initialising again from the same pool changes nothing |
| `NodePool.AutoUpgradeIgnoresVersion` | pkg/clients/nodepool/nodepool.go:45-64 | with auto-upgrade on and a version observed, verdict and kind of update are the same for every version in the spec |
| `NodePool.UpdateMovesVersionIff` | pkg/clients/nodepool/nodepool.go:239-256 | the update picked moves the pool off its version exactly when the spec has another version, scaling and management agree, and anything else differs |
| `NodePool.RoundsMoveVersion` | pkg/clients/nodepool/nodepool.go:239-386 | for every spec and pool, the version after `n` rounds: the pool's own until scaling and management are through, and from then on the spec's (the one first observed if the user wrote none), unless nothing else differs |
| `NodePool.SettledRoundsMoveVersion` | pkg/clients/nodepool/nodepool.go:239-256 | the same from a late-initialised spec: a pool that cannot be settled is taken back to the spec's version from whatever version GKE upgraded it to |
| `NodePool.AutoUpgradeMayBeUndone` | pkg/clients/nodepool/nodepool.go:239-256 | a pool with auto-upgrade on that one round takes from version 1.20 back to the 1.19 of its late-initialised spec |
| `NodePoolObject.Pool.GenerateNodePool` | pkg/clients/nodepool/nodepool.go:45-60 | the pool becomes the generated one, the observed version kept under auto-upgrade |
| `NodePoolObject.SpecObject.LateInitializeSpec` | pkg/clients/nodepool/nodepool.go:259-386 | the spec becomes the late-initialised one, block by block, set fields kept |
| `NodePoolObject.IsUpToDate` | pkg/clients/nodepool/nodepool.go:428-455 | returns the first applicable of the three kinds of update and leaves the observed pool as it was |
| `NodePoolObject.PoolRunsConverge` | pkg/controller/container/nodepool.go:95-191 | in every run in which each Observe late-initialises, from any spec with nothing in flight: if the late-initialised spec can be settled, at most three updates complete and the pool is up to date exactly when its work is done |
| `NodePoolObject.SettledRunsAreQuiet` | pkg/controller/container/nodepool.go:95-191 | once late initialisation has nothing to fill in, it never changes the spec again in any run of a pool, settleable or not |
| `NodePoolObject.PoolRestConverges` | pkg/controller/container/nodepool.go:159-191 | in every rest of a run that keeps the spec and a pool that can be settled, at most three operations complete, four with one already in flight, and the pool is up to date exactly when its work is done |
| `NodePoolObject.PoolLifecycle` | pkg/controller/container/nodepool.go:135-191 | from nothing, one create ends up to date, and some run does if and only if the status stored is not PROVISIONING |
| `StableSort.SortedAlike` | pkg/clients/bucketpolicy/bucketpolicy.go:76-79 | sorted forms are equal exactly when, key by key, the lists hold the same elements in the same order |
| `StableSort.StringsSortedAlike` | pkg/clients/bucketpolicy/bucketpolicy.go:79 | sorted member lists are equal exactly when their multisets are |
| `BucketPolicy.SamenessByRole` | pkg/clients/bucketpolicy/bucketpolicy.go:75-80 | on every pair of policies: same exactly when, version aside, metadata agree and each role has the same conditions and member multisets in the same order |
| `BucketPolicy.SamenessByMap` | pkg/clients/bucketpolicy/bucketpolicy.go:75-80 | without repeated roles: same exactly when the maps from role to condition and member multiset are equal |
| `BucketPolicy.SamenessIsEquivalence` | pkg/clients/bucketpolicy/bucketpolicy.go:75-80 | sameness is reflexive, symmetric and transitive |
| `BucketPolicy.EditsCommute` | pkg/clients/bucketpolicy/bucketpolicy.go:89-134 | two edits of different grants commute up to sameness, on every policy |
| `BucketPolicy.EditByRole` | pkg/clients/bucketpolicy/bucketpolicy.go:89-134 | an edit changes only its role, there only the first binding, and there only the count of its member |
| `BucketPolicy.EditsRefineSet` | pkg/clients/bucketpolicy/bucketpolicy.go:89-134 | from distinct roles and members every sequence of edits keeps that shape, acts as set insertions and removals, and reports exactly the changes |
| `BucketPolicy.EditRefinesSet` | pkg/clients/bucketpolicy/bucketpolicy.go:89-134 | one edit of such a policy keeps its shape, acts as one set insertion or removal, and reports exactly whether the set changed |
| `BucketPolicy.BindGrants` | pkg/clients/bucketpolicy/bucketpolicy.go:89-110 | binding adds exactly its grant, on every policy, conditions aside |
| `BucketPolicy.BindGrantsUnder` | pkg/clients/bucketpolicy/bucketpolicy.go:89-110 | binding adds its grant under the condition of the role's first binding and changes nothing under any other condition |
| `BucketPolicy.BindGrantsUnconditionallyIff` | pkg/clients/bucketpolicy/bucketpolicy.go:89-110 | a bind grants unconditionally exactly when the role's first binding has no condition, the role is not bound, or the grant was unconditional already |
| `BucketPolicy.BindMayGrantConditionally` | pkg/clients/bucketpolicy/bucketpolicy.go:89-110 | a policy where the bind reports a change and the member gets no unconditional grant |
| `BucketPolicy.GrantsUnderSomeCondition` | pkg/clients/bucketpolicy/bucketpolicy.go:89-134 | the grants are those made under some condition |
| `BucketPolicy.UnbindRevokesIff` | pkg/clients/bucketpolicy/bucketpolicy.go:114-134 | unbinding touches no other grant and revokes its own exactly when no second listing remains |
| `BucketPolicy.UnbindMayLeaveGrant` | pkg/clients/bucketpolicy/bucketpolicy.go:114-134 | a policy listing a grant twice still grants it after unbinding |
| `BucketPolicy.UnbindUndoesBindIff` | pkg/clients/bucketpolicy/bucketpolicy.go:89-134 | unbinding undoes binding up to sameness exactly when the role had a binding without the member |
| `BucketPolicy.UpToDateByRole` | pkg/clients/bucketpolicy/bucketpolicy.go:61-72 | up to date depends on the bindings role by role only, and setting the generated policy makes it so |
| `BucketPolicy.UpToDateIffAsked` | pkg/clients/bucketpolicy/bucketpolicy.go:40-72 | up to date exactly when every role has the bindings the spec lists for it, in order, each with the members and the condition asked for, and no other |
| `BucketPolicy.GeneratedBindings` | pkg/clients/bucketpolicy/bucketpolicy.go:40-57 | one binding for each in the spec with its role, members and condition, all four texts of it, version 3, other metadata kept |
| `BucketPolicy.ForeignGrantIsDrift` | pkg/clients/bucketpolicy/bucketpolicy.go:61-134 | binding a grant outside the spec is drift; unbinding it repairs that exactly when the role had a binding |
| `BucketPolicyObject.Policy.BindRoleToMember` | pkg/clients/bucketpolicy/bucketpolicy.go:89-110 | edits the role's first binding object and no other, or appends one, on every policy; without objects listed twice this is the bind on values; reports whether the policy changed |
| `BucketPolicyObject.Policy.UnbindRoleFromMember` | pkg/clients/bucketpolicy/bucketpolicy.go:114-134 | shifts the member out of the role's first binding object and no other, on every policy; without objects listed twice this is the unbind on values; reports whether the member was there |
| `BucketPolicyObject.FindMember` | pkg/clients/bucketpolicy/bucketpolicy.go:117-124 | the first position of the member, or -1 exactly when it is not listed |
| `BucketPolicyObject.Policy.GenerateBucketPolicyInstance` | pkg/clients/bucketpolicy/bucketpolicy.go:40-57 | bindings replaced by fresh ones made from the spec, other metadata kept |
| `CloudSQL.DriftIsDisagreement` | pkg/clients/cloudsql/cloudsql.go:178-313 | after late initialisation, up to date exactly when the instance has settings, the name, network entries of the expected kind, and agrees with every field the user had set |
| `CloudSQL.ObservationsOnlyFill` | pkg/clients/cloudsql/cloudsql.go:178-298 | across any sequence of observations a field changes at most once, from unset to set |
| `CloudSQL.LateInitSettles` | pkg/clients/cloudsql/cloudsql.go:178-298 | late-initialising again from the same instance changes nothing |
| `CloudSQL.GeneratedIsUpToDate` | pkg/clients/cloudsql/cloudsql.go:41-141 | an instance the generator has written over is up to date with the same spec |
| `CloudSQL.GenerationWrites` | pkg/clients/cloudsql/cloudsql.go:41-141 | over any instance, every field after generation: the spec field of its name, unset read as zero, absent blocks and empty lists kept, the IPv4 flag forced to be sent |
| `CloudSQL.IpDrift` | pkg/clients/cloudsql/cloudsql.go:96-116 | the IP block has no drift exactly when the user's fields agree and the observed entries are of the generated kind |
| `CloudSQL.SettingsDrift` | pkg/clients/cloudsql/cloudsql.go:193-275 | the settings have no drift exactly when every field and block the user set agrees and the network entries are of the generated kind |
| `CloudSQL.LateInitAllFills` | pkg/clients/cloudsql/cloudsql.go:178-298 | what the user set survives any sequence of observations |
| `CloudSQLObject.DatabaseInstance.GenerateDatabaseInstance` | pkg/clients/cloudsql/cloudsql.go:41-141 | the instance becomes the generated one; empty flag and network lists and the fields the provider never writes keep what was there |
| `CloudSQLObject.SpecObject.LateInitializeSpec` | pkg/clients/cloudsql/cloudsql.go:178-298 | the spec becomes the late-initialised one, block by block, set fields kept |
| `CloudSQLObject.IsUpToDate` | pkg/clients/cloudsql/cloudsql.go:302-313 | the verdict of the comparison, with the observed instance unchanged |
| `CloudSQLObject.ObserveDrift` | pkg/controller/database/cloudsql.go:112-134 | one observation fills the spec and reports drift exactly for the fields the user had set before |
| `Pointers.LateInitializeString` | pkg/clients/gcp.go:174-179 | the field then reads as the user's value, else the observed one; a set field is returned unchanged |
| `Pointers.LateInitializeInt64` | pkg/clients/gcp.go:182-187 | the same for integers |
| `Pointers.LateInitializeBool` | pkg/clients/gcp.go:190-195 | the same for booleans |
| `Pointers.LateInitializeStringSlice` | pkg/clients/gcp.go:199-204 | the user's list unless it is empty, else the observed one |
| `Pointers.LateInitializeStringMap` | pkg/clients/gcp.go:208-213 | the user's map unless it is empty, else the observed one |
| `ConnectionDetails.EndpointPrefersPrivate` | pkg/controller/database/cloudsql.go:208-221 | the endpoint is the last private address if there is one, else the first primary one |
| `ConnectionDetails.EndpointInGeneral` | pkg/controller/database/cloudsql.go:208-221 | with empty addresses too: the first address that is not empty from the last private one on |
| `ConnectionDetails.PublishAddress` | pkg/controller/database/cloudsql.go:209-220 | one pass of the loop sets the private, public and endpoint entries and no other |
| `ConnectionDetails.PublishAddresses` | pkg/controller/database/cloudsql.go:208-221 | after the loop: the specified endpoint, the last private and the last primary address, nothing else touched |
| `ConnectionDetails.MergeCertificate` | pkg/controller/database/cloudsql.go:222-225 | the certificate entries over the others, in every iteration order |
| `ConnectionDetails.GetConnectionDetails` | pkg/controller/database/cloudsql.go:200-228 | the endpoint is decided by the addresses alone; certificate, user and connection entries are all there |
| `ConnectionDetails.ServerCACertificate` | pkg/clients/cloudsql/cloudsql.go:325-338 | the seven certificate keys each with its own field, or none without a certificate |
| `Bucket.PatchReproducesIff` | apis/storage/v1alpha3/types.go:684-691 | a patch that sets the desired labels reproduces them exactly when it deletes every observed key that is not desired and no desired one |
| `Bucket.DiffLabels` | apis/storage/v1alpha3/types.go:665-694 | in every iteration order the patch turns observed into desired labels, sets and deletes are disjoint, and the map passed in ends as observed minus desired |
| `Bucket.SetDesired` | apis/storage/v1alpha3/types.go:684-687 | all desired labels are set and taken out of the map passed in |
| `Bucket.DeleteRest` | apis/storage/v1alpha3/types.go:689-691 | exactly the keys left in the map are deleted |
| `Bucket.RoundTripNormalises` | apis/storage/v1alpha3/types.go:619-662 | conversion there and back is idempotent and the identity exactly on normal forms |
| `Bucket.CopyFields` | apis/storage/v1alpha3/types.go:642-662 | each attribute of the storage form is the attribute of that name, with the zero policy block, a retention in nanoseconds and no empty rule list |
| `Bucket.NewFields` | apis/storage/v1alpha3/types.go:619-639 | the same in the other direction |
| `Bucket.RetentionRoundTrip` | apis/storage/v1alpha3/types.go:307-329 | a period comes back unchanged exactly when its nanoseconds fit 64 bits, as all periods up to 3155673600 seconds do |
| `Bucket.CopyToBucketAttrs` | apis/storage/v1alpha3/types.go:642-662 | the storage form, from which a normal form is recovered |
| `Topic.SpecObject.LateInitialize` | pkg/clients/topic/topic.go:56-69 | labels, key and storage policy are filled only where empty |
| `Topic.LateInitFills` | pkg/clients/topic/topic.go:56-69 | what the user set stays; unset or empty labels, an unset policy and an unset key take the observed value if there is one |
| `Topic.ObservationsOnlyFill` | pkg/clients/topic/topic.go:56-69 | across any sequence of observations each field changes at most once, from unset to set |
| `Topic.DriftIsDisagreement` | pkg/clients/topic/topic.go:56-76 | after late initialisation a topic is up to date if and only if it has every field the user set, an empty label map and an empty key name being met by nothing |
| `Topic.CreatedTopic` | pkg/clients/topic/topic.go:40-52 | the topic Create sends carries the spec's fields and is up to date whenever any topic could be |
| `Topic.GenerateUpdateRequest` | pkg/clients/topic/topic.go:80-101 | the mask names exactly the fields that disagree; the request carries the spec's values for them and nothing for the others |
| `Topic.MaskNamesDisagreements` | pkg/clients/topic/topic.go:86-99 | the mask holds each of its two paths exactly when the spec and the topic disagree there, once, and nothing else |
| `Topic.RequestRepairs` | pkg/clients/topic/topic.go:72-101 | once accepted the topic is up to date exactly when the KMS key agreed and the labels are not an empty non-nil map; the mask is empty exactly when labels and policy agreed |
| `Topic.AttainableIff` | pkg/clients/topic/topic.go:72-76 | some topic is up to date with a spec exactly when its labels are not an empty non-nil map and its KMS key is not an empty name |
| `Topic.MaskPaths` | pkg/clients/topic/topic.go:86-99 | the joined mask reads back as exactly the appended paths, and is empty exactly when none was |
| `Topic.UpdateTopic` | pkg/clients/topic/topic.go:72-101 | generating, accepting and comparing again: up to date exactly when the KMS key agreed and the labels are not an empty non-nil map |
| `Topic.SplitUndoesJoin` | pkg/clients/topic/topic.go:99 | splitting a joined mask gives its parts back |

## Left out

- Late initialisation of clusters (pkg/clients/cluster/cluster.go:647-955): its CloudRun and recurring-window branches read spec blocks that may be absent, so it has no total meaning to model. In the transition system Observe may put any spec in place: the safety condition covers all of them, convergence is stated for every rest of a run in which the spec stays.
- Controller.External.Observe: does not model the conditions and the observation copied into the status beyond the status word.
- Deletion: nothing is claimed about a delete overlapping an update, since only STOPPING is guarded.
- Errors of `copystructure.Copy`, which cannot occur for these plain structs, and API errors beyond "refused".
- Nil entries in lists where the code dereferences every entry: policy bindings, database flags, ACL entries, node taints (dereferenced by the comparison) and observed accelerators (dereferenced by late initialisation).
- BucketPolicyObject.Policy.UnbindRoleFromMember: the member list is a value, so the shift inside the backing array is seen only in its result, and slices sharing a backing array are not modelled.
- CloudSQLObject.ObserveDrift: an instance without settings is reported as drift, while in the controller GenerateObservation (pkg/clients/cloudsql/cloudsql.go:155) dereferences the absent settings before the comparison is reached.
- Case folding in the node pool comparison: any folding of single characters is covered, not the Unicode tables themselves.
- Bucket.RetentionRoundTrip: division is exact; the rounding of `Duration.Seconds` for periods that are not whole seconds is not modelled.
- Bucket ACL rules and the attributes outside the updatable ones; `DefaultObjectACL` is not copied back.
- Policy, topic and instance fields of the HTTP transport (`ServerResponse`, `NullFields`).
- Cloud SQL Create, Update and Delete calls, password generation and the external-tag initializer.
- The other resources (crypto keys and their policies, service accounts, networks, subnetworks, addresses, connections, caches): smaller repeats of the same patterns.
- Credentials, name builders, client configuration, reference resolution and generated code.
