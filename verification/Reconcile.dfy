/** The reconcile loop of pkg/controller/container/cluster.go and nodepool.go as a
    transition system over the managed resource, the cloud object and the operation in
    flight. The two controllers share their guards; a `Driver` holds what differs.

    Environment rules (the runtime loop and GKE are not part of the repository):
    - a reconcile is Observe, then at most one of Create (the object was not found),
      Update (found, not up to date) and Delete (found);
    - only the controller starts operations, and while a create or an update is in
      flight GKE shows PROVISIONING or RECONCILING;
    - an operation that completes installs its payload, one that fails changes nothing;
    - the object may vanish at any time, whether or not the controller asked for that. */
module Reconcile {
  import opened Pointers

  const PROVISIONING := "PROVISIONING"
  const RECONCILING := "RECONCILING"
  const RUNNING := "RUNNING"
  const STOPPING := "STOPPING"

  predicate Busy(status: string) {
    status == RECONCILING || status == PROVISIONING
  }

  /** What a kind of resource brings: the object Create sends, the update the comparison
      picks, and what an accepted update does to the object. */
  datatype Driver<!S(!new), !C(!new), !U(!new)> = Driver(
    create: S -> C,
    next: (S, C) -> Option<U>,
    install: (U, C) -> C)

  datatype Op<U> = Creating | Updating(update: U)

  datatype Phase = Idle | Observed(found: bool, upToDate: bool)

  datatype State<S, C, U> = State(
    spec: S,              // cr.Spec.ForProvider
    held: string,         // cr.Status.AtProvider.Status
    phase: Phase,
    cloud: Option<C>,     // the object a Get returns
    shown: string,        // the status a Get returns with it
    op: Option<Op<U>>)    // the create or update in flight

  datatype Step<S> =
    | EditSpec(spec: S)
    | Show(status: string)
    | Complete(status: string)
    | Fail(status: string)
    | Vanish
    | ObserveFails(held: string)
    | Observe(late: S, held: string)    // late: the spec after late initialisation
    | Create(reply: Option<string>)     // the status shown once accepted; None: an API error
    | Update(reply: Option<string>)
    | Delete
    | Skip

  /** The update an Update step sends, `None` if its guards or the comparison stop it. */
  function Sent<S(!new), C(!new), U(!new)>(k: Driver<S, C, U>, s: State<S, C, U>): Option<U> {
    if Busy(s.held) || s.cloud.None? then None else k.next(s.spec, s.cloud.value)
  }

  /** An Update step sends the update the comparison picks, whatever status is stored, but
      for the two that say an operation is in flight. */
  lemma SentIff<S(!new), C(!new), U(!new)>(k: Driver<S, C, U>, s: State<S, C, U>)
    ensures s.cloud.None? ==> Sent(k, s).None?
    ensures s.cloud.Some? && k.next(s.spec, s.cloud.value).Some? ==>
            (Sent(k, s) == k.next(s.spec, s.cloud.value) <==> s.held != "PROVISIONING" && s.held != "RECONCILING")
    ensures Sent(k, s).Some? ==>
            s.cloud.Some? && Sent(k, s) == k.next(s.spec, s.cloud.value) &&
            s.held != "PROVISIONING" && s.held != "RECONCILING"
  {
  }

  /** Which steps are possible. Observe writes the spec back through the Kubernetes client
      when late initialisation changed it, and the client's reply may then replace the
      status just read: only an unchanged spec guarantees that the status held is fresh.
      Where there is no object an Observe, failed or not, stores no status. */
  ghost predicate Enabled<S(!new), C(!new), U(!new)>(k: Driver<S, C, U>, s: State<S, C, U>, step: Step<S>) {
    match step
    case EditSpec(_) => s.phase.Idle?
    case Show(status) => s.op.Some? ==> Busy(status)
    case Complete(_) => s.op.Some?
    case Fail(_) => s.op.Some?
    case Vanish => s.cloud.Some?
    case ObserveFails(held) => s.phase.Idle? && (s.cloud.None? ==> held == s.held)
    case Observe(late, held) => s.phase.Idle? && (s.cloud.Some? && late == s.spec ==> held == s.shown)
    case Create(reply) =>
      s.phase.Observed? && !s.phase.found && (reply.Some? ==> s.cloud.None? && Busy(reply.value))
    case Update(reply) =>
      s.phase.Observed? && s.phase.found && !s.phase.upToDate && (reply.Some? ==> Busy(reply.value))
    case Delete => s.phase.Observed? && s.phase.found
    case Skip => s.phase.Observed?
  }

  function Apply<S(!new), C(!new), U(!new)>(k: Driver<S, C, U>, s: State<S, C, U>, step: Step<S>): State<S, C, U> {
    match step
    case EditSpec(spec) => s.(spec := spec)
    case Show(status) => s.(shown := status)
    case Complete(status) =>
      if s.op.Some? && s.op.value.Updating? && s.cloud.Some? then
        s.(op := None, shown := status, cloud := Some(k.install(s.op.value.update, s.cloud.value)))
      else
        s.(op := None, shown := status)
    case Fail(status) => s.(op := None, shown := status)
    case Vanish => s.(cloud := None, op := None)
    case ObserveFails(held) => s.(held := held)
    case Observe(late, held) =>
      if s.cloud.None? then s.(phase := Observed(false, false))
      else s.(spec := late, held := held, phase := Observed(true, k.next(late, s.cloud.value).None?))
    case Create(reply) =>
      if s.held == PROVISIONING || reply.None? then s.(phase := Idle)
      else s.(phase := Idle, cloud := Some(k.create(s.spec)), op := Some(Creating), shown := reply.value)
    case Update(reply) =>
      var sent := Sent(k, s);
      if sent.None? || reply.None? then s.(phase := Idle)
      else s.(phase := Idle, op := Some(Updating(sent.value)), shown := reply.value)
    case Delete => s.(phase := Idle)
    case Skip => s.(phase := Idle)
  }

  /** Who changes what: the stored status only an Observe, the spec only a user or an Observe,
      the object only a create, an update that completes, or its vanishing. */
  lemma StepFrames<S(!new), C(!new), U(!new)>(k: Driver<S, C, U>, s: State<S, C, U>, step: Step<S>)
    ensures var t := Apply(k, s, step);
            && (t.held != s.held ==> step.Observe? || step.ObserveFails?)
            && (t.spec != s.spec ==> step.Observe? || step.EditSpec?)
            && (t.cloud != s.cloud ==> step.Create? || step.Complete? || step.Vanish?)
            && (t.op.Some? && t.op != s.op ==> step.Create? || step.Update?)
            && (step.Create? || step.Update? || step.Delete? || step.Skip? ==> t.phase.Idle?)
  {
  }

  // ---- runs ----

  ghost predicate Run<S(!new), C(!new), U(!new)>(k: Driver<S, C, U>, s: State<S, C, U>, steps: seq<Step<S>>)
    decreases |steps|
  {
    steps == [] || (Enabled(k, s, steps[0]) && Run(k, Apply(k, s, steps[0]), steps[1..]))
  }

  function End<S(!new), C(!new), U(!new)>(k: Driver<S, C, U>, s: State<S, C, U>, steps: seq<Step<S>>): State<S, C, U>
    decreases |steps|
  {
    if steps == [] then s else End(k, Apply(k, s, steps[0]), steps[1..])
  }

  /** Every Observe made while an operation is in flight leaves a busy status. */
  ghost predicate Guarded<S(!new), C(!new), U(!new)>(k: Driver<S, C, U>, s: State<S, C, U>, steps: seq<Step<S>>)
    decreases |steps|
  {
    steps == [] ||
    ((steps[0].Observe? && s.op.Some? ==> Busy(steps[0].held)) && Guarded(k, Apply(k, s, steps[0]), steps[1..]))
  }

  /** No step of the run sends a create or an update while one is in flight. */
  ghost predicate NeverOverlaps<S(!new), C(!new), U(!new)>(k: Driver<S, C, U>, s: State<S, C, U>, steps: seq<Step<S>>)
    decreases |steps|
  {
    steps == [] ||
    ((steps[0].Update? && Sent(k, s).Some? ==> s.op.None?) &&
     (steps[0].Create? && s.held != PROVISIONING ==> s.op.None?) &&
     NeverOverlaps(k, Apply(k, s, steps[0]), steps[1..]))
  }

  lemma {:induction false} RunsConcatenate<S(!new), C(!new), U(!new)>(
    k: Driver<S, C, U>, s: State<S, C, U>, first: seq<Step<S>>, rest: seq<Step<S>>)
    requires Run(k, s, first) && Run(k, End(k, s, first), rest)
    ensures Run(k, s, first + rest) && End(k, s, first + rest) == End(k, End(k, s, first), rest)
    decreases |first|
  {
    if first == [] {
      assert first + rest == rest;
    } else {
      RunsConcatenate(k, Apply(k, s, first[0]), first[1..], rest);
      assert (first + rest)[1..] == first[1..] + rest;
    }
  }

  lemma OneStep<S(!new), C(!new), U(!new)>(k: Driver<S, C, U>, s: State<S, C, U>, a: Step<S>)
    ensures Run(k, s, [a]) <==> Enabled(k, s, a)
    ensures End(k, s, [a]) == Apply(k, s, a)
    ensures NeverOverlaps(k, s, [a]) <==>
            (a.Update? && Sent(k, s).Some? ==> s.op.None?) && (a.Create? && s.held != PROVISIONING ==> s.op.None?)
  {
  }

  lemma TwoSteps<S(!new), C(!new), U(!new)>(k: Driver<S, C, U>, s: State<S, C, U>, a: Step<S>, b: Step<S>)
    ensures Run(k, s, [a, b]) <==> Enabled(k, s, a) && Enabled(k, Apply(k, s, a), b)
    ensures End(k, s, [a, b]) == Apply(k, Apply(k, s, a), b)
    ensures NeverOverlaps(k, s, [a, b]) <==> NeverOverlaps(k, s, [a]) && NeverOverlaps(k, Apply(k, s, a), [b])
  {
    assert [a, b][1..] == [b] && [a][1..] == [];
    OneStep(k, s, a);
    OneStep(k, Apply(k, s, a), b);
  }

  // ---- safety ----

  predicate Safe<S, C, U>(s: State<S, C, U>) {
    && (s.op.Some? ==> Busy(s.shown) && s.cloud.Some?)
    && (s.phase.Observed? && s.phase.found && !Busy(s.held) ==> s.op.None?)
    && (s.phase.Observed? && !s.phase.found ==> s.cloud.None?)
  }

  lemma StepKeepsSafe<S(!new), C(!new), U(!new)>(k: Driver<S, C, U>, s: State<S, C, U>, step: Step<S>)
    requires Safe(s) && Enabled(k, s, step)
    requires step.Observe? && s.op.Some? ==> Busy(step.held)
    ensures Safe(Apply(k, s, step))
  {
  }

  /** Safety over whole runs: whatever users, GKE and failures do in between, a run whose
      observations see the operation in flight never sends a create or an update during one. */
  lemma {:induction false} GuardedRunsNeverOverlap<S(!new), C(!new), U(!new)>(
    k: Driver<S, C, U>, s: State<S, C, U>, steps: seq<Step<S>>)
    requires Safe(s) && Run(k, s, steps) && Guarded(k, s, steps)
    ensures Safe(End(k, s, steps)) && NeverOverlaps(k, s, steps)
    decreases |steps|
  {
    if steps != [] {
      StepKeepsSafe(k, s, steps[0]);
      GuardedRunsNeverOverlap(k, Apply(k, s, steps[0]), steps[1..]);
    }
  }

  /** An Observe that leaves the spec alone is guarded: only late initialisation can break
      the guard. */
  lemma {:induction false} SteadyRunsAreGuarded<S(!new), C(!new), U(!new)>(
    k: Driver<S, C, U>, s: State<S, C, U>, steps: seq<Step<S>>)
    requires Safe(s) && Run(k, s, steps) && Steady(k, s, steps)
    ensures Guarded(k, s, steps)
    decreases |steps|
  {
    if steps != [] {
      StepKeepsSafe(k, s, steps[0]);
      SteadyRunsAreGuarded(k, Apply(k, s, steps[0]), steps[1..]);
    }
  }

  /** No Observe of the run finds anything to late-initialise while an operation is in flight. */
  ghost predicate Steady<S(!new), C(!new), U(!new)>(k: Driver<S, C, U>, s: State<S, C, U>, steps: seq<Step<S>>)
    decreases |steps|
  {
    steps == [] ||
    ((steps[0].Observe? && s.op.Some? ==> steps[0].late == s.spec) && Steady(k, Apply(k, s, steps[0]), steps[1..]))
  }

  /** The guard is exact. After any guarded run, an Observe and the Update that follows it
      overlap an earlier operation if and only if one is in flight and the status left by
      the Observe is not a busy one. */
  lemma OverlapIffStale<S(!new), C(!new), U(!new)>(
    k: Driver<S, C, U>, s: State<S, C, U>, steps: seq<Step<S>>, late: S, held: string, reply: Option<string>)
    requires Safe(s) && Guarded(k, s, steps)
    requires Run(k, s, steps + [Observe(late, held), Update(reply)])
    ensures NeverOverlaps(k, s, steps + [Observe(late, held), Update(reply)]) <==>
            (End(k, s, steps).op.Some? ==> Busy(held))
    decreases |steps|
  {
    var last := [Observe(late, held), Update(reply)];
    if steps == [] {
      assert steps + last == last;
      TwoSteps(k, s, last[0], last[1]);
    } else {
      assert (steps + last)[0] == steps[0] && (steps + last)[1..] == steps[1..] + last;
      StepKeepsSafe(k, s, steps[0]);
      OverlapIffStale(k, Apply(k, s, steps[0]), steps[1..], late, held, reply);
    }
  }

  function StaleRun<S>(spec: S, late: S): seq<Step<S>> {
    [Observe(spec, ""), Create(Some(PROVISIONING))] + [Observe(late, ""), Update(Some(RECONCILING))]
  }

  /** An overlapping run, from nothing: the object is created, the next Observe fills the
      spec in and its write-back brings the old empty status back, and if the comparison
      picks an update that update is sent while the create is still in flight. */
  lemma StaleRunOverlaps<S(!new), C(!new), U(!new)>(k: Driver<S, C, U>, spec: S, late: S)
    requires late != spec && k.next(late, k.create(spec)).Some?
    ensures var s, steps := Start(spec, ""), StaleRun(spec, late);
            Safe(s) && Run(k, s, steps) && !NeverOverlaps(k, s, steps) &&
            End(k, s, steps).op == Some(Updating(k.next(late, k.create(spec)).value))
  {
    var s := Start<S, C, U>(spec, "");
    var first, second := [Observe(spec, ""), Create(Some(PROVISIONING))], [Observe(late, ""), Update(Some(RECONCILING))];
    TwoSteps(k, s, first[0], first[1]);
    TwoSteps(k, End(k, s, first), second[0], second[1]);
    RunsConcatenate(k, s, first, second);
    assert Guarded(k, s, first) by {
      assert first[1..] == [first[1]] && first[1..][1..] == [];
    }
    OverlapIffStale(k, s, first, late, "", Some(RECONCILING));
  }

  // ---- an object lost while it was being provisioned ----

  /** Nothing exists and nothing is in flight, but the last status stored is PROVISIONING. */
  predicate Lost<S, C, U>(s: State<S, C, U>) {
    s.cloud.None? && s.op.None? && s.held == PROVISIONING && (s.phase.Observed? ==> !s.phase.found)
  }

  /** Such an object is never created again: Create waits for a creation that is not
      happening, and no later Observe corrects the status. */
  lemma {:induction false} LostStaysLost<S(!new), C(!new), U(!new)>(
    k: Driver<S, C, U>, s: State<S, C, U>, steps: seq<Step<S>>)
    requires Lost(s) && Run(k, s, steps)
    ensures Lost(End(k, s, steps))
    decreases |steps|
  {
    if steps != [] {
      LostStaysLost(k, Apply(k, s, steps[0]), steps[1..]);
    }
  }

  /** Before anything exists. */
  function Start<S, C, U>(spec: S, held: string): State<S, C, U> {
    State(spec, held, Idle, None, "", None)
  }

  function CreateRound<S>(spec: S, held: string): seq<Step<S>> {
    [Observe(spec, held), Create(Some(PROVISIONING)), Complete(RUNNING)]
  }

  lemma CreateRoundWorks<S(!new), C(!new), U(!new)>(k: Driver<S, C, U>, spec: S, held: string)
    requires held != PROVISIONING
    ensures Run(k, Start(spec, held), CreateRound(spec, held))
    ensures End(k, Start(spec, held), CreateRound(spec, held)) ==
            Start(spec, held).(cloud := Some(k.create(spec)), shown := RUNNING)
  {
    var s, steps := Start<S, C, U>(spec, held), CreateRound(spec, held);
    assert steps == [steps[0], steps[1]] + [steps[2]];
    TwoSteps(k, s, steps[0], steps[1]);
    OneStep(k, End(k, s, [steps[0], steps[1]]), steps[2]);
    RunsConcatenate(k, s, [steps[0], steps[1]], [steps[2]]);
  }

  /** From nothing, some run gets an object created if and only if the status stored is not
      PROVISIONING. */
  lemma CreatableIff<S(!new), C(!new), U(!new)>(k: Driver<S, C, U>, spec: S, held: string)
    ensures (exists steps :: Run(k, Start(spec, held), steps) && End(k, Start(spec, held), steps).cloud.Some?) <==>
            held != PROVISIONING
  {
    if held != PROVISIONING {
      CreateRoundWorks(k, spec, held);
    } else {
      forall steps | Run(k, Start(spec, held), steps)
        ensures End(k, Start(spec, held), steps).cloud.None?
      {
        LostStaysLost(k, Start(spec, held), steps);
      }
    }
  }

  /** And the state is reached: create, observe, and lose the object. */
  function LosingRun<S>(spec: S): seq<Step<S>> {
    [Observe(spec, ""), Create(Some(PROVISIONING))] + [Observe(spec, PROVISIONING), Skip] + [Vanish]
  }

  lemma ProvisioningObjectMayBeLost<S(!new), C(!new), U(!new)>(k: Driver<S, C, U>, spec: S)
    ensures Run(k, Start(spec, ""), LosingRun(spec)) && Lost(End(k, Start(spec, ""), LosingRun(spec)))
  {
    var s := Start<S, C, U>(spec, "");
    var first, second := [Observe(spec, ""), Create(Some(PROVISIONING))], [Observe(spec, PROVISIONING), Skip];
    TwoSteps(k, s, first[0], first[1]);
    TwoSteps(k, End(k, s, first), second[0], second[1]);
    RunsConcatenate(k, s, first, second);
    OneStep(k, End(k, s, first + second), Vanish);
    RunsConcatenate(k, s, first + second, [Vanish]);
  }

  // ---- progress ----

  /** A measure of the work left: a good object stays good, each update the comparison
      picks does one unit, and no update is picked exactly when none is left. */
  datatype Progress<!S(!new), !C(!new)> = Progress(good: (S, C) -> bool, work: (S, C) -> nat)

  ghost predicate Measures<S(!new), C(!new), U(!new)>(p: Progress<S, C>, k: Driver<S, C, U>) {
    forall spec: S, c: C {:trigger k.next(spec, c)} :: p.good(spec, c) ==>
      (k.next(spec, c).None? <==> p.work(spec, c) == 0) &&
      (k.next(spec, c).Some? ==>
        var d := k.install(k.next(spec, c).value, c);
        p.good(spec, d) && p.work(spec, d) + 1 == p.work(spec, c))
  }

  /** Steps that leave the spec as it is, without the object vanishing. */
  ghost predicate Quiet<S(!new)>(spec: S, step: Step<S>) {
    match step
    case EditSpec(_) => false
    case Observe(late, _) => late == spec
    case Vanish => false
    case _ => true
  }

  function Completed<S>(steps: seq<Step<S>>): nat {
    if steps == [] then 0 else (if steps[0].Complete? then 1 else 0) + Completed(steps[1..])
  }

  /** An update in flight is the one the comparison still picks. */
  ghost predicate Pending<S(!new), C(!new), U(!new)>(p: Progress<S, C>, k: Driver<S, C, U>, s: State<S, C, U>) {
    && s.cloud.Some?
    && p.good(s.spec, s.cloud.value)
    && (s.op.Some? ==> s.op.value.Updating? && k.next(s.spec, s.cloud.value) == Some(s.op.value.update))
  }

  lemma QuietStepCounts<S(!new), C(!new), U(!new)>(
    p: Progress<S, C>, k: Driver<S, C, U>, s: State<S, C, U>, step: Step<S>)
    requires Measures(p, k) && Pending(p, k, s) && Safe(s)
    requires Enabled(k, s, step) && Quiet(s.spec, step)
    ensures var t := Apply(k, s, step);
            t.spec == s.spec && Safe(t) && Pending(p, k, t) &&
            p.work(s.spec, t.cloud.value) + (if step.Complete? then 1 else 0) == p.work(s.spec, s.cloud.value)
  {
    assert k.next(s.spec, s.cloud.value) == k.next(s.spec, s.cloud.value);
    StepKeepsSafe(k, s, step);
  }

  /** Convergence over whole runs: however observations, refusals, failures and completions
      interleave, every completed update does one unit of work. So no run completes more
      updates than there was work, and one that completes that many ends up to date. */
  lemma {:induction false} QuietRunsConverge<S(!new), C(!new), U(!new)>(
    p: Progress<S, C>, k: Driver<S, C, U>, s: State<S, C, U>, steps: seq<Step<S>>)
    requires Measures(p, k) && Pending(p, k, s) && Safe(s)
    requires Run(k, s, steps) && forall i :: 0 <= i < |steps| ==> Quiet(s.spec, steps[i])
    ensures var e := End(k, s, steps);
            e.spec == s.spec && Pending(p, k, e) &&
            Completed(steps) + p.work(s.spec, e.cloud.value) == p.work(s.spec, s.cloud.value) &&
            (Completed(steps) == p.work(s.spec, s.cloud.value) <==> k.next(e.spec, e.cloud.value).None?)
    decreases |steps|
  {
    if steps == [] {
      assert k.next(s.spec, s.cloud.value) == k.next(s.spec, s.cloud.value);
    } else {
      QuietStepCounts(p, k, s, steps[0]);
      QuietRunsConverge(p, k, Apply(k, s, steps[0]), steps[1..]);
    }
  }

  /** Whether the first operation of the run to end completes. */
  predicate CompletesFirst<S>(steps: seq<Step<S>>) {
    steps != [] && (steps[0].Complete? || (!steps[0].Fail? && CompletesFirst(steps[1..])))
  }

  /** The object once the operation in flight has completed. */
  function Landed<S(!new), C(!new), U(!new)>(k: Driver<S, C, U>, s: State<S, C, U>): C
    requires s.cloud.Some?
  {
    if s.op.Some? && s.op.value.Updating? then k.install(s.op.value.update, s.cloud.value) else s.cloud.value
  }

  /** A quiet step leaves the operation in flight and the object alone, or ends the operation. */
  lemma QuietStepInFlight<S(!new), C(!new), U(!new)>(k: Driver<S, C, U>, s: State<S, C, U>, step: Step<S>)
    requires Safe(s) && s.op.Some? && Enabled(k, s, step) && Quiet(s.spec, step)
    ensures var t := Apply(k, s, step);
            Safe(t) && t.spec == s.spec &&
            t.op == (if step.Complete? || step.Fail? then None else s.op) &&
            t.cloud == if step.Complete? then Some(Landed(k, s)) else s.cloud
  {
    StepKeepsSafe(k, s, step);
  }

  /** The work a quiet run has to do, counting the operation already in flight. */
  function WorkFrom<S(!new), C(!new), U(!new)>(
    p: Progress<S, C>, k: Driver<S, C, U>, s: State<S, C, U>, steps: seq<Step<S>>): nat
    requires s.cloud.Some?
  {
    if s.op.Some? && CompletesFirst(steps) then 1 + p.work(s.spec, Landed(k, s)) else p.work(s.spec, s.cloud.value)
  }

  /** Convergence of every quiet rest of a run, whatever operation is in flight when it
      starts: that operation, made for an older spec perhaps, lands or fails, and from then
      on every completed operation does one unit of work. */
  lemma {:induction false} QuietRestConverges<S(!new), C(!new), U(!new)>(
    p: Progress<S, C>, k: Driver<S, C, U>, s: State<S, C, U>, steps: seq<Step<S>>)
    requires Measures(p, k) && Safe(s) && s.cloud.Some?
    requires p.good(s.spec, s.cloud.value) && p.good(s.spec, Landed(k, s))
    requires Run(k, s, steps) && forall i :: 0 <= i < |steps| ==> Quiet(s.spec, steps[i])
    ensures var e := End(k, s, steps);
            e.spec == s.spec && e.cloud.Some? &&
            Completed(steps) + p.work(s.spec, e.cloud.value) == WorkFrom(p, k, s, steps) &&
            (Completed(steps) == WorkFrom(p, k, s, steps) <==> k.next(s.spec, e.cloud.value).None?)
    decreases |steps|
  {
    if s.op.None? {
      QuietRunsConverge(p, k, s, steps);
    } else if steps == [] {
      assert k.next(s.spec, s.cloud.value) == k.next(s.spec, s.cloud.value);
    } else {
      var t := Apply(k, s, steps[0]);
      QuietStepInFlight(k, s, steps[0]);
      if steps[0].Complete? || steps[0].Fail? {
        QuietRunsConverge(p, k, t, steps[1..]);
      } else {
        QuietRestConverges(p, k, t, steps[1..]);
      }
    }
  }

  predicate UpToDateAt<S(!new), C(!new), U(!new)>(k: Driver<S, C, U>, s: State<S, C, U>) {
    s.cloud.Some? && k.next(s.spec, s.cloud.value).None?
  }

  /** One undisturbed round: observe, send the update, GKE completes it. */
  function Round<S>(spec: S, shown: string): seq<Step<S>> {
    [Observe(spec, shown), Update(Some(RECONCILING)), Complete(shown)]
  }

  function Rounds<S>(spec: S, shown: string, n: nat): seq<Step<S>> {
    if n == 0 then [] else Round(spec, shown) + Rounds(spec, shown, n - 1)
  }

  lemma RoundWorks<S(!new), C(!new), U(!new)>(p: Progress<S, C>, k: Driver<S, C, U>, s: State<S, C, U>)
      returns (t: State<S, C, U>)
    requires Measures(p, k) && s.cloud.Some? && p.good(s.spec, s.cloud.value) && p.work(s.spec, s.cloud.value) > 0
    requires s.phase.Idle? && s.op.None? && s.shown != "PROVISIONING" && s.shown != "RECONCILING"
    ensures Run(k, s, Round(s.spec, s.shown)) && End(k, s, Round(s.spec, s.shown)) == t
    ensures t == s.(cloud := t.cloud, held := s.shown) && t.cloud.Some? && p.good(s.spec, t.cloud.value)
    ensures p.work(s.spec, t.cloud.value) + 1 == p.work(s.spec, s.cloud.value)
  {
    var steps := Round(s.spec, s.shown);
    assert k.next(s.spec, s.cloud.value).Some?;
    var first := [steps[0], steps[1]];
    assert steps == first + [steps[2]];
    TwoSteps(k, s, steps[0], steps[1]);
    OneStep(k, End(k, s, first), steps[2]);
    RunsConcatenate(k, s, first, [steps[2]]);
    t := End(k, s, steps);
  }

  /** And such a run exists: undisturbed rounds, one for each unit of work, end up to date. */
  lemma {:induction false} RoundsConverge<S(!new), C(!new), U(!new)>(
    p: Progress<S, C>, k: Driver<S, C, U>, s: State<S, C, U>)
    requires Measures(p, k) && s.cloud.Some? && p.good(s.spec, s.cloud.value)
    requires s.phase.Idle? && s.op.None? && s.shown != "PROVISIONING" && s.shown != "RECONCILING"
    ensures var steps := Rounds(s.spec, s.shown, p.work(s.spec, s.cloud.value));
            Run(k, s, steps) && UpToDateAt(k, End(k, s, steps))
    decreases p.work(s.spec, s.cloud.value)
  {
    var n := p.work(s.spec, s.cloud.value);
    assert k.next(s.spec, s.cloud.value) == k.next(s.spec, s.cloud.value);
    if n > 0 {
      var t := RoundWorks(p, k, s);
      RoundsConverge(p, k, t);
      RunsConcatenate(k, s, Round(s.spec, s.shown), Rounds(s.spec, s.shown, n - 1));
    }
  }

  function LifeRun<S(!new), C(!new), U(!new)>(p: Progress<S, C>, k: Driver<S, C, U>, spec: S, held: string): seq<Step<S>> {
    CreateRound(spec, held) + Rounds(spec, RUNNING, p.work(spec, k.create(spec)))
  }

  /** From nothing to up to date: one create, and as many updates as it leaves work. Some
      run gets there if and only if the status stored is not PROVISIONING. */
  lemma LifecycleIff<S(!new), C(!new), U(!new)>(p: Progress<S, C>, k: Driver<S, C, U>, spec: S, held: string)
    requires Measures(p, k) && p.good(spec, k.create(spec))
    ensures var s := Start(spec, held);
            held != PROVISIONING ==>
              Run(k, s, LifeRun(p, k, spec, held)) && UpToDateAt(k, End(k, s, LifeRun(p, k, spec, held)))
    ensures (exists steps :: Run(k, Start(spec, held), steps) && UpToDateAt(k, End(k, Start(spec, held), steps))) <==>
            held != PROVISIONING
  {
    if held == PROVISIONING {
      CreatableIff(k, spec, held);
    } else {
      var s := Start<S, C, U>(spec, held);
      CreateRoundWorks(k, spec, held);
      RoundsConverge(p, k, End(k, s, CreateRound(spec, held)));
      RunsConcatenate(k, s, CreateRound(spec, held), Rounds(spec, RUNNING, p.work(spec, k.create(spec))));
    }
  }

  // ---- what no update changes, no run without a create changes ----

  lemma {:induction false} UpdatesKeep<S(!new), C(!new), U(!new)>(
    k: Driver<S, C, U>, keep: C -> bool, s: State<S, C, U>, steps: seq<Step<S>>)
    requires forall u: U, c: C {:trigger k.install(u, c)} :: keep(c) ==> keep(k.install(u, c))
    requires s.cloud.Some? ==> keep(s.cloud.value)
    requires forall i :: 0 <= i < |steps| ==> !steps[i].Create?
    ensures End(k, s, steps).cloud.Some? ==> keep(End(k, s, steps).cloud.value)
    decreases |steps|
  {
    if steps != [] {
      UpdatesKeep(k, keep, Apply(k, s, steps[0]), steps[1..]);
    }
  }
}
