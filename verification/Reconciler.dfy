/**
 The reconciler (internal/kubernetes/reconciler.go) against an abstract cluster: one claim, one sandbox, one pod and
 one workspace volume, all with the deterministic name of the agent. A pass is one atomic step.
 */
module Reconciler {
  import opened Prelude
  import opened Lifecycle

  datatype Propagation = Keep | Orphan | Foreground

  datatype Claim = Claim(
    generation: int, kind: Name, version: Name, pool: Name, deleting: Propagation, bound: bool, failed: bool, ready: bool)

  /** `generation` is that of the claim it was provisioned for, `suspendMode` what was asked for, `suspended` the condition the
      cluster reports. `owned`: by the claim. */
  datatype Sandbox = Sandbox(generation: int, suspendMode: bool, suspended: bool, deleting: Propagation, owned: bool)

  datatype Pod = Pod(generation: int, ready: bool, failed: bool, bootstrapExit: int)

  /** `owned`: by the sandbox. */
  datatype Volume = Volume(owned: bool)

  datatype World = World(
    agent: Option<Agent>, claim: Option<Claim>, sandbox: Option<Sandbox>, pod: Option<Pod>, volume: Option<Volume>)

  /** What the adapter registry answers for an agent. */
  datatype Resolution = Resolved(version: Name, pool: Name) | NoAdapter | NoProfile | Broken

  /** Everything a pass reads besides the cluster: the clock, the registry and the approved profiles. */
  datatype Inputs = Inputs(timedOut: bool, resolution: Resolution, secretApproved: bool, storageApproved: bool)

  function Put(w: World, a: Agent): World { w.(agent := Some(a)) }

  function Say(w: World, a: Agent, state: State, why: Why): World {
    Put(w, Transition(a, state, why, a.status.runtime))
  }

  predicate Matches(c: Claim, a: Agent, r: Resolution)
    requires r.Resolved?
  {
    c.pool == r.pool && c.generation == a.runtimeGeneration && c.kind == a.kind && c.version == r.version
  }

  function DeleteClaim(w: World, how: Propagation): World
    requires w.claim.Some?
  {
    w.(claim := Some(w.claim.value.(deleting := how)))
  }

  function SetMode(w: World, suspend: bool): World
    requires w.sandbox.Some?
  {
    w.(sandbox := Some(w.sandbox.value.(suspendMode := suspend)))
  }

  /** reconcileRuntimeReplacement: drain the old sandbox, then release it from its claim. */
  function Replace(w: World, a: Agent): World
    requires w.claim.Some?
  {
    if w.claim.value.deleting != Keep then Say(w, a, Reconfiguring, RemovingPrevious)
    else if w.sandbox.Some? && !w.sandbox.value.suspended then Say(SetMode(w, true), a, Reconfiguring, DrainingPrevious)
    else Say(DeleteClaim(w, Orphan), a, Reconfiguring, ReleasingPrevious)
  }

  /** The part of reconcileRunning for an agent without a claim. */
  function Provision(w: World, a: Agent, r: Resolution): World
    requires w.claim.None? && r.Resolved?
  {
    if a.status.state == Reconfiguring && w.sandbox.Some? then
      Say(w.(sandbox := Some(w.sandbox.value.(deleting := Orphan))), a, Reconfiguring, PreservingWorkspace)
    else
      Say(w.(claim := Some(Claim(a.runtimeGeneration, a.kind, r.version, r.pool, Keep, false, false, false))),
          a, Provisioning, ClaimCreated)
  }

  /** The part of reconcileRunning for a claim of the current runtime. */
  function Bring(w: World, a: Agent, r: Resolution): World
    requires w.claim.Some? && r.Resolved?
  {
    var c := w.claim.value;
    if c.failed then Say(w, a, Failed, ClaimFailed)
    else if !c.bound then Say(w, a, Provisioning, AwaitingAssignment)
    else if w.sandbox.None? then Say(w, a, Provisioning, AwaitingSandbox)
    else if w.sandbox.value.suspendMode then Say(SetMode(w, false), a, Starting, Resuming)
    else if w.pod.None? then Say(w, a, Starting, AwaitingPod)
    else if w.pod.value.bootstrapExit != 0 then Say(w, a, Failed, BootstrapFailed(w.pod.value.bootstrapExit))
    else if w.pod.value.failed then Say(w, a, Failed, RunnerFailed)
    else if c.ready && w.pod.value.ready then
      Put(w, Transition(a, Running, Unexplained, Some(Runtime(a.runtimeGeneration, a.kind, r.version))))
    else Say(w, a, Starting, AwaitingReadiness)
  }

  function ReconcileRunning(w: World, a: Agent, i: Inputs): World {
    if a.status.state in {Requested, Provisioning, Starting} && i.timedOut then Say(w, a, Failed, TimedOut)
    else if i.resolution.NoAdapter? then Say(w, a, Failed, AdapterMissing)
    else if i.resolution.NoProfile? then Say(w, a, Failed, ProfileMissing)
    else if i.resolution.Broken? then w
    else if !i.secretApproved then Say(w, a, Failed, SecretUnapproved)
    else if !i.storageApproved then Say(w, a, Failed, StorageUnapproved)
    else if w.claim.None? then Provision(w, a, i.resolution)
    else if !Matches(w.claim.value, a, i.resolution) then Replace(w, a)
    else Bring(w, a, i.resolution)
  }

  function ReconcileStopped(w: World, a: Agent): World {
    if w.claim.None? || !w.claim.value.bound || w.sandbox.None? || w.sandbox.value.suspended
    then Say(w, a, Stopped, Unexplained)
    else Say(SetMode(w, true), a, Stopping, SandboxStopping)
  }

  function ReconcileDelete(w: World, a: Agent): World {
    var w1 := if a.retain && w.volume.Some? then w.(volume := Some(Volume(false))) else w;
    if w.claim.Some? then Say(DeleteClaim(w1, Foreground), a, Deleting, SandboxDeleting)
    else w1.(agent := None)
  }

  function Reconcile(w: World, i: Inputs): World {
    if w.agent.None? then w else
    var a := w.agent.value;
    match a.desired
    case WantDeleted => ReconcileDelete(w, a)
    case WantStopped => ReconcileStopped(w, a)
    case WantRunning => ReconcileRunning(w, a, i)
  }

  /** deleteOrphanClaims. */
  function Sweep(w: World): World {
    if w.agent.None? && w.claim.Some? then DeleteClaim(w, Foreground) else w
  }

  // ---------- the record stays coherent ----------

  /** The states a status may show besides running. */
  predicate Sayable(a: Agent, state: State) {
    && state != Running
    && (a.desired == WantDeleted <==> state == Deleting)
    && (a.desired == WantRunning ==> state !in {Stopping, Stopped})
    && (a.desired == WantStopped ==> state in {Stopping, Stopped, Failed, Reconfiguring})
  }

  /** The pass writes nothing of the record but its status. */
  predicate KeepsRecord(a: Agent, w: World) {
    w.agent.Some? && Coherent(w.agent.value) && w.agent.value == a.(status := w.agent.value.status)
  }

  lemma SayCoherent(a: Agent)
    requires Coherent(a)
    ensures forall w, state, why :: Sayable(a, state) ==> KeepsRecord(a, Say(w, a, state, why))
  {
  }

  lemma BringCoherent(w: World, a: Agent, r: Resolution)
    requires Coherent(a) && a.desired == WantRunning && w.claim.Some? && r.Resolved?
    ensures KeepsRecord(a, Bring(w, a, r))
  {
    hide Say;
    SayCoherent(a);
  }

  lemma ReconcileRunningCoherent(w: World, a: Agent, i: Inputs)
    requires Coherent(a) && a.desired == WantRunning && w.agent == Some(a)
    ensures KeepsRecord(a, ReconcileRunning(w, a, i))
  {
    hide Say, Bring, Coherent;
    SayCoherent(a);
    if w.claim.Some? && i.resolution.Resolved? {
      BringCoherent(w, a, i.resolution);
    }
  }

  /** No pass undoes a deletion, shows a state the desired state does not allow, or reports running for a runtime that
      is not the current one. */
  lemma ReconcileCoherent(w: World, i: Inputs)
    requires w.agent.Some? && Coherent(w.agent.value)
    ensures
      var w' := Reconcile(w, i);
      && (w'.agent.Some? ==> KeepsRecord(w.agent.value, w'))
      && (w'.agent.None? ==> w.agent.value.desired == WantDeleted && w.claim.None?)
  {
    hide Say, ReconcileRunning, Coherent;
    var a := w.agent.value;
    SayCoherent(a);
    if a.desired == WantRunning {
      ReconcileRunningCoherent(w, a, i);
    }
  }
}
