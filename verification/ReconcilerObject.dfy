/** The reconciler as it runs: each method reads the cluster, patches it in place and writes the status. */
module ReconcilerObject {
  import opened Prelude
  import opened Lifecycle
  import Spec = Reconciler
  import opened ClusterRuns

  /** What a pass keeps: an orderly replacement stays in order, and the workspace volume stays. */
  ghost predicate Keeps(w: Spec.World, w': Spec.World, i: Spec.Inputs) {
    && (forall reg :: OrderOk(w, reg) && RecordOk(w) && Orderly(w, Pass(i), reg) ==> OrderOk(w', reg))
    && (forall retain :: VolumeOk(w, retain) ==> VolumeOk(w', retain) && (w.volume.Some? ==> w'.volume.Some?))
  }

  lemma PassKeeps(w: Spec.World, i: Spec.Inputs)
    ensures Keeps(w, Spec.Reconcile(w, i), i)
  {
    hide Spec.Reconcile, OrderOk, RecordOk, Orderly, VolumeOk;
    forall reg | OrderOk(w, reg) && RecordOk(w) && Orderly(w, Pass(i), reg) ensures OrderOk(Spec.Reconcile(w, i), reg) {
      PassOrderOk(w, i, reg);
    }
    forall retain | VolumeOk(w, retain)
      ensures VolumeOk(Spec.Reconcile(w, i), retain) && (w.volume.Some? ==> Spec.Reconcile(w, i).volume.Some?)
    {
      PassVolumeOk(w, i, retain);
    }
  }

  lemma OtherPassesKeep(w: Spec.World, a: Agent, i: Spec.Inputs)
    requires w.agent == Some(a)
    ensures a.desired == WantStopped ==> Keeps(w, Spec.ReconcileStopped(w, a), i)
    ensures a.desired == WantDeleted ==> Keeps(w, Spec.ReconcileDelete(w, a), i)
  {
    hide Keeps, Spec.ReconcileStopped, Spec.ReconcileDelete;
    PassKeeps(w, i);
  }

  class Reconciler {
    var agent: Option<Agent>
    var claim: Option<Spec.Claim>
    var sandbox: Option<Spec.Sandbox>
    var pod: Option<Spec.Pod>
    var volume: Option<Spec.Volume>

    ghost function World(): Spec.World
      reads this
    {
      Spec.World(agent, claim, sandbox, pod, volume)
    }

    method Transition(a: Agent, state: State, why: Why, runtime: Option<Runtime>)
      requires agent == Some(a)
      modifies this`agent
      ensures World() == Spec.Put(old(World()), Lifecycle.Transition(a, state, why, runtime))
    {
      if a.status.state == state && a.status.why == why && a.status.observed == a.generation {
        return;
      }
      var status := a.status;
      status := status.(state := state, observed := a.generation, why := why, runtime := runtime);
      agent := Some(a.(status := status));
    }

    method PatchOperatingMode(suspend: bool)
      requires sandbox.Some?
      modifies this`sandbox
      ensures World() == Spec.SetMode(old(World()), suspend)
    {
      sandbox := Some(sandbox.value.(suspendMode := suspend));
    }

    method DeleteClaim(how: Spec.Propagation)
      requires claim.Some?
      modifies this`claim
      ensures World() == Spec.DeleteClaim(old(World()), how)
    {
      claim := Some(claim.value.(deleting := how));
    }

    method ReconcileRuntimeReplacement(a: Agent)
      requires agent == Some(a)
      requires claim.Some?
      modifies this
      ensures World() == Spec.Replace(old(World()), a)
    {
      if claim.value.deleting != Spec.Keep {
        Transition(a, Reconfiguring, RemovingPrevious, a.status.runtime);
        return;
      }
      if sandbox.Some? && !sandbox.value.suspended {
        if !sandbox.value.suspendMode {
          PatchOperatingMode(true);
        }
        Transition(a, Reconfiguring, DrainingPrevious, a.status.runtime);
        return;
      }
      DeleteClaim(Spec.Orphan);
      Transition(a, Reconfiguring, ReleasingPrevious, a.status.runtime);
    }

    method ProvisionRuntime(a: Agent, r: Spec.Resolution)
      requires agent == Some(a)
      requires claim.None? && r.Resolved?
      modifies this
      ensures World() == Spec.Provision(old(World()), a, r)
    {
      if a.status.state == Reconfiguring {
        if sandbox.Some? {
          sandbox := Some(sandbox.value.(deleting := Spec.Orphan));
          Transition(a, Reconfiguring, PreservingWorkspace, a.status.runtime);
          return;
        }
      }
      claim := Some(Spec.Claim(a.runtimeGeneration, a.kind, r.version, r.pool, Spec.Keep, false, false, false));
      Transition(a, Provisioning, ClaimCreated, a.status.runtime);
    }

    method BringRuntime(a: Agent, r: Spec.Resolution)
      requires agent == Some(a)
      requires claim.Some? && r.Resolved?
      modifies this
      ensures World() == Spec.Bring(old(World()), a, r)
    {
      if claim.value.failed {
        Transition(a, Failed, ClaimFailed, a.status.runtime);
        return;
      }
      if !claim.value.bound {
        Transition(a, Provisioning, AwaitingAssignment, a.status.runtime);
        return;
      }
      if sandbox.None? {
        Transition(a, Provisioning, AwaitingSandbox, a.status.runtime);
        return;
      }
      if sandbox.value.suspendMode {
        PatchOperatingMode(false);
        Transition(a, Starting, Resuming, a.status.runtime);
        return;
      }
      if pod.None? {
        Transition(a, Starting, AwaitingPod, a.status.runtime);
        return;
      }
      if pod.value.bootstrapExit != 0 {
        Transition(a, Failed, BootstrapFailed(pod.value.bootstrapExit), a.status.runtime);
        return;
      }
      if pod.value.failed {
        Transition(a, Failed, RunnerFailed, a.status.runtime);
        return;
      }
      if claim.value.ready && pod.value.ready {
        Transition(a, Running, Unexplained, Some(Runtime(a.runtimeGeneration, a.kind, r.version)));
        return;
      }
      Transition(a, Starting, AwaitingReadiness, a.status.runtime);
    }

    method ReconcileRunning(a: Agent, i: Spec.Inputs)
      requires agent == Some(a)
      modifies this
      ensures World() == Spec.ReconcileRunning(old(World()), a, i)
      ensures a.desired == WantRunning ==> Keeps(old(World()), World(), i)
    {
      PassKeeps(World(), i);
      hide Keeps, Spec.Replace, Spec.Provision, Spec.Bring, Lifecycle.Transition;
      if (a.status.state == Requested || a.status.state == Provisioning || a.status.state == Starting) && i.timedOut {
        Transition(a, Failed, TimedOut, a.status.runtime);
        return;
      }
      if i.resolution.NoAdapter? {
        Transition(a, Failed, AdapterMissing, a.status.runtime);
        return;
      }
      if i.resolution.NoProfile? {
        Transition(a, Failed, ProfileMissing, a.status.runtime);
        return;
      }
      if i.resolution.Broken? {
        return;
      }
      if !i.secretApproved {
        Transition(a, Failed, SecretUnapproved, a.status.runtime);
        return;
      }
      if !i.storageApproved {
        Transition(a, Failed, StorageUnapproved, a.status.runtime);
        return;
      }
      if claim.None? {
        ProvisionRuntime(a, i.resolution);
        return;
      }
      if !Spec.Matches(claim.value, a, i.resolution) {
        ReconcileRuntimeReplacement(a);
        return;
      }
      BringRuntime(a, i.resolution);
    }

    method ReconcileStopped(a: Agent)
      requires agent == Some(a)
      modifies this
      ensures World() == Spec.ReconcileStopped(old(World()), a)
      ensures a.desired == WantStopped ==> forall i :: Keeps(old(World()), World(), i)
    {
      hide Keeps;
      forall i { OtherPassesKeep(World(), a, i); }
      if claim.None? || !claim.value.bound || sandbox.None? || sandbox.value.suspended {
        Transition(a, Stopped, Unexplained, a.status.runtime);
        return;
      }
      if !sandbox.value.suspendMode {
        PatchOperatingMode(true);
      }
      Transition(a, Stopping, SandboxStopping, a.status.runtime);
    }

    method RetainVolumes()
      modifies this`volume
      ensures volume == if old(volume).Some? then Some(Spec.Volume(false)) else None
    {
      if volume.Some? {
        volume := Some(volume.value.(owned := false));
      }
    }

    method ReconcileDelete(a: Agent)
      requires agent == Some(a)
      modifies this
      ensures World() == Spec.ReconcileDelete(old(World()), a)
      ensures a.desired == WantDeleted ==> forall i :: Keeps(old(World()), World(), i)
    {
      hide Keeps;
      forall i { OtherPassesKeep(World(), a, i); }
      if a.retain {
        RetainVolumes();
      }
      if claim.Some? {
        DeleteClaim(Spec.Foreground);
        Transition(a, Deleting, SandboxDeleting, a.status.runtime);
        return;
      }
      agent := None;
    }

    /** One pass, together with what it keeps: the record, the order of a replacement, and the workspace volume. */
    method Reconcile(i: Spec.Inputs)
      modifies this
      ensures World() == Spec.Reconcile(old(World()), i)
      ensures old(agent).Some? && Coherent(old(agent).value) && agent.Some? ==> Spec.KeepsRecord(old(agent).value, World())
      ensures Keeps(old(World()), World(), i)
    {
      hide Spec.ReconcileRunning, Spec.ReconcileStopped, Spec.ReconcileDelete, Coherent, Keeps;
      PassKeeps(World(), i);
      if agent.None? {
        return;
      }
      if Coherent(agent.value) {
        Spec.ReconcileCoherent(World(), i);
      }
      match agent.value.desired
      case WantDeleted => ReconcileDelete(agent.value);
      case WantStopped => ReconcileStopped(agent.value);
      case WantRunning => ReconcileRunning(agent.value, i);
    }
  }
}
