/**
 What a reconcile pass reports and what it does to the cluster, told from the cluster before the pass.
 */
module ReconcilerAnswers {
  import opened Prelude
  import opened Lifecycle
  import opened Reconciler
  import ClusterRuns

  predicate Reported(w: World, a: Agent, state: State, why: Why) {
    && w.agent.Some? && w.agent.value == a.(status := w.agent.value.status)
    && w.agent.value.status.state == state && w.agent.value.status.why == why && w.agent.value.status.observed == a.generation
  }

  /** The time to come up is over. */
  predicate Late(a: Agent, i: Inputs) { i.timedOut && a.status.state in {Requested, Provisioning, Starting} }

  predicate Approved(a: Agent, i: Inputs) { !Late(a, i) && i.resolution.Resolved? && i.secretApproved && i.storageApproved }

  /** An agent that is to run. */
  predicate Wanted(w: World, a: Agent) { w.agent == Some(a) && a.desired == WantRunning }

  /** A pass refuses, in this order, an agent that is late, whose adapter or profile is not installed, or whose secret or storage
      profile is not approved; it does nothing while the registry is broken. A refusal touches nothing but the status. */
  lemma RefusesExactly(w: World, a: Agent, i: Inputs)
    requires Wanted(w, a)
    ensures Late(a, i) ==> Reported(Reconcile(w, i), a, Failed, TimedOut)
    ensures !Late(a, i) && i.resolution.NoAdapter? ==> Reported(Reconcile(w, i), a, Failed, AdapterMissing)
    ensures !Late(a, i) && i.resolution.NoProfile? ==> Reported(Reconcile(w, i), a, Failed, ProfileMissing)
    ensures !Late(a, i) && i.resolution.Broken? ==> Reconcile(w, i) == w
    ensures !Late(a, i) && i.resolution.Resolved? && !i.secretApproved ==> Reported(Reconcile(w, i), a, Failed, SecretUnapproved)
    ensures !Late(a, i) && i.resolution.Resolved? && i.secretApproved && !i.storageApproved ==>
      Reported(Reconcile(w, i), a, Failed, StorageUnapproved)
    ensures !Approved(a, i) ==> Reconcile(w, i) == w.(agent := Reconcile(w, i).agent)
  {
    hide Transition;
    ClusterRuns.TransitionSays(a);
  }

  /** The claim is current, so the pass brings its runtime up. */
  predicate Bringing(w: World, a: Agent, i: Inputs) {
    Wanted(w, a) && Approved(a, i) && w.claim.Some? && Matches(w.claim.value, a, i.resolution)
  }

  /** The claim has a sandbox that is asked to run, and a pod. */
  predicate PodUp(w: World) {
    w.claim.Some? && w.claim.value.bound && w.sandbox.Some? && !w.sandbox.value.suspendMode && w.pod.Some?
  }

  predicate PodBroken(w: World) { PodUp(w) && (w.pod.value.bootstrapExit != 0 || w.pod.value.failed) }

  /** For a current claim a pass reports failed exactly when the claim failed, the bootstrap exited with an error, or the runner
      failed, and says which. */
  lemma FailsExactly(w: World, a: Agent, i: Inputs)
    requires Bringing(w, a, i)
    ensures
      var w' := Reconcile(w, i);
      && w'.agent.Some?
      && (w'.agent.value.status.state == Failed <==> w.claim.value.failed || PodBroken(w))
      && (w.claim.value.failed ==> Reported(w', a, Failed, ClaimFailed))
      && (!w.claim.value.failed && PodUp(w) && w.pod.value.bootstrapExit != 0 ==>
            Reported(w', a, Failed, BootstrapFailed(w.pod.value.bootstrapExit)))
      && (!w.claim.value.failed && PodUp(w) && w.pod.value.bootstrapExit == 0 && w.pod.value.failed ==>
            Reported(w', a, Failed, RunnerFailed))
  {
    hide Transition;
    ClusterRuns.TransitionSays(a);
  }

  /** It reports running exactly when claim and pod are ready and nothing failed. */
  lemma RunsExactly(w: World, a: Agent, i: Inputs)
    requires Bringing(w, a, i)
    ensures
      var w' := Reconcile(w, i);
      && w'.agent.Some?
      && (w'.agent.value.status.state == Running <==>
            !w.claim.value.failed && PodUp(w) && !PodBroken(w) && w.claim.value.ready && w.pod.value.ready)
      && (w'.agent.value.status.state == Running ==> Reported(w', a, Running, Unexplained))
  {
    hide Transition;
    ClusterRuns.TransitionSays(a);
  }

  /** Otherwise it waits, and says for what; only a sandbox asked to suspend is asked to run again. */
  lemma WaitsExactly(w: World, a: Agent, i: Inputs)
    requires Bringing(w, a, i) && !w.claim.value.failed
    ensures
      var w' := Reconcile(w, i);
      && (!w.claim.value.bound ==> Reported(w', a, Provisioning, AwaitingAssignment))
      && (w.claim.value.bound && w.sandbox.None? ==> Reported(w', a, Provisioning, AwaitingSandbox))
      && (w.claim.value.bound && w.sandbox.Some? && w.sandbox.value.suspendMode ==>
            Reported(w', a, Starting, Resuming) && w'.sandbox == Some(w.sandbox.value.(suspendMode := false)))
      && (w.claim.value.bound && w.sandbox.Some? && !w.sandbox.value.suspendMode && w.pod.None? ==>
            Reported(w', a, Starting, AwaitingPod))
      && (PodUp(w) && !PodBroken(w) && !(w.claim.value.ready && w.pod.value.ready) ==> Reported(w', a, Starting, AwaitingReadiness))
      && (!(w.claim.value.bound && w.sandbox.Some? && w.sandbox.value.suspendMode) ==> w' == w.(agent := w'.agent))
  {
    hide Transition;
    ClusterRuns.TransitionSays(a);
  }

  /** Without a claim, a pass first lets go of a sandbox left from a replacement, and otherwise claims exactly the runtime that the
      agent and the registry name. */
  lemma ClaimsExactly(w: World, a: Agent, i: Inputs)
    requires Wanted(w, a) && Approved(a, i) && w.claim.None?
    ensures
      var w' := Reconcile(w, i);
      if a.status.state == Reconfiguring && w.sandbox.Some? then
        && Reported(w', a, Reconfiguring, PreservingWorkspace) && w'.claim.None?
        && w'.sandbox == Some(w.sandbox.value.(deleting := Orphan)) && w'.pod == w.pod && w'.volume == w.volume
      else
        && Reported(w', a, Provisioning, ClaimCreated)
        && w'.claim.Some? && Matches(w'.claim.value, a, i.resolution)
        && w'.claim.value.deleting == Keep && !w'.claim.value.bound && !w'.claim.value.ready && !w'.claim.value.failed
        && w'.sandbox == w.sandbox && w'.pod == w.pod && w'.volume == w.volume
  {
    hide Transition;
    ClusterRuns.TransitionSays(a);
  }

  /** The claim of one pass is current for a later one exactly while generation, adapter, version and pool are all the same. */
  lemma CurrentExactly(w: World, a: Agent, i: Inputs, b: Agent, r: Resolution)
    requires Wanted(w, a) && Approved(a, i) && w.claim.None? && Reconcile(w, i).claim.Some? && r.Resolved?
    ensures Matches(Reconcile(w, i).claim.value, b, r) <==>
      && b.runtimeGeneration == a.runtimeGeneration && b.kind == a.kind
      && r.version == i.resolution.version && r.pool == i.resolution.pool
  {
    hide Transition;
  }

  /** An outdated claim that is kept has its sandbox suspended first and is released once the suspension is reported or there is no
      sandbox; one that is being deleted is waited for. */
  lemma ReplacesExactly(w: World, a: Agent, i: Inputs)
    requires Wanted(w, a) && Approved(a, i) && w.claim.Some? && !Matches(w.claim.value, a, i.resolution)
    ensures
      var w' := Reconcile(w, i);
      if w.claim.value.deleting != Keep then Reported(w', a, Reconfiguring, RemovingPrevious) && w' == w.(agent := w'.agent)
      else if w.sandbox.Some? && !w.sandbox.value.suspended then
        && Reported(w', a, Reconfiguring, DrainingPrevious)
        && w' == w.(agent := w'.agent, sandbox := Some(w.sandbox.value.(suspendMode := true)))
      else
        && Reported(w', a, Reconfiguring, ReleasingPrevious)
        && w' == w.(agent := w'.agent, claim := Some(w.claim.value.(deleting := Orphan)))
  {
    hide Transition;
    ClusterRuns.TransitionSays(a);
  }

  /** A pass for an agent that is to stop reports stopped exactly when there is nothing to suspend or the suspension is reported;
      otherwise it asks the sandbox to suspend. Nothing is deleted. */
  lemma StopsExactly(w: World, a: Agent, i: Inputs)
    requires w.agent == Some(a) && a.desired == WantStopped
    ensures
      var w' := Reconcile(w, i);
      var running := w.claim.Some? && w.claim.value.bound && w.sandbox.Some? && !w.sandbox.value.suspended;
      if running then
        && Reported(w', a, State.Stopping, SandboxStopping)
        && w' == w.(agent := w'.agent, sandbox := Some(w.sandbox.value.(suspendMode := true)))
      else Reported(w', a, Stopped, Unexplained) && w' == w.(agent := w'.agent)
  {
    hide Transition;
    ClusterRuns.TransitionSays(a);
  }

  /** A pass for an agent that is to be deleted frees a retained volume first, then deletes the claim with all it owns, and removes
      the record exactly when there is no claim. */
  lemma DeletesExactly(w: World, a: Agent, i: Inputs)
    requires w.agent == Some(a) && a.desired == WantDeleted
    ensures
      var w' := Reconcile(w, i);
      && w'.sandbox == w.sandbox && w'.pod == w.pod
      && w'.volume == (if a.retain && w.volume.Some? then Some(w.volume.value.(owned := false)) else w.volume)
      && (if w.claim.Some? then
            && Reported(w', a, State.Deleting, SandboxDeleting)
            && w'.claim == Some(w.claim.value.(deleting := Foreground))
          else w'.agent.None? && w'.claim.None?)
  {
    hide Transition;
    ClusterRuns.TransitionSays(a);
  }

  /** The sweep deletes exactly a claim whose agent is gone, with all it owns. */
  lemma SweepsExactly(w: World)
    ensures
      if w.agent.None? && w.claim.Some? then Sweep(w) == w.(claim := Some(w.claim.value.(deleting := Foreground)))
      else Sweep(w) == w
  {
  }

  /** An exhausted retry budget marks every agent as failed that is not to be deleted. */
  lemma GivesUpExactly(a: Agent)
    ensures
      if a.desired == WantDeleted then GiveUp(a) == a
      else Reported(World(Some(GiveUp(a)), None, None, None, None), a, Failed, RetriesExhausted)
  {
  }
}
