/**
 Requests, reconcile passes and the cluster itself, interleaved in any order: the record stays coherent, a replacement
 runtime is claimed only after the old one is drained and gone, and the workspace volume survives.
 */
module ClusterRuns {
  import opened Prelude
  import opened Lifecycle
  import opened Reconciler

  datatype Step =
    | Ask(request: Request)
    | Pass(inputs: Inputs)
    | Exhaust
    | SweepOrphans
    | ClaimReleased        // orphan deletion of the claim completes
    | ClaimCollected       // foreground deletion of the claim makes progress
    | SandboxRemoved       // deletion of the sandbox completes
    | SandboxProvisioned   // the claim gets a sandbox, which creates or adopts the volume
    | Suspends
    | Unsuspends
    | PodStarts
    | PodReady
    | PodFails(exitCode: int)
    | ClaimReady
    | ClaimUnready
    | ClaimFails
    | ReAdopts             // somebody puts the owner reference back on the volume

  /** Deletion rules: foreground deletion takes the dependents that still refer to their owner, orphan deletion
      leaves them and removes the reference. */
  function Cluster(w: World, s: Step): Option<World> {
    match s
    case ClaimReleased =>
      if w.claim.Some? && w.claim.value.deleting == Orphan then
        Some(w.(claim := None, sandbox := if w.sandbox.Some? then Some(w.sandbox.value.(owned := false)) else None))
      else None
    case ClaimCollected =>
      if w.claim.Some? && w.claim.value.deleting == Foreground then
        if w.sandbox.Some? && w.sandbox.value.owned
        then Some(w.(sandbox := Some(w.sandbox.value.(deleting := Foreground))))
        else Some(w.(claim := None))
      else None
    case SandboxRemoved =>
      if w.sandbox.Some? && w.sandbox.value.deleting == Orphan then
        Some(w.(sandbox := None, volume := if w.volume.Some? then Some(Volume(false)) else None))
      else if w.sandbox.Some? && w.sandbox.value.deleting == Foreground then
        Some(w.(sandbox := None, pod := None, volume := if w.volume.Some? && w.volume.value.owned then None else w.volume))
      else None
    case SandboxProvisioned =>
      if w.claim.Some? && w.claim.value.deleting == Keep && w.sandbox.None? then
        Some(w.(claim := Some(w.claim.value.(bound := true)),
                sandbox := Some(Sandbox(w.claim.value.generation, false, false, Keep, true)),
                volume := Some(Volume(true))))
      else None
    case Suspends =>
      if w.sandbox.Some? && w.sandbox.value.suspendMode && !w.sandbox.value.suspended then
        Some(w.(sandbox := Some(w.sandbox.value.(suspended := true)), pod := None))
      else None
    case Unsuspends =>
      if w.sandbox.Some? && !w.sandbox.value.suspendMode && w.sandbox.value.suspended then
        Some(w.(sandbox := Some(w.sandbox.value.(suspended := false))))
      else None
    case PodStarts =>
      if w.sandbox.Some? && !w.sandbox.value.suspendMode && w.sandbox.value.deleting == Keep && w.pod.None? then
        Some(w.(pod := Some(Pod(w.sandbox.value.generation, false, false, 0))))
      else None
    case PodReady => if w.pod.Some? then Some(w.(pod := Some(w.pod.value.(ready := true)))) else None
    case PodFails(exitCode) =>
      if w.pod.Some? then Some(w.(pod := Some(w.pod.value.(ready := false, failed := true, bootstrapExit := exitCode)))) else None
    case ClaimReady => if w.claim.Some? then Some(w.(claim := Some(w.claim.value.(ready := true)))) else None
    case ClaimUnready => if w.claim.Some? then Some(w.(claim := Some(w.claim.value.(ready := false)))) else None
    case ClaimFails => if w.claim.Some? then Some(w.(claim := Some(w.claim.value.(failed := true)))) else None
    case ReAdopts =>
      if w.sandbox.Some? && w.volume.Some? then Some(w.(volume := Some(Volume(true)))) else None
    case _ => None
  }

  function Next(w: World, s: Step): Option<World> {
    match s
    case Ask(r) => if w.agent.Some? then Some(Put(w, Handle(w.agent.value, r))) else None
    case Pass(i) => Some(Reconcile(w, i))
    case Exhaust => if w.agent.Some? then Some(Put(w, GiveUp(w.agent.value))) else None
    case SweepOrphans => Some(Sweep(w))
    case _ => Cluster(w, s)
  }

  ghost function Run(w: World, steps: seq<Step>): Option<World> {
    if steps == [] then Some(w)
    else
      var before := Run(w, steps[..|steps| - 1]);
      if before.Some? then Next(before.value, steps[|steps| - 1]) else None
  }

  function Created(a: Agent): World { World(Some(a), None, None, None, None) }

  // ---------- the record ----------

  predicate RecordOk(w: World) { w.agent.Some? ==> Coherent(w.agent.value) }

  lemma NextRecordOk(w: World, s: Step)
    requires RecordOk(w) && Next(w, s).Some?
    ensures RecordOk(Next(w, s).value)
    ensures w.agent.None? ==> Next(w, s).value.agent.None?
    ensures w.agent.Some? && w.agent.value.desired == WantDeleted && Next(w, s).value.agent.Some? ==>
      Next(w, s).value.agent.value.desired == WantDeleted
    ensures w.agent.Some? && Next(w, s).value.agent.Some? ==>
      && w.agent.value.runtimeGeneration <= Next(w, s).value.agent.value.runtimeGeneration
      && Next(w, s).value.agent.value.retain == w.agent.value.retain
  {
    hide Reconcile, Handle, Coherent, Cluster;
    match s
    case Ask(r) =>
      HandleCoherent(w.agent.value, r);
      GenerationCountsChanges(w.agent.value, r);
    case Pass(i) =>
      if w.agent.Some? {
        ReconcileCoherent(w, i);
      } else {
        PassWithoutAgent(w, i);
      }
    case Exhaust => GiveUpCoherent(w.agent.value);
    case SweepOrphans =>
    case _ => ClusterKeepsAgent(w, s);
  }

  lemma PassWithoutAgent(w: World, i: Inputs)
    requires w.agent.None?
    ensures Reconcile(w, i) == w
  {
  }

  lemma GiveUpCoherent(a: Agent)
    requires Coherent(a)
    ensures Coherent(GiveUp(a))
  {
  }

  lemma ClusterKeepsAgent(w: World, s: Step)
    requires Cluster(w, s).Some?
    ensures Cluster(w, s).value.agent == w.agent
  {
  }

  /** Over all requests, passes and cluster events the record stays coherent, a deletion is never undone, and the
      runtime generation never goes back. */
  lemma {:induction false} RecordStaysCoherent(w: World, steps: seq<Step>)
    requires RecordOk(w) && Run(w, steps).Some?
    ensures
      var w' := Run(w, steps).value;
      && RecordOk(w')
      && (w.agent.None? ==> w'.agent.None?)
      && (w.agent.Some? && w.agent.value.desired == WantDeleted && w'.agent.Some? ==> w'.agent.value.desired == WantDeleted)
      && (w.agent.Some? && w'.agent.Some? ==>
            w.agent.value.runtimeGeneration <= w'.agent.value.runtimeGeneration && w'.agent.value.retain == w.agent.value.retain)
  {
    hide Next, Coherent;
    if steps == [] {
    } else {
      RecordStaysCoherent(w, steps[..|steps| - 1]);
      NextRecordOk(Run(w, steps[..|steps| - 1]).value, steps[|steps| - 1]);
    }
  }

  // ---------- the order of a replacement ----------

  /** Asked to suspend and reported suspended. */
  predicate Drained(x: Sandbox) { x.suspendMode && x.suspended }

  predicate Kept(w: World) { w.agent.Some? && w.agent.value.desired != WantDeleted }

  /** The claim has let go, or is letting go, of a sandbox that may still exist. */
  predicate MidReplacement(w: World) {
    || (w.claim.None? && w.sandbox.Some?)
    || (w.claim.Some? && w.claim.value.deleting == Orphan)
  }

  /** The registry and the approved profiles, as they stand during a run. */
  type Registry = (Name, Option<Name>) -> Resolution

  predicate Current(c: Claim, a: Agent, reg: Registry) {
    reg(a.kind, a.credential).Resolved? && Matches(c, a, reg(a.kind, a.credential))
  }

  /** While an agent is kept, only a claim that is not current is let go, only when its sandbox is drained, and the
      status says reconfiguring until that sandbox is gone. */
  predicate OrderOk(w: World, reg: Registry) {
    Kept(w) ==>
      && (w.sandbox.None? ==> w.pod.None?)
      && (w.sandbox.Some? && Drained(w.sandbox.value) ==> w.pod.None?)
      && (w.pod.Some? ==> w.pod.value.generation == w.sandbox.value.generation)
      && (w.claim.Some? && w.sandbox.Some? ==> w.claim.value.bound && w.claim.value.generation == w.sandbox.value.generation)
      && (w.claim.Some? ==> w.claim.value.deleting != Foreground)
      && (w.sandbox.Some? ==> w.sandbox.value.deleting != Foreground)
      && (w.sandbox.Some? && w.sandbox.value.deleting == Orphan ==> w.claim.None?)
      && (MidReplacement(w) ==>
            && w.agent.value.status.state == Reconfiguring
            && w.agent.value.desired == WantRunning
            && (w.claim.Some? ==> !Current(w.claim.value, w.agent.value, reg))
            && (w.sandbox.Some? ==> Drained(w.sandbox.value)))
  }

  /** The cluster still reports the suspension of a sandbox that has been asked to run again. */
  predicate Stale(w: World) { w.sandbox.Some? && w.sandbox.value.suspended && !w.sandbox.value.suspendMode }

  /** The pass would replace the runtime. */
  predicate Replaces(w: World, i: Inputs) {
    && w.agent.Some? && w.agent.value.desired == WantRunning
    && !(w.agent.value.status.state in {Requested, Provisioning, Starting} && i.timedOut)
    && i.resolution.Resolved? && i.secretApproved && i.storageApproved
    && w.claim.Some? && !Matches(w.claim.value, w.agent.value, i.resolution)
  }

  /** The registry and the approved profiles answer and do not change. */
  predicate Answers(w: World, s: Step, reg: Registry) {
    s.Pass? ==>
      && (w.agent.Some? ==> s.inputs.resolution == reg(w.agent.value.kind, w.agent.value.credential))
      && s.inputs.resolution.Resolved? && s.inputs.secretApproved && s.inputs.storageApproved
  }

  /** The pass is about to release a claim on the word of a stale condition. */
  predicate TrustsStale(w: World, i: Inputs) {
    Replaces(w, i) && Stale(w) && w.claim.value.deleting == Keep
  }

  /** What the order needs besides: no pass trusts a stale condition, and the retry budget does not run out in the middle
      of a replacement. */
  predicate Orderly(w: World, s: Step, reg: Registry) {
    && Answers(w, s, reg)
    && (s.Pass? ==> !TrustsStale(w, s.inputs))
    && (s.Exhaust? ==> !(Kept(w) && MidReplacement(w)))
  }

  lemma PassOrderOk(w: World, i: Inputs, reg: Registry)
    requires OrderOk(w, reg) && RecordOk(w) && Orderly(w, Pass(i), reg)
    ensures OrderOk(Reconcile(w, i), reg)
  {
    hide Transition;
    if w.agent.Some? {
      var a := w.agent.value;
      TransitionSays(a);
      match a.desired
      case WantDeleted =>
      case WantStopped =>
      case WantRunning => RunningOrderOk(w, i, reg);
    }
  }

  lemma TransitionSays(a: Agent)
    ensures forall state, why, runtime ::
      var b := Transition(a, state, why, runtime);
      b.status.state == state && b.status.why == why && b.status.observed == a.generation && b == a.(status := b.status)
  {
  }

  lemma RunningOrderOk(w: World, i: Inputs, reg: Registry)
    requires OrderOk(w, reg) && RecordOk(w) && Orderly(w, Pass(i), reg)
    requires w.agent.Some? && w.agent.value.desired == WantRunning
    ensures OrderOk(ReconcileRunning(w, w.agent.value, i), reg)
  {
    hide Transition;
    TransitionSays(w.agent.value);
  }

  lemma AskOrderOk(w: World, r: Request, reg: Registry)
    requires OrderOk(w, reg) && RecordOk(w) && w.agent.Some?
    ensures OrderOk(Put(w, Handle(w.agent.value, r)), reg)
  {
    HandleCoherent(w.agent.value, r);
  }

  lemma ClusterOrderOk(w: World, s: Step, reg: Registry)
    requires OrderOk(w, reg) && RecordOk(w) && Cluster(w, s).Some?
    ensures OrderOk(Cluster(w, s).value, reg)
  {
    hide Coherent;
  }

  /** A pass keeps the order exactly when it does not trust a stale condition. */
  lemma PassKeepsOrderExactly(w: World, i: Inputs, reg: Registry)
    requires OrderOk(w, reg) && RecordOk(w) && Answers(w, Pass(i), reg)
    ensures OrderOk(Reconcile(w, i), reg) <==> !TrustsStale(w, i)
  {
    if TrustsStale(w, i) {
      hide Transition;
      TransitionSays(w.agent.value);
    } else {
      PassOrderOk(w, i, reg);
    }
  }

  /** An exhausted retry budget keeps the order of a kept agent exactly when no replacement is under way. */
  lemma ExhaustKeepsOrderExactly(w: World, reg: Registry)
    requires OrderOk(w, reg) && Kept(w)
    ensures OrderOk(Put(w, GiveUp(w.agent.value)), reg) <==> !MidReplacement(w)
  {
  }

  /** Under a fixed registry that answers, a step of any kind keeps the order if and only if it is orderly. */
  lemma OrderKeptExactly(w: World, s: Step, reg: Registry)
    requires OrderOk(w, reg) && RecordOk(w) && Answers(w, s, reg) && Next(w, s).Some?
    ensures OrderOk(Next(w, s).value, reg) <==> Orderly(w, s, reg)
  {
    hide Reconcile, Handle, Cluster, GiveUp, OrderOk, MidReplacement, TrustsStale;
    match s
    case Ask(r) => AskOrderOk(w, r, reg);
    case Pass(i) => PassKeepsOrderExactly(w, i, reg);
    case Exhaust =>
      if Kept(w) {
        ExhaustKeepsOrderExactly(w, reg);
      } else {
        ExhaustDeleted(w, reg);
      }
    case SweepOrphans => SweepOrderOk(w, reg);
    case _ => ClusterOrderOk(w, s, reg);
  }

  lemma ExhaustDeleted(w: World, reg: Registry)
    requires w.agent.Some? && !Kept(w)
    ensures OrderOk(Put(w, GiveUp(w.agent.value)), reg)
  {
  }

  lemma SweepOrderOk(w: World, reg: Registry)
    requires OrderOk(w, reg)
    ensures OrderOk(Sweep(w), reg)
  {
  }

  ghost predicate AlwaysOrderly(w: World, steps: seq<Step>, reg: Registry) {
    steps == [] ||
    (var before := Run(w, steps[..|steps| - 1]);
     AlwaysOrderly(w, steps[..|steps| - 1], reg) && (before.Some? ==> Orderly(before.value, steps[|steps| - 1], reg)))
  }

  lemma {:induction false} OrderIsKept(w: World, steps: seq<Step>, reg: Registry)
    requires OrderOk(w, reg) && RecordOk(w) && AlwaysOrderly(w, steps, reg) && Run(w, steps).Some?
    ensures OrderOk(Run(w, steps).value, reg) && RecordOk(Run(w, steps).value)
  {
    hide Next, OrderOk, RecordOk, Answers, TrustsStale, MidReplacement;
    if steps == [] {
    } else {
      var before := steps[..|steps| - 1];
      OrderIsKept(w, before, reg);
      OrderKeptExactly(Run(w, before).value, steps[|steps| - 1], reg);
      NextRecordOk(Run(w, before).value, steps[|steps| - 1]);
    }
  }

  /** On every orderly run from a new agent, the claim of a runtime is created only when no sandbox and no pod exists,
      the sandbox of a kept agent leaves only after it was drained and its claim is gone, and a pass reports running
      only for a pod of the current runtime generation. */
  lemma ReplacementIsOrdered(a: Agent, steps: seq<Step>, reg: Registry)
    requires Coherent(a) && AlwaysOrderly(Created(a), steps, reg) && Run(Created(a), steps).Some?
    ensures
      var w := Run(Created(a), steps).value;
      && (forall i :: w.claim.None? && Reconcile(w, i).claim.Some? ==> w.sandbox.None? && w.pod.None?)
      && (Kept(w) && Cluster(w, SandboxRemoved).Some? ==> w.claim.None? && Drained(w.sandbox.value) && w.pod.None?)
      && (forall i :: Orderly(w, Pass(i), reg) && Reports(w, i) ==>
            w.pod.Some? && w.pod.value.ready && w.pod.value.generation == w.agent.value.runtimeGeneration)
  {
    hide Next, Reconcile, Orderly, Coherent, AlwaysOrderly;
    OrderIsKept(Created(a), steps, reg);
    var w := Run(Created(a), steps).value;
    forall i | w.claim.None? && Reconcile(w, i).claim.Some? ensures w.sandbox.None? && w.pod.None? {
      ClaimOnlyAfterDrain(w, i, reg);
    }
    forall i | Orderly(w, Pass(i), reg) && Reports(w, i)
      ensures w.pod.Some? && w.pod.value.ready && w.pod.value.generation == w.agent.value.runtimeGeneration
    {
      ReportsCurrentPod(w, i, reg);
    }
  }

  /** A pass that leaves the agent running. */
  predicate Reports(w: World, i: Inputs) {
    && w.agent.Some? && w.agent.value.desired == WantRunning
    && Reconcile(w, i).agent.Some? && Reconcile(w, i).agent.value.status.state == Running
  }

  lemma ReportsCurrentPod(w: World, i: Inputs, reg: Registry)
    requires OrderOk(w, reg) && Orderly(w, Pass(i), reg) && Reports(w, i)
    ensures w.pod.Some? && w.pod.value.ready && w.pod.value.generation == w.agent.value.runtimeGeneration
  {
    hide Transition;
    TransitionSays(w.agent.value);
  }

  lemma ClaimOnlyAfterDrain(w: World, i: Inputs, reg: Registry)
    requires OrderOk(w, reg) && w.claim.None? && Reconcile(w, i).claim.Some?
    ensures w.sandbox.None? && w.pod.None?
  {
    hide Transition;
  }

  // ---------- the workspace volume ----------

  /** Foreground deletion has begun. */
  predicate Foregrounded(w: World) {
    || (w.claim.Some? && w.claim.value.deleting == Foreground)
    || (w.sandbox.Some? && w.sandbox.value.deleting == Foreground)
  }

  /** Nothing of a kept agent is deleted in the foreground, and of a retained workspace only what does not own it. */
  predicate VolumeOk(w: World, retain: bool) {
    && (w.agent.Some? ==> w.agent.value.retain == retain)
    && (Kept(w) ==> !Foregrounded(w))
    && (retain && Foregrounded(w) ==> w.volume.None? || !w.volume.value.owned)
    && (w.agent.None? ==> w.claim.None?)
  }

  /** Nobody puts the owner reference back once foreground deletion has begun. */
  predicate Undisturbed(w: World, s: Step) { s.ReAdopts? ==> !Foregrounded(w) }

  lemma PassVolumeOk(w: World, i: Inputs, retain: bool)
    requires VolumeOk(w, retain)
    ensures VolumeOk(Reconcile(w, i), retain)
    ensures w.volume.Some? ==> Reconcile(w, i).volume.Some?
  {
    hide ReconcileRunning, Transition;
    if w.agent.Some? {
      TransitionSays(w.agent.value);
      if w.agent.value.desired == WantRunning {
        RunningVolume(w, w.agent.value, i);
      }
    }
  }

  lemma RunningVolume(w: World, a: Agent, i: Inputs)
    requires w.agent == Some(a)
    ensures
      var w' := ReconcileRunning(w, a, i);
      && w'.volume == w.volume && w'.agent.Some? && w'.agent.value == a.(status := w'.agent.value.status)
      && (w.claim.None? ==> w'.claim.None? || w'.claim.value.deleting != Foreground)
      && (w.claim.Some? ==> w'.claim.Some? && (w'.claim.value.deleting == Foreground ==> w.claim.value.deleting == Foreground))
      && (w'.sandbox.Some? ==>
            w.sandbox.Some? && (w'.sandbox.value.deleting == Foreground ==> w.sandbox.value.deleting == Foreground))
  {
    hide Transition;
    TransitionSays(a);
  }

  lemma NextVolumeOk(w: World, s: Step, retain: bool)
    requires VolumeOk(w, retain) && RecordOk(w) && Next(w, s).Some? && (retain ==> Undisturbed(w, s))
    ensures VolumeOk(Next(w, s).value, retain)
    ensures w.volume.Some? && (Kept(w) || retain) ==> Next(w, s).value.volume.Some?
  {
    hide Reconcile, Handle, Coherent;
    match s
    case Ask(r) => HandleCoherent(w.agent.value, r);
    case Pass(i) => PassVolumeOk(w, i, retain);
    case Exhaust =>
    case _ =>
  }

  ghost predicate AlwaysUndisturbed(w: World, steps: seq<Step>) {
    steps == [] ||
    (var before := Run(w, steps[..|steps| - 1]);
     AlwaysUndisturbed(w, steps[..|steps| - 1]) && (before.Some? ==> Undisturbed(before.value, steps[|steps| - 1])))
  }

  /** No pass, replacement, sweep or cluster event removes the workspace volume while the agent exists and is not to be
      deleted; a retained volume also survives the deletion unless somebody puts its owner reference back. */
  lemma {:induction false} WorkspaceSurvives(w: World, steps: seq<Step>, retain: bool)
    requires VolumeOk(w, retain) && RecordOk(w) && Run(w, steps).Some? && (retain ==> AlwaysUndisturbed(w, steps))
    ensures
      var w' := Run(w, steps).value;
      && VolumeOk(w', retain) && RecordOk(w')
      && (w.volume.Some? && (Kept(w') || retain) ==> w'.volume.Some?)
  {
    hide Next, VolumeOk, Undisturbed, Coherent;
    if steps == [] {
    } else {
      var before := steps[..|steps| - 1];
      WorkspaceSurvives(w, before, retain);
      var m := Run(w, before).value;
      NextVolumeOk(m, steps[|steps| - 1], retain);
      NextRecordOk(m, steps[|steps| - 1]);
    }
  }
}
