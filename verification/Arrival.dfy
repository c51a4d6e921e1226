/**
 When every schedule arrives: a pass that trusts a stale suspension is the only thing that can keep an agent from running at
 its current generation, and it can.
 */
module Arrival {
  import opened Prelude
  import opened Lifecycle
  import opened Reconciler
  import opened ClusterRuns
  import opened Convergence

  // ---------- a claim of the current generation is current ----------

  /** A claim never runs ahead of the agent, and one of the agent's generation is what the registry asks for. */
  predicate GenerationOk(w: World, reg: Registry) {
    Kept(w) && w.claim.Some? ==>
      && w.claim.value.generation <= w.agent.value.runtimeGeneration
      && (w.claim.value.generation == w.agent.value.runtimeGeneration ==> Current(w.claim.value, w.agent.value, reg))
  }

  lemma NextGenerationOk(w: World, s: Step, reg: Registry)
    requires GenerationOk(w, reg) && RecordOk(w) && Answers(w, s, reg) && Next(w, s).Some?
    ensures GenerationOk(Next(w, s).value, reg)
  {
    hide Reconcile, Handle;
    match s
    case Ask(r) => AskGenerationOk(w, r, reg);
    case Pass(i) => PassGenerationOk(w, i, reg);
    case _ =>
  }

  lemma AskGenerationOk(w: World, r: Request, reg: Registry)
    requires GenerationOk(w, reg) && RecordOk(w) && w.agent.Some?
    ensures GenerationOk(Put(w, Handle(w.agent.value, r)), reg)
  {
    HandleCoherent(w.agent.value, r);
    GenerationCountsChanges(w.agent.value, r);
  }

  lemma PassGenerationOk(w: World, i: Inputs, reg: Registry)
    requires GenerationOk(w, reg) && Answers(w, Pass(i), reg)
    ensures GenerationOk(Reconcile(w, i), reg)
  {
    hide Transition;
    if w.agent.Some? {
      TransitionSays(w.agent.value);
    }
  }

  /** On every orderly run of a new agent. */
  lemma {:induction false} GenerationIsKept(a: Agent, steps: seq<Step>, reg: Registry)
    requires Coherent(a) && AlwaysOrderly(Created(a), steps, reg) && Run(Created(a), steps).Some?
    ensures GenerationOk(Run(Created(a), steps).value, reg)
  {
    hide Next, Coherent, GenerationOk, Answers, TrustsStale, MidReplacement;
    if steps == [] {
      NewGenerationOk(a, reg);
    } else {
      var before := steps[..|steps| - 1];
      GenerationIsKept(a, before, reg);
      RecordStaysCoherent(Created(a), before);
      NextGenerationOk(Run(Created(a), before).value, steps[|steps| - 1], reg);
    }
  }

  lemma NewGenerationOk(a: Agent, reg: Registry)
    ensures GenerationOk(Created(a), reg)
  {
  }

  // ---------- every schedule ----------

  /** Whatever the schedule, the agent has arrived in the end. */
  ghost predicate AlwaysArrives(w: World, r: Resolution) {
    forall steps :: Productive(w, steps, r) && Quiet(Final(w, steps, r), r) ==> Arrived(Final(w, steps, r), r)
  }

  /** A schedule that comes to rest without having arrived. */
  ghost predicate Misses(w: World, r: Resolution, steps: seq<Step>) {
    Productive(w, steps, r) && Quiet(Final(w, steps, r), r) && !Arrived(Final(w, steps, r), r)
  }

  lemma MissesLater(w: World, s: Step, rest: seq<Step>, r: Resolution)
    requires Effective(w, s, r) && Misses(Next(w, s).value, r, rest)
    ensures Misses(w, r, [s] + rest)
  {
    hide Next, Quiet, Arrived;
    Prepend(w, s, rest, r);
  }

  /** A pod of an older generation that nothing has marked as failed. */
  predicate OldPod(w: World) {
    && w.agent.Some? && w.agent.value.desired == WantRunning
    && w.pod.Some? && w.pod.value.generation != w.agent.value.runtimeGeneration
    && !w.pod.value.failed && w.pod.value.bootstrapExit == 0
  }

  /** The new runtime is provisioned around the old pod. */
  predicate Adopted(w: World, r: Resolution) {
    && OldPod(w) && r.Resolved? && w.agent.value.status.state != Running
    && w.claim.Some? && Matches(w.claim.value, w.agent.value, r)
    && w.claim.value.deleting == Keep && w.claim.value.bound && !w.claim.value.failed
    && w.sandbox.Some? && !w.sandbox.value.suspendMode && !w.sandbox.value.suspended && w.sandbox.value.deleting == Keep
  }

  lemma ReportsOldPod(w: World, r: Resolution) returns (steps: seq<Step>)
    requires Adopted(w, r) && w.pod.value.ready && w.claim.value.ready
    ensures Misses(w, r, steps)
  {
    hide Transition;
    TransitionSays(w.agent.value);
    TransitionSettles(w.agent.value);
    var w1 := Next(w, Working(r)).value;
    assert Next(w1, Working(r)) == Some(w1);
    assert Productive(w1, [], r) && Quiet(w1, r);
    MissesLater(w, Working(r), [], r);
    steps := [Working(r)] + [];
  }

  lemma AdoptedMisses(w: World, r: Resolution) returns (steps: seq<Step>)
    requires Adopted(w, r)
    ensures Misses(w, r, steps)
    decreases PodRank(w) + ClaimRank(w.claim.value)
  {
    hide Misses, Reconcile;
    if !w.pod.value.ready {
      var rest := AdoptedMisses(Next(w, PodReady).value, r);
      MissesLater(w, PodReady, rest, r);
      steps := [PodReady] + rest;
    } else if !w.claim.value.ready {
      var rest := AdoptedMisses(Next(w, ClaimReady).value, r);
      MissesLater(w, ClaimReady, rest, r);
      steps := [ClaimReady] + rest;
    } else {
      steps := ReportsOldPod(w, r);
    }
  }

  /** Claim and sandbox are gone, the old pod is not. */
  lemma UnclaimedMisses(w: World, r: Resolution) returns (steps: seq<Step>)
    requires OldPod(w) && r.Resolved? && w.claim.None? && w.sandbox.None?
    ensures Misses(w, r, steps)
  {
    hide Misses, Transition;
    TransitionSays(w.agent.value);
    var w1 := Next(w, Working(r)).value;
    var w2 := Next(w1, SandboxProvisioned).value;
    var rest := AdoptedMisses(w2, r);
    MissesLater(w1, SandboxProvisioned, rest, r);
    MissesLater(w, Working(r), [SandboxProvisioned] + rest, r);
    steps := [Working(r)] + ([SandboxProvisioned] + rest);
  }

  /** The claim lets go of a sandbox that still has the old pod. */
  lemma ReleasedMisses(w: World, r: Resolution) returns (steps: seq<Step>)
    requires OldPod(w) && r.Resolved? && w.agent.value.status.state == Reconfiguring
    requires w.claim.Some? && w.claim.value.deleting == Orphan && w.sandbox.Some? && w.sandbox.value.deleting == Keep
    ensures Misses(w, r, steps)
  {
    hide Misses, Transition;
    TransitionSays(w.agent.value);
    var w1 := Next(w, ClaimReleased).value;
    var w2 := Next(w1, Working(r)).value;
    var w3 := Next(w2, SandboxRemoved).value;
    var rest := UnclaimedMisses(w3, r);
    MissesLater(w2, SandboxRemoved, rest, r);
    MissesLater(w1, Working(r), [SandboxRemoved] + rest, r);
    MissesLater(w, ClaimReleased, [Working(r)] + ([SandboxRemoved] + rest), r);
    steps := [ClaimReleased] + ([Working(r)] + ([SandboxRemoved] + rest));
  }

  /** A pass that trusts the stale condition, once the old pod has started. */
  lemma TrustingMisses(w: World, reg: Registry, r: Resolution) returns (steps: seq<Step>)
    requires ToRun(w, reg, r) && Misled(w, r) && GenerationOk(w, reg) && w.pod.Some?
    ensures Misses(w, r, steps)
  {
    hide Misses, Transition, Coherent;
    TransitionSays(w.agent.value);
    var rest := ReleasedMisses(Next(w, Working(r)).value, r);
    MissesLater(w, Working(r), rest, r);
    steps := [Working(r)] + rest;
  }

  lemma MisledMisses(w: World, reg: Registry, r: Resolution) returns (steps: seq<Step>)
    requires ToRun(w, reg, r) && Misled(w, r) && GenerationOk(w, reg)
    ensures Misses(w, r, steps)
  {
    hide Misses, Reconcile, Coherent;
    if w.pod.Some? {
      steps := TrustingMisses(w, reg, r);
    } else {
      ClusterOrderOk(w, PodStarts, reg);
      var rest := TrustingMisses(Next(w, PodStarts).value, reg, r);
      MissesLater(w, PodStarts, rest, r);
      steps := [PodStarts] + rest;
    }
  }

  /** In every ordered world where nothing failed, every schedule arrives if and only if no pass would be misled by a stale
      suspension of an outdated runtime. */
  lemma ArrivesExactly(w: World, reg: Registry, r: Resolution)
    requires ToRun(w, reg, r) && GenerationOk(w, reg)
    ensures AlwaysArrives(w, r) <==> !Misled(w, r)
  {
    hide ToRun, GenerationOk, Misled, Productive, Final, Quiet, Arrived;
    if Misled(w, r) {
      var steps := MisledMisses(w, reg, r);
    } else {
      forall steps | Productive(w, steps, r) && Quiet(Final(w, steps, r), r) ensures Arrived(Final(w, steps, r), r) {
        EveryScheduleConverges(w, steps, reg, r);
      }
    }
  }

  /** So after every orderly run of a new agent that is to run and reports no failure. */
  lemma OrderlyRunsArriveExactly(a: Agent, steps: seq<Step>, reg: Registry, w: World)
    requires Coherent(a) && AlwaysOrderly(Created(a), steps, reg) && Run(Created(a), steps) == Some(w)
    requires w.agent.Some? && w.agent.value.desired == WantRunning
    requires reg(w.agent.value.kind, w.agent.value.credential).Resolved?
    requires w.claim.Some? ==> !w.claim.value.failed
    requires w.pod.Some? ==> !w.pod.value.failed && w.pod.value.bootstrapExit == 0
    ensures
      var r := reg(w.agent.value.kind, w.agent.value.credential);
      AlwaysArrives(w, r) <==> !Misled(w, r)
  {
    hide Next, AlwaysArrives, Misled, AlwaysOrderly, OrderOk, Coherent, GenerationOk;
    NewIsOrdered(a, reg);
    OrderIsKept(Created(a), steps, reg);
    GenerationIsKept(a, steps, reg);
    ArrivesExactly(w, reg, reg(w.agent.value.kind, w.agent.value.credential));
  }

  // ---------- a claim beside a living sandbox ----------

  /** The claim of the current runtime waits for its sandbox while another sandbox has the name. */
  predicate Blocked(w: World, r: Resolution) {
    && w.agent.Some? && w.agent.value.desired == WantRunning && w.agent.value.status.state != Running && r.Resolved?
    && w.claim.Some? && Matches(w.claim.value, w.agent.value, r) && w.claim.value.deleting == Keep && !w.claim.value.bound
    && w.sandbox.Some? && w.sandbox.value.deleting == Keep
  }

  lemma BlockedStays(w: World, s: Step, r: Resolution)
    requires Blocked(w, r) && Effective(w, s, r)
    ensures Blocked(Next(w, s).value, r)
  {
    hide Transition;
    TransitionSays(w.agent.value);
  }

  /** Such an agent never runs, whatever passes and cluster do. */
  lemma {:induction false} BlockedForever(w: World, steps: seq<Step>, r: Resolution)
    requires Blocked(w, r) && Productive(w, steps, r)
    ensures Blocked(Final(w, steps, r), r) && !Arrived(Final(w, steps, r), r)
    decreases |steps|
  {
    hide Next, Cooperative;
    if steps == [] {
    } else {
      BlockedStays(w, steps[0], r);
      BlockedForever(Next(w, steps[0]).value, steps[1..], r);
    }
  }
}
