/**
 A replacement converges: whatever order the passes and a cooperative cluster take their effective steps in, a rank
 strictly decreases, and where no effective step is left the agent runs at its current generation.
 */
module Convergence {
  import opened Prelude
  import opened Lifecycle
  import opened Reconciler
  import opened ClusterRuns

  /** A pass of a control plane whose registry answers and whose clock has not run out. */
  function Working(r: Resolution): Step { Pass(Inputs(false, r, true, true)) }

  /** What a cooperative cluster does: it finishes deletions, provisions, follows the operating mode, and gets ready. */
  predicate Cooperative(s: Step) {
    s.ClaimReleased? || s.ClaimCollected? || s.SandboxRemoved? || s.SandboxProvisioned? || s.Suspends? || s.Unsuspends? ||
    s.PodStarts? || s.PodReady? || s.ClaimReady?
  }

  /** A step that changes something. */
  predicate Effective(w: World, s: Step, r: Resolution) {
    (Cooperative(s) || s == Working(r)) && Next(w, s).Some? && Next(w, s).value != w
  }

  predicate Mismatched(w: World, r: Resolution) {
    w.claim.Some? && w.agent.Some? && r.Resolved? && !Matches(w.claim.value, w.agent.value, r)
  }

  /** An agent that is to run, in an ordered cluster where nothing failed. */
  predicate ToRun(w: World, reg: Registry, r: Resolution) {
    && w.agent.Some? && w.agent.value.desired == WantRunning
    && r.Resolved? && r == reg(w.agent.value.kind, w.agent.value.credential)
    && RecordOk(w) && OrderOk(w, reg)
    && (w.claim.Some? ==> !w.claim.value.failed)
    && (w.pod.Some? ==> !w.pod.value.failed && w.pod.value.bootstrapExit == 0)
  }

  /** An outdated runtime whose suspension is reported and no longer asked for: a pass would trust the report. */
  predicate Misled(w: World, r: Resolution) { Mismatched(w, r) && Stale(w) }

  predicate Healthy(w: World, reg: Registry, r: Resolution) { ToRun(w, reg, r) && !Misled(w, r) }

  function PodRank(w: World): nat { if w.pod.None? then 2 else if w.pod.value.ready then 0 else 1 }

  function ClaimRank(c: Claim): nat { if c.ready then 0 else 1 }

  function CurrentRank(w: World): nat
    requires w.claim.Some?
  {
    ClaimRank(w.claim.value) + PodRank(w) +
    if w.sandbox.None? then 1
    else match (w.sandbox.value.suspendMode, w.sandbox.value.suspended)
      case (true, false) => 5
      case (true, true) => 2
      case (false, true) => 1
      case (false, false) => 0
  }

  function OutdatedRank(w: World): nat
    requires w.claim.Some?
  {
    ClaimRank(w.claim.value) +
    if w.claim.value.deleting != Keep then 12
    else if w.sandbox.None? then 19
    else if Drained(w.sandbox.value) then 14
    else if w.sandbox.value.suspendMode then 15 + PodRank(w)
    else if !w.sandbox.value.suspended then 16 + PodRank(w)
    else 17 + PodRank(w)
  }

  function UnclaimedRank(w: World): nat {
    if w.sandbox.None? then 9 else if w.sandbox.value.deleting == Orphan then 10 else 11
  }

  /** How far the cluster is from the runtime the agent asks for. */
  function Phase(w: World, r: Resolution): nat {
    if w.claim.None? then UnclaimedRank(w)
    else if Mismatched(w, r) then OutdatedRank(w)
    else CurrentRank(w)
  }

  function Rank(w: World, r: Resolution): nat {
    2 * Phase(w, r) + if Next(w, Working(r)) == Some(w) then 0 else 1
  }

  /** The same cluster and record, but for the status. */
  predicate SameBut(w: World, w': World) {
    && w.agent.Some? && w'.agent.Some? && w'.agent.value == w.agent.value.(status := w'.agent.value.status)
    && w' == w.(agent := w'.agent)
  }

  /** The effective steps of the cluster bring it closer. */
  lemma ClusterCloser(w: World, s: Step, reg: Registry, r: Resolution)
    requires Healthy(w, reg, r) && Cooperative(s) && Effective(w, s, r)
    ensures Healthy(Next(w, s).value, reg, r)
    ensures Phase(Next(w, s).value, r) < Phase(w, r)
  {
    hide Reconcile, Coherent;
    ClusterOrderOk(w, s, reg);
    ClusterKeepsAgent(w, s);
  }

  /** A pass brings the cluster closer or only writes the status. */
  lemma PassCloser(w: World, reg: Registry, r: Resolution)
    requires Healthy(w, reg, r)
    ensures
      var w' := Next(w, Working(r)).value;
      && Healthy(w', reg, r)
      && (if SameBut(w, w') then Phase(w', r) == Phase(w, r) else Phase(w', r) < Phase(w, r))
  {
    PassOrderOk(w, Inputs(false, r, true, true), reg);
    ReconcileCoherent(w, Inputs(false, r, true, true));
    hide OrderOk, Coherent, Transition;
    TransitionSays(w.agent.value);
  }

  /** A pass that only writes the status has nothing left to write. */
  lemma PassSettles(w: World, reg: Registry, r: Resolution)
    requires Healthy(w, reg, r) && SameBut(w, Next(w, Working(r)).value)
    ensures
      var w' := Next(w, Working(r)).value;
      Next(w', Working(r)) == Some(w')
  {
    hide OrderOk, Coherent, Transition;
    TransitionSays(w.agent.value);
    TransitionSettles(w.agent.value);
    if w.claim.None? {
      UnclaimedIsReconfiguring(w, reg, r);
    }
  }

  lemma UnclaimedIsReconfiguring(w: World, reg: Registry, r: Resolution)
    requires Healthy(w, reg, r) && SameBut(w, Next(w, Working(r)).value) && w.claim.None?
    ensures w.sandbox.Some? && w.agent.value.status.state == Reconfiguring
  {
  }

  lemma TransitionSettles(a: Agent)
    ensures forall state, why, runtime, again ::
      var b := Transition(a, state, why, runtime);
      Transition(b, state, why, again) == b
  {
  }

  /** Every effective step, of the control plane or of the cluster, lowers the rank. */
  lemma RankDecreases(w: World, s: Step, reg: Registry, r: Resolution)
    requires Healthy(w, reg, r) && Effective(w, s, r)
    ensures Healthy(Next(w, s).value, reg, r) && Rank(Next(w, s).value, r) < Rank(w, r)
  {
    hide Next, Phase, Healthy, SameBut;
    if Cooperative(s) {
      ClusterCloser(w, s, reg, r);
    } else {
      PassCloser(w, reg, r);
      if SameBut(w, Next(w, s).value) {
        PassSettles(w, reg, r);
      }
    }
  }

  /** Nothing has an effect any more. */
  ghost predicate Quiet(w: World, r: Resolution) { forall s :: !Effective(w, s, r) }

  /** The agent is reported running at its current generation and kind, and a ready pod of that generation is why. */
  predicate Arrived(w: World, r: Resolution) {
    && w.agent.Some? && r.Resolved?
    && w.agent.value.status.state == Running && w.agent.value.status.observed == w.agent.value.generation
    && w.agent.value.status.why == Unexplained
    && w.agent.value.status.runtime.Some? && w.agent.value.status.runtime.value.generation == w.agent.value.runtimeGeneration
    && w.agent.value.status.runtime.value.kind == w.agent.value.kind
    && w.claim.Some? && Matches(w.claim.value, w.agent.value, r) && w.claim.value.deleting == Keep
    && w.claim.value.bound && w.claim.value.ready
    && w.sandbox.Some? && !w.sandbox.value.suspendMode
    && w.pod.Some? && w.pod.value.ready && w.pod.value.generation == w.agent.value.runtimeGeneration
  }

  /** Where no step has an effect, the agent has arrived. */
  lemma QuietIsArrived(w: World, reg: Registry, r: Resolution)
    requires Healthy(w, reg, r) && Quiet(w, r)
    ensures Arrived(w, r)
  {
    hide Transition;
    TransitionSays(w.agent.value);
    assert !Effective(w, Working(r), r);
    assert !Effective(w, ClaimReleased, r);
    assert !Effective(w, SandboxRemoved, r);
    assert !Effective(w, SandboxProvisioned, r);
    assert !Effective(w, Suspends, r);
    assert !Effective(w, PodStarts, r);
    assert !Effective(w, PodReady, r);
    assert !Effective(w, ClaimReady, r);
  }

  /** Having arrived, the agent stays there. */
  lemma ArrivedStays(w: World, s: Step, reg: Registry, r: Resolution)
    requires Healthy(w, reg, r) && Arrived(w, r) && (Cooperative(s) || s == Working(r)) && Next(w, s).Some?
    ensures Arrived(Next(w, s).value, r)
  {
  }

  /** A run of effective steps. */
  ghost predicate Productive(w: World, steps: seq<Step>, r: Resolution)
    decreases |steps|
  {
    steps == [] || (Effective(w, steps[0], r) && Productive(Next(w, steps[0]).value, steps[1..], r))
  }

  ghost function Final(w: World, steps: seq<Step>, r: Resolution): World
    requires Productive(w, steps, r)
    decreases |steps|
  {
    if steps == [] then w else Final(Next(w, steps[0]).value, steps[1..], r)
  }

  /** No schedule goes on for ever, and one that cannot go on has arrived: passes and cluster steps may come in any
      order, and at most Rank(w) of them have an effect. */
  lemma {:induction false} EveryScheduleConverges(w: World, steps: seq<Step>, reg: Registry, r: Resolution)
    requires Healthy(w, reg, r) && Productive(w, steps, r)
    ensures |steps| + Rank(Final(w, steps, r), r) <= Rank(w, r)
    ensures Healthy(Final(w, steps, r), reg, r)
    ensures Quiet(Final(w, steps, r), r) ==> Arrived(Final(w, steps, r), r)
    decreases |steps|
  {
    hide Rank, Healthy, Cooperative, Arrived, Next;
    if steps == [] {
      if Quiet(w, r) {
        QuietIsArrived(w, reg, r);
      }
    } else {
      RankDecreases(w, steps[0], reg, r);
      EveryScheduleConverges(Next(w, steps[0]).value, steps[1..], reg, r);
    }
  }

  /** From every healthy world, drained or not, there is a schedule that arrives, within the rank. */
  lemma {:induction false} Converges(w: World, reg: Registry, r: Resolution) returns (steps: seq<Step>)
    requires Healthy(w, reg, r)
    ensures Productive(w, steps, r) && |steps| <= Rank(w, r) && Arrived(Final(w, steps, r), r)
    decreases Rank(w, r)
  {
    hide Rank, Healthy, Cooperative, Arrived, Next;
    if s :| Effective(w, s, r) {
      RankDecreases(w, s, reg, r);
      var rest := Converges(Next(w, s).value, reg, r);
      steps := [s] + rest;
      assert steps[1..] == rest;
    } else {
      QuietIsArrived(w, reg, r);
      steps := [];
    }
  }

  lemma Prepend(w: World, s: Step, rest: seq<Step>, r: Resolution)
    requires Effective(w, s, r) && Productive(Next(w, s).value, rest, r)
    ensures Productive(w, [s] + rest, r) && Final(w, [s] + rest, r) == Final(Next(w, s).value, rest, r)
  {
    hide Next;
    assert ([s] + rest)[1..] == rest;
  }

  /** Where a pass would be misled, the cluster can clear the stale condition first. */
  lemma ClearsStale(w: World, reg: Registry, r: Resolution)
    requires ToRun(w, reg, r) && Misled(w, r)
    ensures Effective(w, Unsuspends, r)
    ensures Healthy(Next(w, Unsuspends).value, reg, r) && Rank(Next(w, Unsuspends).value, r) < Rank(w, r)
  {
    hide Reconcile, Coherent;
    ClusterOrderOk(w, Unsuspends, reg);
    assert Phase(Next(w, Unsuspends).value, r) < Phase(w, r);
  }

  /** From every world where nothing failed, misleading or not, some schedule arrives within the rank. */
  lemma SomeScheduleArrives(w: World, reg: Registry, r: Resolution) returns (steps: seq<Step>)
    requires ToRun(w, reg, r)
    ensures Productive(w, steps, r) && |steps| <= Rank(w, r) && Arrived(Final(w, steps, r), r)
  {
    hide ToRun, Misled, Rank, Next, Cooperative, Productive, Final, Arrived;
    if Misled(w, r) {
      ClearsStale(w, reg, r);
      var rest := Converges(Next(w, Unsuspends).value, reg, r);
      Prepend(w, Unsuspends, rest, r);
      steps := [Unsuspends] + rest;
    } else {
      steps := Converges(w, reg, r);
    }
  }

  /** Whatever an orderly run did to an agent that is to run, in a cluster that reports no failure it can still arrive. */
  lemma OrderlyRunsConverge(a: Agent, steps: seq<Step>, reg: Registry, w: World) returns (rest: seq<Step>)
    requires Coherent(a) && AlwaysOrderly(Created(a), steps, reg) && Run(Created(a), steps) == Some(w)
    requires w.agent.Some? && w.agent.value.desired == WantRunning
    requires reg(w.agent.value.kind, w.agent.value.credential).Resolved?
    requires w.claim.Some? ==> !w.claim.value.failed
    requires w.pod.Some? ==> !w.pod.value.failed && w.pod.value.bootstrapExit == 0
    ensures
      var r := reg(w.agent.value.kind, w.agent.value.credential);
      Productive(w, rest, r) && |rest| <= Rank(w, r) && Arrived(Final(w, rest, r), r)
  {
    hide Next, Arrived, Productive, Rank, AlwaysOrderly, OrderOk, Coherent;
    assert OrderOk(Created(a), reg) by { NewIsOrdered(a, reg); }
    OrderIsKept(Created(a), steps, reg);
    rest := SomeScheduleArrives(w, reg, reg(w.agent.value.kind, w.agent.value.credential));
  }

  lemma NewIsOrdered(a: Agent, reg: Registry)
    ensures OrderOk(Created(a), reg)
  {
  }
}
