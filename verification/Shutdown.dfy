/**
 Stopping and deleting an agent: every schedule of passes and a cooperative cluster ends with the agent stopped and its
 pod gone, or with its record removed; and exactly when deletion leaves something of the agent behind.
 */
module Shutdown {
  import opened Prelude
  import opened Lifecycle
  import opened Reconciler
  import opened ClusterRuns
  import opened Convergence

  // ---------- stop ----------

  predicate ToStop(w: World, reg: Registry) {
    w.agent.Some? && w.agent.value.desired == WantStopped && RecordOk(w) && OrderOk(w, reg)
  }

  function StopPhase(w: World): nat {
    if w.claim.None? then 0
    else
      ClaimRank(w.claim.value) +
      if w.sandbox.None? then 5
      else match (w.sandbox.value.suspendMode, w.sandbox.value.suspended)
        case (true, true) => 0
        case (true, false) => 1 + PodRank(w)
        case (false, false) => 2 + PodRank(w)
        case (false, true) => 3 + PodRank(w)
  }

  function StopRank(w: World, r: Resolution): nat {
    2 * StopPhase(w) + if Next(w, Working(r)) == Some(w) then 0 else 1
  }

  lemma StopClusterCloser(w: World, s: Step, reg: Registry, r: Resolution)
    requires ToStop(w, reg) && Cooperative(s) && Effective(w, s, r)
    ensures ToStop(Next(w, s).value, reg) && StopPhase(Next(w, s).value) < StopPhase(w)
  {
    hide Reconcile, Coherent;
    ClusterOrderOk(w, s, reg);
    ClusterKeepsAgent(w, s);
  }

  lemma StopPassCloser(w: World, reg: Registry, r: Resolution)
    requires ToStop(w, reg)
    ensures
      var w' := Next(w, Working(r)).value;
      && ToStop(w', reg)
      && (if SameBut(w, w') then StopPhase(w') == StopPhase(w) && Next(w', Working(r)) == Some(w')
          else StopPhase(w') < StopPhase(w))
  {
    ReconcileCoherent(w, Inputs(false, r, true, true));
    hide Coherent, Transition;
    TransitionSays(w.agent.value);
    TransitionSettles(w.agent.value);
  }

  lemma StopRankDecreases(w: World, s: Step, reg: Registry, r: Resolution)
    requires ToStop(w, reg) && Effective(w, s, r)
    ensures ToStop(Next(w, s).value, reg) && StopRank(Next(w, s).value, r) < StopRank(w, r)
  {
    hide Next, StopPhase, ToStop, SameBut;
    if Cooperative(s) {
      StopClusterCloser(w, s, reg, r);
    } else {
      StopPassCloser(w, reg, r);
    }
  }

  /** Reported stopped, with no pod and nothing that could start one. */
  predicate Halted(w: World) {
    && w.agent.Some? && w.agent.value.status.state == Stopped && w.agent.value.status.observed == w.agent.value.generation
    && w.pod.None? && (w.sandbox.Some? ==> Drained(w.sandbox.value))
  }

  lemma QuietIsHalted(w: World, reg: Registry, r: Resolution)
    requires ToStop(w, reg) && Quiet(w, r)
    ensures Halted(w)
  {
    hide Transition;
    TransitionSays(w.agent.value);
    assert !Effective(w, Working(r), r);
    assert !Effective(w, SandboxProvisioned, r);
    assert !Effective(w, Suspends, r);
    assert !Effective(w, Unsuspends, r);
  }

  /** A stop ends with the pod gone, whatever the schedule, and within the rank. */
  lemma {:induction false} EveryStopHalts(w: World, steps: seq<Step>, reg: Registry, r: Resolution)
    requires ToStop(w, reg) && Productive(w, steps, r)
    ensures |steps| + StopRank(Final(w, steps, r), r) <= StopRank(w, r)
    ensures Quiet(Final(w, steps, r), r) ==> Halted(Final(w, steps, r))
    decreases |steps|
  {
    hide StopRank, ToStop, Cooperative, Halted, Next, Quiet;
    if steps == [] {
      if Quiet(w, r) {
        QuietIsHalted(w, reg, r);
      }
    } else {
      StopRankDecreases(w, steps[0], reg, r);
      EveryStopHalts(Next(w, steps[0]).value, steps[1..], reg, r);
    }
  }

  // ---------- delete ----------

  /** Deletion was asked for; the record outlives the claim. */
  predicate ToDelete(w: World) {
    && (w.agent.Some? ==> w.agent.value.desired == WantDeleted)
    && (w.agent.None? ==> w.claim.None?)
  }

  function DeleteClaimRank(w: World): nat {
    if w.claim.None? then 0
    else
      ClaimRank(w.claim.value) +
      match w.claim.value.deleting
      case Keep => 60
      case Orphan => 12
      case Foreground => 10
  }

  function DeleteSandboxRank(w: World): nat {
    (if w.sandbox.None? then 0
     else
       (match w.sandbox.value.deleting case Keep => 10 case Orphan => 6 case Foreground => 5) +
       (if w.sandbox.value.suspendMode != w.sandbox.value.suspended then 4 else 0)) +
    (if w.claim.Some? && w.claim.value.deleting == Keep && (w.sandbox.None? || w.sandbox.value.deleting != Keep) then 20 else 0)
  }

  function DeletePhase(w: World): nat {
    (if w.agent.Some? then 1 else 0) + DeleteClaimRank(w) + DeleteSandboxRank(w) + PodRank(w) +
    (if w.volume.Some? && w.volume.value.owned then 1 else 0)
  }

  function DeleteRank(w: World, r: Resolution): nat {
    2 * DeletePhase(w) + if Next(w, Working(r)) == Some(w) then 0 else 1
  }

  lemma DeleteClusterCloser(w: World, s: Step, r: Resolution)
    requires ToDelete(w) && Cooperative(s) && Effective(w, s, r)
    ensures ToDelete(Next(w, s).value) && DeletePhase(Next(w, s).value) < DeletePhase(w)
  {
    hide Reconcile, DeletePhase, Cluster;
    ClusterKeepsAgent(w, s);
    if w.claim.None? {
      ClaimStaysGone(w, s);
    }
    if s.ClaimReleased? || s.ClaimCollected? || s.SandboxRemoved? || s.SandboxProvisioned? {
      RemovalCloser(w, s);
    } else {
      ProgressCloser(w, s);
    }
  }

  lemma ClaimStaysGone(w: World, s: Step)
    requires w.claim.None? && Cluster(w, s).Some?
    ensures Cluster(w, s).value.claim.None?
  {
  }

  lemma RemovalCloser(w: World, s: Step)
    requires (s.ClaimReleased? || s.ClaimCollected? || s.SandboxRemoved? || s.SandboxProvisioned?)
    requires Cluster(w, s).Some? && Cluster(w, s).value != w
    ensures DeletePhase(Cluster(w, s).value) < DeletePhase(w)
  {
  }

  lemma ProgressCloser(w: World, s: Step)
    requires s.Suspends? || s.Unsuspends? || s.PodStarts? || s.PodReady? || s.ClaimReady?
    requires Cluster(w, s).Some? && Cluster(w, s).value != w
    ensures DeletePhase(Cluster(w, s).value) < DeletePhase(w)
  {
  }

  lemma DeletePassCloser(w: World, r: Resolution)
    requires ToDelete(w)
    ensures
      var w' := Next(w, Working(r)).value;
      && ToDelete(w')
      && (w' == w || DeletePhase(w') < DeletePhase(w) || (DeletePhase(w') == DeletePhase(w) && Next(w', Working(r)) == Some(w')))
  {
    hide Transition;
    if w.agent.Some? {
      TransitionSays(w.agent.value);
      TransitionSettles(w.agent.value);
    }
  }

  lemma DeleteRankDecreases(w: World, s: Step, r: Resolution)
    requires ToDelete(w) && Effective(w, s, r)
    ensures ToDelete(Next(w, s).value) && DeleteRank(Next(w, s).value, r) < DeleteRank(w, r)
  {
    hide Next, DeletePhase, ToDelete;
    if Cooperative(s) {
      DeleteClusterCloser(w, s, r);
    } else {
      DeletePassCloser(w, r);
    }
  }

  lemma QuietIsRemoved(w: World, r: Resolution)
    requires ToDelete(w) && Quiet(w, r)
    ensures w.agent.None? && w.claim.None?
  {
    hide Transition;
    if w.agent.Some? {
      TransitionSays(w.agent.value);
    }
    assert !Effective(w, Working(r), r);
    assert !Effective(w, ClaimReleased, r);
    assert !Effective(w, ClaimCollected, r);
    assert !Effective(w, SandboxRemoved, r);
  }

  /** A deletion ends with record and claim gone, whatever the schedule, and within the rank. */
  lemma {:induction false} EveryDeletionEnds(w: World, steps: seq<Step>, r: Resolution)
    requires ToDelete(w) && Productive(w, steps, r)
    ensures |steps| + DeleteRank(Final(w, steps, r), r) <= DeleteRank(w, r)
    ensures ToDelete(Final(w, steps, r))
    ensures Quiet(Final(w, steps, r), r) ==> Final(w, steps, r).agent.None? && Final(w, steps, r).claim.None?
    decreases |steps|
  {
    hide DeleteRank, ToDelete, Cooperative, Next, Quiet;
    if steps == [] {
      if Quiet(w, r) {
        QuietIsRemoved(w, r);
      }
    } else {
      DeleteRankDecreases(w, steps[0], r);
      EveryDeletionEnds(Next(w, steps[0]).value, steps[1..], r);
    }
  }

  // ---------- what deletion leaves behind ----------

  predicate Gone(w: World) {
    w.agent.None? && w.claim.None? && w.sandbox.None? && w.pod.None? && w.volume.None?
  }

  /** Whatever the schedule, nothing is left in the end. */
  ghost predicate CleansUp(w: World, r: Resolution) {
    forall steps :: Productive(w, steps, r) && Quiet(Final(w, steps, r), r) ==> Gone(Final(w, steps, r))
  }

  /** The claim owns the sandbox and the sandbox the volume, as long as the agent is kept. */
  predicate ShapeOk(w: World) {
    Kept(w) && w.sandbox.Some? ==> w.volume == Some(Volume(true)) && (w.claim.Some? ==> w.sandbox.value.owned)
  }

  lemma NextShapeOk(w: World, s: Step, reg: Registry)
    requires ShapeOk(w) && OrderOk(w, reg) && RecordOk(w) && Next(w, s).Some?
    ensures ShapeOk(Next(w, s).value)
  {
    hide Coherent, Handle, Reconcile;
    match s
    case Ask(r) => HandleCoherent(w.agent.value, r);
    case Pass(i) => PassShapeOk(w, i, reg);
    case Exhaust =>
    case _ =>
  }

  lemma PassShapeOk(w: World, i: Inputs, reg: Registry)
    requires ShapeOk(w) && OrderOk(w, reg)
    ensures ShapeOk(Reconcile(w, i))
  {
    hide Transition;
    if w.agent.Some? {
      TransitionSays(w.agent.value);
    }
  }

  /** On every orderly run of a new agent. */
  lemma {:induction false} ShapeIsKept(a: Agent, steps: seq<Step>, reg: Registry)
    requires Coherent(a) && AlwaysOrderly(Created(a), steps, reg) && Run(Created(a), steps).Some?
    ensures
      var w := Run(Created(a), steps).value;
      ShapeOk(w) && OrderOk(w, reg) && RecordOk(w)
  {
    hide Next, OrderOk, Orderly, Coherent, ShapeOk;
    NewIsOrdered(a, reg);
    OrderIsKept(Created(a), steps, reg);
    if steps == [] {
      NewIsShaped(a);
    } else {
      ShapeIsKept(a, steps[..|steps| - 1], reg);
      NextShapeOk(Run(Created(a), steps[..|steps| - 1]).value, steps[|steps| - 1], reg);
    }
  }

  lemma NewIsShaped(a: Agent)
    ensures ShapeOk(Created(a))
  {
  }

  /** No release is under way, and the volume hangs on the sandbox. */
  predicate Whole(w: World) {
    && (w.sandbox.Some? ==> w.claim.Some? && w.claim.value.deleting == Keep)
    && (w.volume.Some? ==> w.sandbox.Some?)
  }

  /** Everything there is still follows the record through owner references. */
  predicate Tidy(w: World) {
    && (w.agent.Some? ==> !w.agent.value.retain)
    && (w.sandbox.Some? ==>
          w.claim.Some? && w.claim.value.deleting != Orphan && w.sandbox.value.owned && w.sandbox.value.deleting != Orphan)
    && (w.volume.Some? ==> w.sandbox.Some? && w.volume.value.owned)
    && (w.pod.Some? ==> w.sandbox.Some?)
  }

  lemma TidyStays(w: World, s: Step, r: Resolution)
    requires ToDelete(w) && Tidy(w) && Effective(w, s, r)
    ensures Tidy(Next(w, s).value)
  {
    hide Transition;
    if w.agent.Some? {
      TransitionSays(w.agent.value);
    }
  }

  lemma {:induction false} TidyRuns(w: World, steps: seq<Step>, r: Resolution)
    requires ToDelete(w) && Tidy(w) && Productive(w, steps, r)
    ensures Tidy(Final(w, steps, r))
    decreases |steps|
  {
    hide ToDelete, Tidy, Cooperative, Next;
    if steps == [] {
    } else {
      TidyStays(w, steps[0], r);
      DeleteRankDecreases(w, steps[0], r);
      TidyRuns(Next(w, steps[0]).value, steps[1..], r);
    }
  }

  /** The claim is gone and the volume is not, nor is it about to go. */
  predicate Stranded(w: World) {
    ToDelete(w) && w.claim.None? && w.volume.Some? && (w.sandbox.Some? ==> w.sandbox.value.deleting != Foreground)
  }

  lemma StrandedStays(w: World, s: Step, r: Resolution)
    requires Stranded(w) && Effective(w, s, r)
    ensures Stranded(Next(w, s).value)
  {
    hide Transition;
  }

  /** From a stranded world every schedule can be completed, and the volume is left. */
  lemma {:induction false} StrandedEnds(w: World, r: Resolution) returns (steps: seq<Step>)
    requires Stranded(w)
    ensures Productive(w, steps, r) && Quiet(Final(w, steps, r), r) && !Gone(Final(w, steps, r))
    decreases DeleteRank(w, r)
  {
    hide DeleteRank, ToDelete, Cooperative, Next;
    if s :| Effective(w, s, r) {
      DeleteRankDecreases(w, s, r);
      StrandedStays(w, s, r);
      var rest := StrandedEnds(Next(w, s).value, r);
      steps := [s] + rest;
      assert steps[1..] == rest;
    } else {
      steps := [];
    }
  }

  /** Otherwise there is a schedule that leaves the volume. */
  lemma Strands(w: World, r: Resolution) returns (steps: seq<Step>)
    requires ToDelete(w) && w.agent.Some? && !Whole(w) && w.volume.Some?
    requires !Foregrounded(w)
    ensures Productive(w, steps, r) && Quiet(Final(w, steps, r), r) && !Gone(Final(w, steps, r))
  {
    hide Productive, Final, Quiet, Gone;
    if w.claim.None? {
      steps := StrandedEnds(w, r);
    } else if w.claim.value.deleting == Orphan {
      var rest := StrandedEnds(Next(w, ClaimReleased).value, r);
      Prepend(w, ClaimReleased, rest, r);
      steps := [ClaimReleased] + rest;
    } else {
      var w1 := Next(w, Working(r)).value;
      var rest := StrandedEnds(Next(w1, ClaimCollected).value, r);
      Prepend(w1, ClaimCollected, rest, r);
      Prepend(w, Working(r), [ClaimCollected] + rest, r);
      steps := [Working(r)] + ([ClaimCollected] + rest);
    }
  }

  /** An agent whose workspace is not retained is deleted without remains, whatever the schedule, if and only if no release of
      its sandbox is under way and its volume hangs on the sandbox when deletion is asked for. */
  lemma DeletionCleansExactly(w: World, reg: Registry, r: Resolution)
    requires Kept(w) && OrderOk(w, reg) && ShapeOk(w) && RecordOk(w) && !w.agent.value.retain
    ensures CleansUp(Put(w, Handle(w.agent.value, Delete)), r) <==> Whole(w)
  {
    hide Productive, Final, Quiet, Effective;
    var d := Put(w, Handle(w.agent.value, Delete));
    if Whole(w) {
      forall steps | Productive(d, steps, r) && Quiet(Final(d, steps, r), r) ensures Gone(Final(d, steps, r)) {
        EveryDeletionEnds(d, steps, r);
        TidyRuns(d, steps, r);
      }
    } else {
      var steps := Strands(d, r);
      assert !CleansUp(d, r);
    }
  }
}
