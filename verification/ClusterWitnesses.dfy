/**
 Runs of a new agent on which the cluster does what its documentation does not promise: a stale condition, a retry
 budget that runs out, and a deletion, each in the middle of a replacement.
 */
module ClusterWitnesses {
  import opened Prelude
  import opened Lifecycle
  import opened Reconciler
  import opened ClusterRuns
  import opened Convergence
  import opened Shutdown
  import opened Arrival

  const RUNTIME := Resolved(7, 8)
  const REGISTRY: Registry := (kind, credential) => RUNTIME
  const PASS := Pass(Inputs(false, RUNTIME, true, true))
  const START := Created(NewAgent(1, None, false))

  /** The stale case happens: after a stop, a resume, and an adapter change before the cluster clears its condition, the
      agent is reported running at generation 2 on the pod of generation 1. */
  lemma StaleReplacementHappens() returns (steps: seq<Step>)
    ensures
      && Run(START, steps).Some?
      && (var w := Run(START, steps).value;
          && w.agent.Some? && w.agent.value.runtimeGeneration == 2 && w.agent.value.status.state == Running
          && w.pod.Some? && w.pod.value.generation == 1)
  {
    hide Next;
    var s1, w1 := ToRunning();
    var s2, w2 := ToStopped(w1);
    var s3, w3 := ToStale(w2);
    var s4, w4 := ToReplaced(w3);
    var s5, w5 := ToReported(w4);
    RunConcat(START, s1, s2);
    RunConcat(START, s1 + s2, s3);
    RunConcat(START, s1 + s2 + s3, s4);
    RunConcat(START, s1 + s2 + s3 + s4, s5);
    steps := s1 + s2 + s3 + s4 + s5;
  }

  lemma ToRunning() returns (steps: seq<Step>, w: World)
    ensures Run(START, steps) == Some(w) && AlwaysOrderly(START, steps, REGISTRY)
    ensures
      && w.agent == Some(NewAgent(1, None, false).(status := Status(Running, 1, Unexplained, Some(Runtime(1, 1, 7)))))
      && w.claim == Some(Claim(1, 1, 7, 8, Keep, true, false, true))
      && w.sandbox == Some(Sandbox(1, false, false, Keep, true)) && w.pod.Some? && w.volume.Some?
  {
    hide Next, Orderly;
    var s1, w1 := ToProvisioned();
    var s2;
    s2, w := ToReady(w1);
    RunConcat(START, s1, s2);
    OrderlyConcat(START, s1, s2);
    steps := s1 + s2;
  }

  lemma ToProvisioned() returns (steps: seq<Step>, w: World)
    ensures Run(START, steps) == Some(w) && AlwaysOrderly(START, steps, REGISTRY)
    ensures
      && w.agent == Some(NewAgent(1, None, false).(status := Status(Provisioning, 1, ClaimCreated, None)))
      && w.claim == Some(Claim(1, 1, 7, 8, Keep, true, false, false))
      && w.sandbox == Some(Sandbox(1, false, false, Keep, true)) && w.pod.None? && w.volume.Some?
  {
    steps := [PASS, SandboxProvisioned];
    w := OrderlyOne(START, steps, 0, START);
    w := OrderlyOne(START, steps, 1, w);
    assert steps[..2] == steps;
  }

  lemma ToReady(start: World) returns (steps: seq<Step>, w: World)
    requires start.agent == Some(NewAgent(1, None, false).(status := Status(Provisioning, 1, ClaimCreated, None)))
    requires start.claim == Some(Claim(1, 1, 7, 8, Keep, true, false, false))
    requires start.sandbox == Some(Sandbox(1, false, false, Keep, true)) && start.pod.None?
    ensures Run(start, steps) == Some(w) && AlwaysOrderly(start, steps, REGISTRY)
    ensures
      && w.agent == Some(NewAgent(1, None, false).(status := Status(Running, 1, Unexplained, Some(Runtime(1, 1, 7)))))
      && w.claim == Some(Claim(1, 1, 7, 8, Keep, true, false, true))
      && w.sandbox == start.sandbox && w.pod.Some? && w.volume == start.volume
  {
    steps := [PodStarts, PodReady, ClaimReady, PASS];
    w := OrderlyOne(start, steps, 0, start);
    w := OrderlyOne(start, steps, 1, w);
    w := OrderlyOne(start, steps, 2, w);
    w := OrderlyOne(start, steps, 3, w);
    assert steps[..4] == steps;
  }

  lemma ToStopped(start: World) returns (steps: seq<Step>, w: World)
    requires start.agent.Some? && start.agent.value.status.state == Running && start.agent.value.desired == WantRunning
    requires start.claim.Some? && start.claim.value.bound && start.sandbox == Some(Sandbox(1, false, false, Keep, true))
    ensures Run(start, steps) == Some(w)
    ensures
      && w.agent.Some? && w.agent.value.status.state == Stopped && w.claim == start.claim
      && w.agent.value.runtimeGeneration == start.agent.value.runtimeGeneration
      && w.agent.value.kind == start.agent.value.kind && w.agent.value.credential == start.agent.value.credential
      && w.sandbox == Some(Sandbox(1, true, true, Keep, true)) && w.pod.None?
  {
    steps := [Ask(Stop), PASS, Suspends, PASS];
    w := RunOne(start, steps, 0, start);
    w := RunOne(start, steps, 1, w);
    w := RunOne(start, steps, 2, w);
    w := RunOne(start, steps, 3, w);
    assert steps[..4] == steps;
  }

  lemma ToStale(start: World) returns (steps: seq<Step>, w: World)
    requires start.agent.Some? && start.agent.value.status.state == Stopped
    requires start.agent.value.runtimeGeneration == 1 && start.agent.value.kind == 1 && start.agent.value.credential.None?
    requires start.claim == Some(Claim(1, 1, 7, 8, Keep, true, false, true))
    requires start.sandbox == Some(Sandbox(1, true, true, Keep, true)) && start.pod.None?
    ensures Run(start, steps) == Some(w)
    ensures
      && w.agent.Some? && w.agent.value.status.state == Reconfiguring && w.agent.value.desired == WantRunning
      && w.agent.value.runtimeGeneration == 2 && w.agent.value.kind == 2
      && w.claim.Some? && w.claim.value.deleting == Orphan && w.sandbox.Some? && w.pod == Some(Pod(1, false, false, 0))
  {
    steps := [Ask(Resume), PASS, PodStarts, Ask(ChangeAdapter(2, None, true)), PASS];
    w := RunOne(start, steps, 0, start);
    w := RunOne(start, steps, 1, w);
    assert w.agent.value.status.state == Starting;
    w := RunOne(start, steps, 2, w);
    w := RunOne(start, steps, 3, w);
    assert w.agent.value.runtimeGeneration == 2;
    w := RunOne(start, steps, 4, w);
    assert steps[..5] == steps;
  }

  lemma ToReplaced(start: World) returns (steps: seq<Step>, w: World)
    requires start.agent.Some? && start.agent.value.status.state == Reconfiguring && start.agent.value.desired == WantRunning
    requires start.claim.Some? && start.claim.value.deleting == Orphan && start.sandbox.Some?
    ensures Run(start, steps) == Some(w)
    ensures
      && w.agent.Some? && w.agent.value == start.agent.value.(status := w.agent.value.status)
      && w.agent.value.status.state == Reconfiguring
      && w.claim.None? && w.sandbox.None? && w.pod == start.pod
  {
    steps := [ClaimReleased, PASS, SandboxRemoved];
    w := RunOne(start, steps, 0, start);
    w := RunOne(start, steps, 1, w);
    w := RunOne(start, steps, 2, w);
    assert steps[..3] == steps;
  }

  lemma ToReported(start: World) returns (steps: seq<Step>, w: World)
    requires start.agent.Some? && start.agent.value.desired == WantRunning && start.agent.value.runtimeGeneration == 2
    requires start.claim.None? && start.sandbox.None? && start.pod == Some(Pod(1, false, false, 0))
    ensures Run(start, steps) == Some(w)
    ensures
      && w.agent.Some? && w.agent.value.runtimeGeneration == 2 && w.agent.value.status.state == Running
      && w.pod.Some? && w.pod.value.generation == 1
  {
    steps := [PASS, SandboxProvisioned, PodReady, ClaimReady, PASS];
    w := RunOne(start, steps, 0, start);
    assert w.claim == Some(Claim(2, start.agent.value.kind, 7, 8, Keep, false, false, false));
    w := RunOne(start, steps, 1, w);
    w := RunOne(start, steps, 2, w);
    w := RunOne(start, steps, 3, w);
    assert w.claim.value.ready && w.claim.value.bound && w.pod.value.ready && !w.sandbox.value.suspendMode;
    w := RunOne(start, steps, 4, w);
    assert steps[..5] == steps;
  }

  lemma {:induction false} RunConcat(w: World, s: seq<Step>, t: seq<Step>)
    requires Run(w, s).Some?
    ensures Run(w, s + t) == Run(Run(w, s).value, t)
  {
    hide Next;
    if t == [] {
      assert s + t == s;
    } else {
      RunConcat(w, s, t[..|t| - 1]);
      assert (s + t)[..|s + t| - 1] == s + t[..|t| - 1];
    }
  }

  lemma RunOne(start: World, steps: seq<Step>, n: nat, w: World) returns (w': World)
    requires n < |steps| && Run(start, steps[..n]) == Some(w) && Next(w, steps[n]).Some?
    ensures Next(w, steps[n]) == Some(w') && Run(start, steps[..n + 1]) == Some(w')
  {
    assert steps[..n + 1][..n] == steps[..n];
    w' := Next(w, steps[n]).value;
  }

  /** A step that the order allows. */
  lemma OrderlyOne(start: World, steps: seq<Step>, n: nat, w: World) returns (w': World)
    requires n < |steps| && Run(start, steps[..n]) == Some(w) && Next(w, steps[n]).Some?
    requires AlwaysOrderly(start, steps[..n], REGISTRY) && Orderly(w, steps[n], REGISTRY)
    ensures Next(w, steps[n]) == Some(w') && Run(start, steps[..n + 1]) == Some(w')
    ensures AlwaysOrderly(start, steps[..n + 1], REGISTRY)
  {
    assert steps[..n + 1][..n] == steps[..n];
    w' := RunOne(start, steps, n, w);
  }

  lemma {:induction false} OrderlyConcat(w: World, s: seq<Step>, t: seq<Step>)
    requires Run(w, s).Some? && AlwaysOrderly(w, s, REGISTRY) && AlwaysOrderly(Run(w, s).value, t, REGISTRY)
    ensures AlwaysOrderly(w, s + t, REGISTRY)
  {
    hide Next, Orderly;
    if t == [] {
      assert s + t == s;
    } else {
      var before := t[..|t| - 1];
      OrderlyConcat(w, s, before);
      RunConcat(w, s, before);
      assert (s + t)[..|s + t| - 1] == s + before;
    }
  }

  // ---------- in the middle of a replacement ----------

  /** The claim is gone and the drained sandbox is not. */
  predicate Released(w: World) {
    && Kept(w) && w.agent.value.desired == WantRunning && w.agent.value.status.state == Reconfiguring
    && w.agent.value.runtimeGeneration == 2 && !w.agent.value.retain
    && w.claim.None? && w.sandbox == Some(Sandbox(1, true, true, Keep, false)) && w.volume.Some?
  }

  lemma ToDraining(start: World) returns (steps: seq<Step>, w: World)
    requires start.agent == Some(NewAgent(1, None, false).(status := Status(Running, 1, Unexplained, Some(Runtime(1, 1, 7)))))
    requires start.claim == Some(Claim(1, 1, 7, 8, Keep, true, false, true))
    requires start.sandbox == Some(Sandbox(1, false, false, Keep, true)) && start.volume.Some?
    ensures Run(start, steps) == Some(w) && AlwaysOrderly(start, steps, REGISTRY)
    ensures
      && Kept(w) && w.agent.value.desired == WantRunning && w.agent.value.status.state == Reconfiguring
      && w.agent.value.runtimeGeneration == 2 && !w.agent.value.retain
      && w.claim == start.claim && w.sandbox == Some(Sandbox(1, true, true, Keep, true)) && w.volume == start.volume
  {
    steps := [Ask(ChangeAdapter(2, None, true)), PASS, Suspends];
    w := OrderlyOne(start, steps, 0, start);
    assert w.agent.value.runtimeGeneration == 2;
    w := OrderlyOne(start, steps, 1, w);
    w := OrderlyOne(start, steps, 2, w);
    assert steps[..3] == steps;
  }

  lemma ToReleased(start: World) returns (steps: seq<Step>, w: World)
    requires Kept(start) && start.agent.value.desired == WantRunning && start.agent.value.status.state == Reconfiguring
    requires start.agent.value.runtimeGeneration == 2 && !start.agent.value.retain
    requires start.claim == Some(Claim(1, 1, 7, 8, Keep, true, false, true))
    requires start.sandbox == Some(Sandbox(1, true, true, Keep, true)) && start.volume.Some?
    ensures Run(start, steps) == Some(w) && AlwaysOrderly(start, steps, REGISTRY) && Released(w)
  {
    steps := [PASS, ClaimReleased];
    w := OrderlyOne(start, steps, 0, start);
    w := OrderlyOne(start, steps, 1, w);
    assert steps[..2] == steps;
  }

  /** An orderly run of a new agent to the middle of a replacement. */
  lemma MidReplacementHappens() returns (steps: seq<Step>, w: World)
    ensures Run(START, steps) == Some(w) && AlwaysOrderly(START, steps, REGISTRY) && Released(w)
  {
    hide Next, Orderly, Released;
    var s1, w1 := ToRunning();
    var s2, w2 := ToDraining(w1);
    var s3;
    s3, w := ToReleased(w2);
    RunConcat(START, s1, s2);
    OrderlyConcat(START, s1, s2);
    RunConcat(START, s1 + s2, s3);
    OrderlyConcat(START, s1 + s2, s3);
    steps := s1 + s2 + s3;
  }

  lemma ToClaimed(start: World) returns (steps: seq<Step>, w: World)
    requires Released(start)
    ensures Run(start, steps) == Some(w)
    ensures w.claim.Some? && w.claim.value.generation == 2 && w.sandbox == start.sandbox && Blocked(w, RUNTIME)
  {
    steps := [Exhaust, PASS];
    w := RunOne(start, steps, 0, start);
    w := RunOne(start, steps, 1, w);
    assert steps[..2] == steps;
  }

  /** The retry budget can run out in the middle of a replacement: the next pass claims generation 2 while the sandbox of
      generation 1 is still there, and from then on no schedule makes the agent run. */
  lemma ExhaustionHappens() returns (steps: seq<Step>, w: World)
    ensures Run(START, steps) == Some(w)
    ensures w.claim.Some? && w.claim.value.generation == 2 && w.sandbox.Some? && w.sandbox.value.generation == 1
    ensures forall later :: Productive(w, later, RUNTIME) ==> !Arrived(Final(w, later, RUNTIME), RUNTIME)
  {
    hide Next, AlwaysOrderly, Productive, Final, Arrived, Blocked;
    var s1, w1 := MidReplacementHappens();
    var s2;
    s2, w := ToClaimed(w1);
    RunConcat(START, s1, s2);
    steps := s1 + s2;
    forall later | Productive(w, later, RUNTIME) ensures !Arrived(Final(w, later, RUNTIME), RUNTIME) {
      BlockedForever(w, later, RUNTIME);
    }
  }

  /** Deletion can be asked for in the middle of a replacement: an orderly run, then a schedule of the deletion that comes to
      rest with the volume left behind. */
  lemma StrandingHappens() returns (steps: seq<Step>, w: World, rest: seq<Step>)
    ensures Run(START, steps) == Some(w) && AlwaysOrderly(START, steps, REGISTRY)
    ensures Kept(w) && !w.agent.value.retain && !Whole(w)
    ensures
      var d := Next(w, Ask(Delete)).value;
      Productive(d, rest, RUNTIME) && Quiet(Final(d, rest, RUNTIME), RUNTIME) && !Gone(Final(d, rest, RUNTIME))
  {
    hide AlwaysOrderly, Run, Productive, Final, Quiet, Gone, Reconcile;
    steps, w := MidReplacementHappens();
    var d := Next(w, Ask(Delete)).value;
    rest := Strands(d, RUNTIME);
  }
}
