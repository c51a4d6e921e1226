/**
 Who is registered and what the process does, over whole runs of the terminal hub: exactly one case leaves a
 controller that is not registered, and the process state only moves forward.
 */
module HubLifecycle {
  import opened Prelude
  import opened Replay
  import opened TerminalHub
  import opened HubInvariants
  import opened HubRuns

  // ---------- the controller is registered, with one exception ----------

  predicate ControllerRegistered(h: HubState) {
    h.controller.Some? ==> h.controller.value.attachment in h.registered
  }

  /** The caller's own lease has expired and its queue has no room for the expiry notice. */
  predicate LeakyTakeover(h: HubState, id: Id, now: int)
    requires id in h.subs
  {
    h.subs[id].permitted && id in h.registered && Names(h.controller, id) && Expired(h, now) && Full(h, id)
  }

  /** Takeover leaves a registered controller exactly when it is not the leaky case: the notice of the expiry would
      drop the caller, which is then granted the lease all the same. */
  lemma TakeoverLeakExactly(h: HubState, id: Id, lease: Id, now: int)
    requires h.registered <= h.subs.Keys && id in h.subs && ControllerRegistered(h)
    ensures ControllerRegistered(Takeover(h, id, lease, now).0) <==> !LeakyTakeover(h, id, now)
  {
    if h.subs[id].permitted && id in h.registered && !Expired(h, now) && !Names(h.controller, id) {
      assert id in Revoke(h, TakenOver).registered;
    }
  }

  lemma RevokeDropsOnlyController(h: HubState, reason: Reason)
    requires h.registered <= h.subs.Keys
    ensures Revoke(h, reason).controller.None?
    ensures Revoke(h, reason).registered <= Revoke(h, reason).subs.Keys == h.subs.Keys
  {
  }

  lemma AttachRegistered(h: HubState, r: AttachRequest, now: int, id: Id, lease: Id, resizeOk: bool)
    requires h.registered <= h.subs.Keys && Precheck(r).None? && ControllerRegistered(h)
    ensures ControllerRegistered(Attach(h, r, now, id, lease, resizeOk).0)
  {
    hide Revoke, AttachRefusal, InitialFrames, StartPoint;
    RevokeDropsOnlyController(h, LeaseExpired);
    RevokeDropsOnlyController(Created(Expire(h, now), r, id), TakenOver);
  }

  lemma MuStepRegistered(s: Sys, step: Step)
    requires s.hub.registered <= s.hub.subs.Keys && ControllerRegistered(s.hub) && MuStep(s, step).Some?
    ensures ControllerRegistered(MuStep(s, step).value.hub)
  {
    hide Append;
  }

  predicate Leaky(s: Sys, step: Step) {
    && step.DoTakeover?
    && s.control.Some? && s.control.value.op.OpTakeover? && s.control.value.op.id in s.hub.subs
    && LeakyTakeover(s.hub, s.control.value.op.id, step.now)
  }

  lemma NextRegistered(s: Sys, step: Step)
    requires s.hub.registered <= s.hub.subs.Keys && ControllerRegistered(s.hub) && Next(s, step).Some?
    requires !Leaky(s, step)
    ensures ControllerRegistered(Next(s, step).value.hub)
  {
    hide Append, Attach, Takeover, AttachEvents, LeakyTakeover, Broadcast, Revoke;
    if MuStep(s, step).Some? {
      MuStepRegistered(s, step);
    } else {
      RevokeDropsOnlyController(s.hub, LeaseExpired);
      match step
      case DoAttach(now, id, lease, resizeOk) =>
        AttachRegistered(s.hub, s.control.value.op.request, now, id, lease, resizeOk);
      case DoTakeover(now, lease) => TakeoverLeakExactly(s.hub, s.control.value.op.id, lease, now);
      case DoExit => ExitRegistered(s.hub, s.control.value.op.status);
      case _ =>
    }
  }

  lemma ExitRegistered(h: HubState, status: int)
    requires h.registered <= h.subs.Keys && ControllerRegistered(h)
    ensures ControllerRegistered(PublishExit(h, status))
  {
    hide Revoke;
    RevokeDropsOnlyController(h.(phase := Exited, exit := Some(Exit(status))), AgentStopped);
  }

  ghost predicate NeverLeaky(s: Sys, steps: seq<Step>) {
    steps == [] ||
    (var before := Run(s, steps[..|steps| - 1]);
     NeverLeaky(s, steps[..|steps| - 1]) && (before.Some? ==> !Leaky(before.value, steps[|steps| - 1])))
  }

  /** On every run without a leaky takeover the controller stays registered. */
  lemma {:induction false} ControllerStaysRegistered(s: Sys, steps: seq<Step>)
    requires Inv(s.hub) && ControllerRegistered(s.hub) && Run(s, steps).Some? && NeverLeaky(s, steps)
    ensures ControllerRegistered(Run(s, steps).value.hub)
  {
    hide Next, Inv, Leaky;
    if steps == [] {
    } else {
      var before := steps[..|steps| - 1];
      ControllerStaysRegistered(s, before);
      RunInv(s, before);
      InvWellFormed(Run(s, before).value.hub);
      NextRegistered(Run(s, before).value, steps[|steps| - 1]);
    }
  }

  lemma RunStep(s: Sys, steps: seq<Step>, step: Step)
    requires Run(s, steps).Some? && Run(s, steps).value.hub.registered <= Run(s, steps).value.hub.subs.Keys
    ensures Run(s, steps + [step]) == Next(Run(s, steps).value, step)
  {
    assert (steps + [step])[..|steps|] == steps;
  }

  const LEAK_REQUEST := AttachRequest(Some(Control), true, true, true, None, false)

  /** One control attachment that holds the lease. */
  predicate LoneController(h: HubState) {
    && h.capacity == 1 && h.registered == {1} == h.subs.Keys && h.used == {1, 2}
    && h.subs[1].permitted && h.controller == Some(Lease(1, 2, 10))
  }

  lemma LeakAttach()
    ensures
      var h := Attach(NewHub(100, 10, 1, 10), LEAK_REQUEST, 0, 1, 2, true).0;
      LoneController(h) && h.subs[1].queue == []
  {
    hide Append, After, InitialFrames, StartPoint;
  }

  lemma LeakOutput(h: HubState)
    requires LoneController(h) && h.subs[1].queue == []
    ensures LoneController(PublishOutput(h, [])) && |PublishOutput(h, []).subs[1].queue| == 1
  {
    hide Append;
  }

  const LEAK_START := NewSys(100, 10, 1, 10)
  const LEAK_ASK := DoAcquire(0, OpAttach(LEAK_REQUEST))
  const LEAK_ATTACH := DoAttach(0, 1, 2, true)
  const LEAK_AGAIN := DoAcquire(0, OpTakeover(1))
  const LEAK_TAKE := DoTakeover(10, 3)

  lemma LeakAttaches() returns (s1: Sys, s2: Sys)
    ensures Next(LEAK_START, LEAK_ASK) == Some(s1)
    ensures s1.hub.registered <= s1.hub.subs.Keys && Next(s1, LEAK_ATTACH) == Some(s2)
    ensures s2.control.None? && !s2.readDone && !s2.exited && LoneController(s2.hub) && s2.hub.subs[1].queue == []
  {
    hide Attach, AttachEvents, NewGrants;
    LeakAttach();
    s1 := LEAK_START.(control := Some(Hold(0, OpAttach(LEAK_REQUEST), Locked, 0, false)));
    s2 := Next(s1, LEAK_ATTACH).value;
  }

  lemma LeakTakesOver(s2: Sys) returns (s3: Sys, s4: Sys, s5: Sys)
    requires s2.control.None? && !s2.readDone && !s2.exited && LoneController(s2.hub) && s2.hub.subs[1].queue == []
    ensures Next(s2, DoOutput([])) == Some(s3) && s3.hub.registered <= s3.hub.subs.Keys
    ensures Next(s3, LEAK_AGAIN) == Some(s4) && s4.hub.registered <= s4.hub.subs.Keys
    ensures Next(s4, LEAK_TAKE) == Some(s5) && !ControllerRegistered(s5.hub)
  {
    hide PublishOutput, Takeover, NewGrants;
    LeakOutput(s2.hub);
    s3 := s2.(hub := PublishOutput(s2.hub, []));
    s4 := s3.(control := Some(Hold(0, OpTakeover(1), Locked, 0, false)));
    s5 := Next(s4, LEAK_TAKE).value;
    TakeoverLeakExactly(s4.hub, 1, 3, 10);
  }

  /** The leaky case happens: one control attachment, one queued frame, an expired lease and a takeover. */
  lemma LeakHappens() returns (steps: seq<Step>)
    ensures Run(LEAK_START, steps).Some? && !ControllerRegistered(Run(LEAK_START, steps).value.hub)
  {
    hide Next;
    var s := LEAK_START;
    var s1, s2 := LeakAttaches();
    var s3, s4, s5 := LeakTakesOver(s2);
    steps := [];
    RunStep(s, steps, LEAK_ASK);
    steps := steps + [LEAK_ASK];
    RunStep(s, steps, LEAK_ATTACH);
    steps := steps + [LEAK_ATTACH];
    RunStep(s, steps, DoOutput([]));
    steps := steps + [DoOutput([])];
    RunStep(s, steps, LEAK_AGAIN);
    steps := steps + [LEAK_AGAIN];
    RunStep(s, steps, LEAK_TAKE);
    steps := steps + [LEAK_TAKE];
  }

  // ---------- the process ----------

  function PhaseRank(p: Phase): nat { match p case Starting => 0 case Running => 1 case Exited => 2 }

  /** The process exits after the last read, the exit frame is published after that, and no live PTY call is open then. */
  predicate ExitAfterReads(s: Sys) {
    && (s.exited ==> s.readDone)
    && (s.hub.exit.Some? ==> s.exited && (s.control.Some? ==> !s.control.value.live))
  }

  predicate SameProcess(h: HubState, h': HubState) {
    h'.phase == h.phase && h'.exit == h.exit && h'.history == h.history && h'.registered <= h'.subs.Keys
  }

  lemma RevokeSameProcess(h: HubState, reason: Reason)
    requires h.registered <= h.subs.Keys
    ensures SameProcess(h, Revoke(h, reason)) && Revoke(h, reason).subs.Keys == h.subs.Keys
  {
  }

  lemma AttachSameProcess(h: HubState, r: AttachRequest, now: int, id: Id, lease: Id, resizeOk: bool)
    requires h.registered <= h.subs.Keys && Precheck(r).None?
    ensures SameProcess(h, Attach(h, r, now, id, lease, resizeOk).0)
  {
    hide Revoke, AttachRefusal, InitialFrames, StartPoint;
    RevokeSameProcess(h, LeaseExpired);
    RevokeSameProcess(Created(Expire(h, now), r, id), TakenOver);
  }

  lemma TakeoverSameProcess(h: HubState, id: Id, lease: Id, now: int)
    requires h.registered <= h.subs.Keys && id in h.subs
    ensures SameProcess(h, Takeover(h, id, lease, now).0)
  {
    hide Revoke;
    RevokeSameProcess(h, LeaseExpired);
    RevokeSameProcess(Expire(h, now), TakenOver);
  }

  lemma NextProcess(s: Sys, step: Step)
    requires Inv(s.hub) && ExitAfterReads(s) && Next(s, step).Some?
    ensures Forward(s, Next(s, step).value)
  {
    hide Inv, MuStep, ControlStep, PtyStep;
    InvWellFormed(s.hub);
    if MuStep(s, step).Some? {
      MuProcess(s, step);
    } else if ControlStep(s, step).Some? {
      ControlProcess(s, step);
    } else {
      PtyProcess(s, step);
    }
  }

  /** What every step does to the process state. */
  predicate Forward(s: Sys, s': Sys) {
    && ExitAfterReads(s')
    && PhaseRank(s.hub.phase) <= PhaseRank(s'.hub.phase)
    && (s.hub.exit.Some? ==> s'.hub.exit == s.hub.exit && s'.hub.history == s.hub.history)
    && s.hub.history <= s'.hub.history
  }

  lemma MuProcess(s: Sys, step: Step)
    requires WellFormed(s.hub) && ExitAfterReads(s) && MuStep(s, step).Some?
    ensures Forward(s, MuStep(s, step).value)
  {
    hide Represents, Append;
  }

  lemma ControlProcess(s: Sys, step: Step)
    requires WellFormed(s.hub) && ExitAfterReads(s) && ControlStep(s, step).Some?
    ensures Forward(s, ControlStep(s, step).value)
  {
    hide Represents, Attach, Takeover, Revoke, AttachEvents, NewGrants;
    match step
    case DoAttach(now, id, lease, resizeOk) =>
      AttachSameProcess(s.hub, s.control.value.op.request, now, id, lease, resizeOk);
    case DoTakeover(now, lease) => TakeoverSameProcess(s.hub, s.control.value.op.id, lease, now);
    case DoExit =>
      RevokeSameProcess(s.hub.(phase := Exited, exit := Some(Exit(s.control.value.op.status))), AgentStopped);
    case _ => RevokeSameProcess(s.hub, LeaseExpired);
  }

  lemma PtyProcess(s: Sys, step: Step)
    requires WellFormed(s.hub) && ExitAfterReads(s) && PtyStep(s, step).Some?
    ensures Forward(s, PtyStep(s, step).value)
  {
    hide Represents, Revoke;
    RevokeSameProcess(s.hub, LeaseExpired);
  }

  lemma NextPtyFails(s: Sys, step: Step)
    requires s.hub.registered <= s.hub.subs.Keys && ExitAfterReads(s) && s.hub.exit.Some? && Next(s, step).Some?
    ensures
      var s' := Next(s, step).value;
      && s.log <= s'.log
      && forall k :: |s.log| <= k < |s'.log| && s'.log[k].PtyEnd? ==> !s'.log[k].ok
  {
    hide PublishOutput, Reply, Touch, Take, AckSection, SetProcess, Attach, Takeover, Detach, PublishExit, Expire, AttachRefusal, Renew;
  }

  /** Once the exit frame is out, no PTY call of any attachment succeeds. */
  lemma {:induction false} NoPtyCallAfterExit(s: Sys, steps: seq<Step>)
    requires Inv(s.hub) && ExitAfterReads(s) && s.hub.exit.Some? && Run(s, steps).Some?
    ensures
      var s' := Run(s, steps).value;
      && s.log <= s'.log
      && forall k :: |s.log| <= k < |s'.log| && s'.log[k].PtyEnd? ==> !s'.log[k].ok
  {
    hide Inv, Next, ExitAfterReads;
    if steps == [] {
    } else {
      var before := steps[..|steps| - 1];
      NoPtyCallAfterExit(s, before);
      ProcessMovesForward(s, before);
      RunInv(s, before);
      InvWellFormed(Run(s, before).value.hub);
      NextPtyFails(Run(s, before).value, steps[|steps| - 1]);
    }
  }

  /** The process state only moves forward, and nothing is output after the exit frame. */
  lemma {:induction false} ProcessMovesForward(s: Sys, steps: seq<Step>)
    requires Inv(s.hub) && ExitAfterReads(s) && Run(s, steps).Some?
    ensures
      var s' := Run(s, steps).value;
      && ExitAfterReads(s')
      && PhaseRank(s.hub.phase) <= PhaseRank(s'.hub.phase)
      && (s.hub.exit.Some? ==> s'.hub.exit == s.hub.exit && s'.hub.history == s.hub.history)
      && s.hub.history <= s'.hub.history
  {
    hide Inv, Next;
    if steps == [] {
    } else {
      var before := steps[..|steps| - 1];
      ProcessMovesForward(s, before);
      RunInv(s, before);
      NextProcess(Run(s, before).value, steps[|steps| - 1]);
    }
  }
}
