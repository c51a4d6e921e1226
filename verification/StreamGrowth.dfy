/**
 What later steps can do to an existing subscription of the terminal hub: its start point and initial
 frames are fixed, and its stream only grows.
 */
module StreamGrowth {
  import opened Prelude
  import opened Replay
  import opened TerminalHub
  import opened HubInvariants
  import opened HubRuns

  /** The frames the connection's writer can already have written. */
  function OnWire(s: Subscription): seq<Frame> { s.initial + s.taken }

  /** The one refusal that would make a client throw its cursor away. */
  const CURSOR_ERROR := Error(CursorInvalid)

  predicate Clean(s: Subscription) { CURSOR_ERROR !in Stream(s) }

  predicate Grows(s: Subscription, t: Subscription) {
    && t.start == s.start
    && t.initial == s.initial
    && OnWire(s) <= OnWire(t)
    && Stream(s) <= Stream(t)
    && (Clean(s) ==> Clean(t))
  }

  lemma OfferedGrows(s: Subscription, f: Frame, capacity: nat)
    requires f != CURSOR_ERROR
    ensures Grows(s, Offered(s, f, capacity))
  {
    OfferedStream(s, f, capacity);
  }

  lemma TakeGrows(h: HubState, id: Id, j: Id)
    requires id in h.subs && h.subs[id].queue != [] && j in h.subs
    ensures Grows(h.subs[j], Take(h, id).subs[j])
  {
    if j == id {
      var s := h.subs[id];
      assert s.queue == [s.queue[0]] + s.queue[1..];
      assert Stream(Take(h, id).subs[id]) == Stream(s);
    }
  }

  lemma SendGrows(h: HubState, id: Id, f: Frame, j: Id)
    requires id in h.subs && j in h.subs && (f != CURSOR_ERROR || j != id)
    ensures Grows(h.subs[j], Send(h, id, f).subs[j])
  {
    hide Grows;
    if j == id {
      OfferedGrows(h.subs[j], f, h.capacity);
    }
    GrowsRefl(h.subs[j]);
  }

  lemma GrowsRefl(s: Subscription)
    ensures Grows(s, s)
  {
  }

  lemma GrowsTrans(s: Subscription, t: Subscription, u: Subscription)
    requires Grows(s, t) && Grows(t, u)
    ensures Grows(s, u)
  {
    hide OnWire, Stream;
  }

  /** Changing only the role and the lease is no growth at all. */
  lemma RoleGrows(s: Subscription, t: Subscription)
    requires t.start == s.start && t.initial == s.initial && t.taken == s.taken && t.queue == s.queue
    ensures Grows(s, t)
  {
  }

  lemma BroadcastGrows(h: HubState, f: Frame, j: Id)
    requires h.registered <= h.subs.Keys && j in h.subs && f != CURSOR_ERROR
    ensures j in Broadcast(h, f).subs && Grows(h.subs[j], Broadcast(h, f).subs[j])
  {
    hide Grows;
    OfferedGrows(h.subs[j], f, h.capacity);
    GrowsRefl(h.subs[j]);
  }

  lemma RevokeGrows(h: HubState, reason: Reason, j: Id)
    requires h.registered <= h.subs.Keys && j in h.subs
    ensures j in Revoke(h, reason).subs && Grows(h.subs[j], Revoke(h, reason).subs[j])
    ensures Revoke(h, reason).registered <= Revoke(h, reason).subs.Keys
  {
    hide Grows;
    GrowsRefl(h.subs[j]);
    if Names(h.controller, j) && j in h.registered {
      var s := h.subs[j].(role := Observe, lease := None);
      RoleGrows(h.subs[j], s);
      OfferedGrows(s, Revoked(reason), h.capacity);
      GrowsTrans(h.subs[j], s, Offered(s, Revoked(reason), h.capacity));
    }
  }

  lemma ExpireGrows(h: HubState, now: int, j: Id)
    requires h.registered <= h.subs.Keys && j in h.subs
    ensures j in Expire(h, now).subs && Grows(h.subs[j], Expire(h, now).subs[j])
    ensures Expire(h, now).registered <= Expire(h, now).subs.Keys
  {
    hide Grows, Revoke;
    GrowsRefl(h.subs[j]);
    RevokeGrows(h, LeaseExpired, j);
  }

  lemma GrantGrows(h: HubState, id: Id, lease: Id, now: int, j: Id)
    requires id in h.subs && j in h.subs
    ensures Grows(h.subs[j], Grant(h, id, lease, now).subs[j])
  {
    hide Grows;
    RoleGrows(h.subs[j], Grant(h, id, lease, now).subs[j]);
  }

  lemma LeasedGrows(h: HubState, r: AttachRequest, id: Id, lease: Id, now: int, j: Id)
    requires h.registered <= h.subs.Keys && id in h.subs && j in h.subs
    ensures j in Leased(h, r, id, lease, now).subs && Grows(h.subs[j], Leased(h, r, id, lease, now).subs[j])
  {
    hide Grows, Revoke;
    GrowsRefl(h.subs[j]);
    RevokeGrows(h, TakenOver, j);
    RevokeGrows(h, TakenOver, id);
    var h1 := if r.takeover then Revoke(h, TakenOver) else h;
    GrantGrows(h1, id, lease, now, j);
    GrowsTrans(h.subs[j], h1.subs[j], Grant(h1, id, lease, now).subs[j]);
  }

  lemma AttachGrows(h: HubState, r: AttachRequest, now: int, id: Id, lease: Id, resizeOk: bool, j: Id)
    requires h.registered <= h.subs.Keys && Precheck(r).None? && j in h.subs && id != j
    ensures
      var h' := Attach(h, r, now, id, lease, resizeOk).0;
      j in h'.subs && Grows(h.subs[j], h'.subs[j])
  {
    hide Grows, Expire, Leased, AttachRefusal, InitialFrames, StartPoint;
    var h1 := Expire(h, now);
    ExpireGrows(h, now, j);
    if AttachRefusal(h1, r, resizeOk).None? {
      var h2 := Created(h1, r, id);
      LeasedGrows(h2, r, id, lease, now, j);
      LeasedGrows(h2, r, id, lease, now, id);
      GrowsTrans(h.subs[j], h2.subs[j], Leased(h2, r, id, lease, now).subs[j]);
    }
  }

  lemma TakeoverGrows(h: HubState, id: Id, lease: Id, now: int, j: Id)
    requires h.registered <= h.subs.Keys && id in h.subs && j in h.subs
    ensures
      var h' := Takeover(h, id, lease, now).0;
      j in h'.subs && Grows(h.subs[j], h'.subs[j])
  {
    hide Grows, Expire, Revoke;
    GrowsRefl(h.subs[j]);
    var h1 := Expire(h, now);
    ExpireGrows(h, now, j);
    ExpireGrows(h, now, id);
    RevokeGrows(h1, TakenOver, j);
    RevokeGrows(h1, TakenOver, id);
    GrowsTrans(h.subs[j], h1.subs[j], Revoke(h1, TakenOver).subs[j]);
    var h2 := if Names(h1.controller, id) then h1 else Revoke(h1, TakenOver);
    GrantGrows(h2, id, lease, now, j);
    GrowsTrans(h.subs[j], h2.subs[j], Grant(h2, id, lease, now).subs[j]);
  }

  lemma PublishExitGrows(h: HubState, status: int, j: Id)
    requires h.registered <= h.subs.Keys && j in h.subs
    ensures j in PublishExit(h, status).subs && Grows(h.subs[j], PublishExit(h, status).subs[j])
  {
    hide Grows, Revoke, Broadcast;
    GrowsRefl(h.subs[j]);
    var h0 := h.(phase := Exited, exit := Some(Exit(status)));
    RevokeGrows(h0, AgentStopped, j);
    var h1 := Revoke(h0, AgentStopped);
    BroadcastGrows(h1, Exit(status), j);
    GrowsTrans(h.subs[j], h1.subs[j], Broadcast(h1, Exit(status)).subs[j]);
  }

  lemma AckGrows(h: HubState, id: Id, sequence: nat, now: int, j: Id)
    requires h.registered <= h.subs.Keys && j in h.subs
    requires j == id ==> sequence <= h.replay.latest
    ensures j in AckSection(h, id, sequence, now).subs && Grows(h.subs[j], AckSection(h, id, sequence, now).subs[j])
  {
    hide Grows;
    GrowsRefl(h.subs[j]);
    if id in h.registered && sequence > h.replay.latest {
      SendGrows(h, id, CURSOR_ERROR, j);
    }
  }

  lemma MuStepGrows(s: Sys, step: Step, j: Id)
    requires s.hub.registered <= s.hub.subs.Keys && j in s.hub.subs && MuStep(s, step).Some?
    requires step.DoAck? && step.id == j ==> step.sequence <= s.hub.replay.latest
    ensures
      var s' := MuStep(s, step).value;
      j in s'.hub.subs && Grows(s.hub.subs[j], s'.hub.subs[j])
  {
    hide Grows, Append, AckSection, Broadcast, Send;
    GrowsRefl(s.hub.subs[j]);
    match step
    case DoOutput(data) =>
      var chunk := Chunk(s.hub.replay.latest + 1, data);
      BroadcastGrows(s.hub.(replay := Append(s.hub.replay, data), history := s.hub.history + [chunk]), Output(chunk), j);
    case DoAck(id, sequence, now) => AckGrows(s.hub, id, sequence, now, j);
    case DoReply(id, f) =>
      if id in s.hub.registered {
        SendGrows(s.hub, id, f, j);
        SendKeys(s.hub, id, f);
      }
    case DoTake(id) => TakeGrows(s.hub, id, j);
    case _ =>
  }

  lemma SendKeys(h: HubState, id: Id, f: Frame)
    requires id in h.subs
    ensures Send(h, id, f).subs.Keys == h.subs.Keys
  {
  }

  /** Whatever happens in the hub, the stream of an existing attachment only grows; only an acknowledgement of its
      own that is ahead of the runner could add a cursor error to it. */
  lemma NextGrows(s: Sys, step: Step, j: Id)
    requires Inv(s.hub) && j in s.hub.subs && Next(s, step).Some?
    requires step.DoAck? && step.id == j ==> step.sequence <= s.hub.replay.latest
    ensures
      var s' := Next(s, step).value;
      j in s'.hub.subs && Grows(s.hub.subs[j], s'.hub.subs[j])
  {
    hide Grows, Sound, Represents, Attach, Takeover, PublishExit, Expire, AttachEvents, NewGrants, MuStep;
    GrowsRefl(s.hub.subs[j]);
    if MuStep(s, step).Some? {
      MuStepGrows(s, step, j);
    } else {
      match step
      case DoAttach(now, id, lease, resizeOk) =>
        AttachGrows(s.hub, s.control.value.op.request, now, id, lease, resizeOk, j);
      case DoTakeover(now, lease) => TakeoverGrows(s.hub, s.control.value.op.id, lease, now, j);
      case DoExit => PublishExitGrows(s.hub, s.control.value.op.status, j);
      case DoReap(now) => ExpireGrows(s.hub, now, j);
      case DoAuthorize(now) => ExpireGrows(s.hub, now, j);
      case _ =>
    }
  }

  lemma {:induction false} OutputsPrefix(fs: seq<Frame>, n: nat)
    requires n <= |fs|
    ensures Outputs(fs[..n]) <= Outputs(fs)
  {
    if n == |fs| {
      assert fs[..n] == fs;
    } else {
      OutputsPrefix(fs[..|fs| - 1], n);
      assert fs[..|fs| - 1][..n] == fs[..n];
    }
  }
}
