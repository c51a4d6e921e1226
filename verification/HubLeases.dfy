/**
 The controller lease over whole runs of the terminal hub: accepted input forms one block per lease in
 grant order, and a retired lease is never accepted again.
 */
module HubLeases {
  import opened Prelude
  import opened Replay
  import opened TerminalHub
  import opened HubInvariants
  import opened HubRuns

  // ---------- how one section changes the lease ----------

  predicate SameLease(a: Option<Lease>, b: Option<Lease>) {
    a.Some? && b.Some? && a.value.attachment == b.value.attachment && a.value.lease == b.value.lease
  }

  /** Nobody gained control. */
  predicate Kept(h: HubState, h': HubState) {
    && h'.grants == h.grants
    && (h'.controller.Some? ==> SameLease(h'.controller, h.controller))
    && h'.used >= h.used
  }

  /** Somebody was granted a lease that no one held before. */
  predicate Replaced(h: HubState, h': HubState) {
    && |h'.grants| == |h.grants| + 1
    && h'.grants[..|h.grants|] == h.grants
    && h'.grants[|h.grants|].lease !in h.used
    && h'.controller.Some?
    && h'.grants[|h.grants|] == GrantRecord(h'.controller.value.attachment, h'.controller.value.lease)
    && h'.used >= h.used
  }

  predicate Evolves(h: HubState, h': HubState) { Kept(h, h') || Replaced(h, h') }

  lemma RevokeKept(h: HubState, reason: Reason)
    requires h.registered <= h.subs.Keys
    ensures Kept(h, Revoke(h, reason)) && Revoke(h, reason).controller.None?
    ensures Revoke(h, reason).registered <= Revoke(h, reason).subs.Keys == h.subs.Keys
  {
  }

  lemma ExpireKept(h: HubState, now: int)
    requires h.registered <= h.subs.Keys
    ensures Kept(h, Expire(h, now))
    ensures Expire(h, now).registered <= Expire(h, now).subs.Keys == h.subs.Keys
  {
    RevokeKept(h, LeaseExpired);
  }

  lemma GrantReplaces(h0: HubState, h: HubState, id: Id, lease: Id, now: int)
    requires Kept(h0, h) && id in h.subs && lease !in h0.used
    ensures Replaced(h0, Grant(h, id, lease, now))
  {
  }

  lemma AttachEvolves(h: HubState, r: AttachRequest, now: int, id: Id, lease: Id, resizeOk: bool)
    requires h.registered <= h.subs.Keys && Precheck(r).None? && lease !in h.used
    ensures Evolves(h, Attach(h, r, now, id, lease, resizeOk).0)
  {
    hide Expire, Revoke, AttachRefusal, InitialFrames, StartPoint;
    var h1 := Expire(h, now);
    ExpireKept(h, now);
    if AttachRefusal(h1, r, resizeOk).None? {
      var h2 := Created(h1, r, id);
      assert Kept(h, h2);
      if r.role == Some(Control) {
        RevokeKept(h2, TakenOver);
        GrantReplaces(h, if r.takeover then Revoke(h2, TakenOver) else h2, id, lease, now);
      }
    }
  }

  lemma TakeoverEvolves(h: HubState, id: Id, lease: Id, now: int)
    requires h.registered <= h.subs.Keys && id in h.subs && lease !in h.used
    ensures Evolves(h, Takeover(h, id, lease, now).0)
  {
    hide Expire, Revoke;
    var h1 := Expire(h, now);
    ExpireKept(h, now);
    RevokeKept(h1, TakenOver);
    GrantReplaces(h, if Names(h1.controller, id) then h1 else Revoke(h1, TakenOver), id, lease, now);
  }

  lemma PublishExitKept(h: HubState, status: int)
    requires h.registered <= h.subs.Keys
    ensures Kept(h, PublishExit(h, status))
  {
    RevokeKept(h.(phase := Exited, exit := Some(Exit(status))), AgentStopped);
  }

  lemma NextEvolves(s: Sys, step: Step)
    requires s.hub.registered <= s.hub.subs.Keys && Next(s, step).Some?
    ensures Evolves(s.hub, Next(s, step).value.hub)
    ensures MuStep(s, step).Some? ==> Kept(s.hub, Next(s, step).value.hub)
  {
    hide Attach, Takeover, PublishExit, Expire, Append, Kept, Replaced, AttachEvents;
    if MuStep(s, step).Some? {
      MuStepKept(s, step);
    } else {
      match step
      case DoAttach(now, id, lease, resizeOk) => AttachEvolves(s.hub, s.control.value.op.request, now, id, lease, resizeOk);
      case DoTakeover(now, lease) => TakeoverEvolves(s.hub, s.control.value.op.id, lease, now);
      case DoExit => PublishExitKept(s.hub, s.control.value.op.status);
      case DoReap(now) => ExpireKept(s.hub, now);
      case DoAuthorize(now) => ExpireKept(s.hub, now);
      case DoDetach => DetachKept(s.hub, s.control.value.op.id);
      case DoRenew(now) => TouchKept(s.hub, s.control.value.op.id, now);
        KeptRefl(s.hub);
      case _ => KeptRefl(s.hub);
    }
  }

  lemma KeptRefl(h: HubState)
    ensures Kept(h, h)
  {
  }

  lemma TouchKept(h: HubState, id: Id, now: int)
    ensures Kept(h, Touch(h, id, now))
  {
  }

  lemma DetachKept(h: HubState, id: Id)
    ensures Kept(h, Detach(h, id))
  {
  }

  lemma MuStepKept(s: Sys, step: Step)
    requires s.hub.registered <= s.hub.subs.Keys && MuStep(s, step).Some?
    ensures Kept(s.hub, MuStep(s, step).value.hub)
  {
    hide Append;
  }

  // ---------- lease blocks ----------

  /** Accepted input is ordered by grant. */
  predicate InGrantOrder(accepted: seq<GrantRecord>, grants: seq<GrantRecord>) {
    && (forall k :: 0 <= k < |accepted| ==> accepted[k] in grants)
    && (forall i, j, p, q ::
          (0 <= i < j < |accepted| && 0 <= p < |grants| && 0 <= q < |grants|
           && grants[p] == accepted[i] && grants[q] == accepted[j]) ==> p <= q)
  }

  predicate DistinctLeases(grants: seq<GrantRecord>) {
    forall i, j :: 0 <= i < j < |grants| ==> grants[i].lease != grants[j].lease
  }

  /** In an ordered log each lease is one contiguous block: between two inputs of a lease there is only that lease. */
  lemma BlocksAreContiguous(accepted: seq<GrantRecord>, grants: seq<GrantRecord>, i: nat, k: nat, j: nat)
    requires InGrantOrder(accepted, grants) && DistinctLeases(grants)
    requires i < k < j < |accepted| && accepted[i].lease == accepted[j].lease
    ensures accepted[k] == accepted[i] == accepted[j]
  {
    var p :| 0 <= p < |grants| && grants[p] == accepted[i];
    var m :| 0 <= m < |grants| && grants[m] == accepted[k];
    var q :| 0 <= q < |grants| && grants[q] == accepted[j];
    assert p == q;
  }

  lemma AcceptCurrent(accepted: seq<GrantRecord>, grants: seq<GrantRecord>, record: GrantRecord)
    requires InGrantOrder(accepted, grants) && DistinctLeases(grants)
    requires grants != [] && record == grants[|grants| - 1]
    ensures InGrantOrder(accepted + [record], grants)
  {
    var longer := accepted + [record];
    forall i, j, p, q | 0 <= i < j < |longer| && 0 <= p < |grants| && 0 <= q < |grants|
      && grants[p] == longer[i] && grants[q] == longer[j]
      ensures p <= q
    {
      if j == |accepted| {
        assert q == |grants| - 1;
      }
    }
  }

  lemma GrantsGrow(accepted: seq<GrantRecord>, grants: seq<GrantRecord>, record: GrantRecord)
    requires InGrantOrder(accepted, grants)
    requires forall g :: g in grants ==> g.lease != record.lease
    ensures InGrantOrder(accepted, grants + [record])
  {
    var longer := grants + [record];
    forall i, j, p, q | 0 <= i < j < |accepted| && 0 <= p < |longer| && 0 <= q < |longer|
      && longer[p] == accepted[i] && longer[q] == accepted[j]
      ensures p <= q
    {
      assert accepted[i] in grants && accepted[j] in grants;
      assert p < |grants| && q < |grants|;
    }
  }

  lemma NextInGrantOrder(s: Sys, step: Step)
    requires Inv(s.hub) && InGrantOrder(s.accepted, s.hub.grants) && Next(s, step).Some?
    ensures InGrantOrder(Next(s, step).value.accepted, Next(s, step).value.hub.grants)
  {
    hide Sound, InGrantOrder, Represents, Next;
    InvWellFormed(s.hub);
    var s' := Next(s, step).value;
    NextEvolves(s, step);
    NextInv(s, step);
    AcceptedGrows(s, step);
    if s'.accepted == s.accepted {
      if Replaced(s.hub, s'.hub) {
        var record := s'.hub.grants[|s.hub.grants|];
        assert s'.hub.grants == s.hub.grants + [record];
        GrantsGrow(s.accepted, s.hub.grants, record);
      }
    } else {
      AcceptCurrent(s.accepted, s.hub.grants, s'.accepted[|s.accepted|]);
    }
  }

  /** The accepted log only grows, by an input of the attachment and lease that hold control at that moment. */
  lemma AcceptedGrows(s: Sys, step: Step)
    requires Inv(s.hub) && Next(s, step).Some?
    ensures
      var s' := Next(s, step).value;
      || s'.accepted == s.accepted
      || (&& s.hub.controller.Some?
          && s'.hub.grants == s.hub.grants
          && s'.accepted == s.accepted + [GrantRecord(s.hub.controller.value.attachment, s.hub.controller.value.lease)])
  {
    hide Sound, Represents, Attach, Takeover, PublishExit, Append, AttachEvents, Revoke, Broadcast;
    if MuStep(s, step).None? && ControlStep(s, step).None? && step.DoAuthorize? {
      ExpireKept(s.hub, step.now);
    }
  }

  /** In every run accepted input is a concatenation of lease blocks in grant order. */
  lemma {:induction false} AcceptedInputInLeaseBlocks(s: Sys, steps: seq<Step>)
    requires Inv(s.hub) && InGrantOrder(s.accepted, s.hub.grants) && Run(s, steps).Some?
    ensures InGrantOrder(Run(s, steps).value.accepted, Run(s, steps).value.hub.grants)
    ensures DistinctLeases(Run(s, steps).value.hub.grants)
  {
    hide Next, InGrantOrder, Represents, Sound;
    RunInv(s, steps);
    if steps == [] {
    } else {
      AcceptedInputInLeaseBlocks(s, steps[..|steps| - 1]);
      RunInv(s, steps[..|steps| - 1]);
      NextInGrantOrder(Run(s, steps[..|steps| - 1]).value, steps[|steps| - 1]);
    }
  }

  // ---------- retired leases ----------

  /** The lease was granted once and is no longer the controller's: replaced, revoked, expired, dropped or detached. */
  predicate Retired(h: HubState, lease: Id) {
    && (exists g :: g in h.grants && g.lease == lease)
    && !(h.controller.Some? && h.controller.value.lease == lease)
  }

  lemma NextRetired(s: Sys, step: Step, lease: Id)
    requires Inv(s.hub) && Retired(s.hub, lease) && Next(s, step).Some?
    ensures Retired(Next(s, step).value.hub, lease)
    ensures
      var s' := Next(s, step).value;
      && |s.accepted| <= |s'.accepted|
      && s'.accepted[..|s.accepted|] == s.accepted
      && forall k :: |s.accepted| <= k < |s'.accepted| ==> s'.accepted[k].lease != lease
  {
    hide Sound, Represents, Next;
    var s' := Next(s, step).value;
    NextEvolves(s, step);
    AcceptedGrows(s, step);
    var g :| g in s.hub.grants && g.lease == lease;
    var i :| 0 <= i < |s.hub.grants| && s.hub.grants[i] == g;
    assert s'.hub.grants[i] == g by {
      if Replaced(s.hub, s'.hub) {
        assert s'.hub.grants[..|s.hub.grants|][i] == s'.hub.grants[i];
      }
    }
    assert g in s'.hub.grants;
  }

  /** A lease that has been replaced, revoked or dropped never authorises input again. */
  lemma {:induction false} RetiredLeaseNeverAccepted(s: Sys, steps: seq<Step>, lease: Id)
    requires Inv(s.hub) && Retired(s.hub, lease) && Run(s, steps).Some?
    ensures Retired(Run(s, steps).value.hub, lease)
    ensures
      var s' := Run(s, steps).value;
      && |s.accepted| <= |s'.accepted|
      && s'.accepted[..|s.accepted|] == s.accepted
      && forall k :: |s.accepted| <= k < |s'.accepted| ==> s'.accepted[k].lease != lease
  {
    hide Next, Inv, Retired;
    if steps == [] {
    } else {
      var before := steps[..|steps| - 1];
      RetiredLeaseNeverAccepted(s, before, lease);
      RunInv(s, before);
      NextRetired(Run(s, before).value, steps[|steps| - 1], lease);
      var m, s' := Run(s, before).value, Run(s, steps).value;
      assert s'.accepted[..|s.accepted|] == s'.accepted[..|m.accepted|][..|s.accepted|];
      forall k | |s.accepted| <= k < |s'.accepted|
        ensures s'.accepted[k].lease != lease
      {
        if k < |m.accepted| {
          assert s'.accepted[..|m.accepted|][k] == m.accepted[k];
        }
      }
    }
  }
}
