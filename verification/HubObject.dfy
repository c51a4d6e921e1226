/**
 The hub object of internal/runner/hub.go: the same sections as methods that update fields in place.
 Each method leaves the state that the function of the same purpose in `TerminalHub` describes, and the
 operations keep the hub's invariant: every attachment's stream, exit frame and lease stay exact.
 */
module HubObject {
  import opened Prelude
  import opened Replay
  import opened TerminalHub
  import opened HubInvariants

  /** A broadcast that has reached the subscriptions in `done` only. */
  ghost function SentTo(h: HubState, done: set<Id>, f: Frame): HubState
    requires done <= h.registered <= h.subs.Keys
  {
    h.(subs := (map id | id in h.subs :: if id in done then Offered(h.subs[id], f, h.capacity) else h.subs[id]),
       registered := (set id | id in h.registered && !(id in done && Full(h, id))),
       controller :=
         if h.controller.Some? && h.controller.value.attachment in done && Full(h, h.controller.value.attachment)
         then None else h.controller)
  }

  lemma NoneSent(h: HubState, f: Frame)
    requires h.registered <= h.subs.Keys
    ensures SentTo(h, {}, f) == h
  {
    assert SentTo(h, {}, f).subs == h.subs;
    assert SentTo(h, {}, f).registered == h.registered;
  }

  lemma OneMoreSent(h: HubState, done: set<Id>, id: Id, f: Frame)
    requires done <= h.registered <= h.subs.Keys && id in h.registered && id !in done
    ensures id in SentTo(h, done, f).subs
    ensures Send(SentTo(h, done, f), id, f) == SentTo(h, done + {id}, f)
  {
    var a, b := Send(SentTo(h, done, f), id, f), SentTo(h, done + {id}, f);
    assert a.subs == b.subs;
    assert a.registered == b.registered;
  }

  lemma AllSent(h: HubState, f: Frame)
    requires h.registered <= h.subs.Keys
    ensures SentTo(h, h.registered, f) == Broadcast(h, f)
  {
    assert SentTo(h, h.registered, f).registered == Broadcast(h, f).registered;
  }

  class Hub {
    const capacity: nat
    const ttl: int
    const replay: ReplayBuffer
    var subs: map<Id, Subscription>
    var registered: set<Id>
    var controller: Option<Lease>
    var phase: Phase
    var exit: Option<Frame>
    ghost var used: set<Id>
    ghost var history: seq<Chunk>
    ghost var grants: seq<GrantRecord>

    ghost function State(): HubState
      reads this, replay
    {
      HubState(capacity, ttl, replay.Value(), subs, registered, controller, phase, exit, used, history, grants)
    }

    ghost predicate Valid()
      reads this, replay
    {
      replay.Valid() && registered <= subs.Keys
    }

    constructor (maxBytes: int, maxFrames: int, capacity: nat, ttl: int)
      ensures Valid() && fresh(replay)
      ensures State() == NewHub(maxBytes, maxFrames, capacity, ttl)
    {
      this.capacity, this.ttl := capacity, ttl;
      replay := new ReplayBuffer(maxBytes, maxFrames);
      subs, registered, controller, phase, exit := map[], {}, None, Starting, None;
      used, history, grants := {}, [], [];
    }

    method SendLocked(id: Id, f: Frame)
      requires Valid() && id in subs
      modifies this
      ensures Valid() && State() == Send(old(State()), id, f)
    {
      var s := subs[id];
      if |s.queue| < capacity {
        subs := subs[id := s.(queue := s.queue + [f])];
      } else {
        registered := registered - {id};
        if controller.Some? && controller.value.attachment == id {
          controller := None;
        }
        subs := subs[id := s.(closed := if s.closed.None? then Some(SlowConsumer) else s.closed)];
      }
    }

    /** The subscribers are visited in an arbitrary order, and each visit may drop one; the outcome does not depend on it. */
    method BroadcastLocked(f: Frame)
      requires Valid()
      modifies this
      ensures Valid() && State() == Broadcast(old(State()), f)
    {
      hide SentTo, Send, Broadcast;
      ghost var h := State();
      ghost var done: set<Id> := {};
      NoneSent(h, f);
      var todo := registered;
      while todo != {}
        invariant Valid() && done <= h.registered && todo == h.registered - done
        invariant State() == SentTo(h, done, f)
        decreases |todo|
      {
        var id :| id in todo;
        OneMoreSent(h, done, id, f);
        SendLocked(id, f);
        todo := todo - {id};
        done := done + {id};
      }
      assert done == h.registered;
      AllSent(h, f);
    }

    method RevokeControllerLocked(reason: Reason)
      requires Valid()
      modifies this
      ensures Valid() && subs.Keys == old(subs.Keys) && State() == Revoke(old(State()), reason)
      ensures Inv(old(State())) ==> Inv(State())
    {
      hide Inv;
      if Inv(State()) {
        RevokeInv(State(), reason);
      }
      if controller.None? {
        return;
      }
      var id := controller.value.attachment;
      if id in registered {
        subs := subs[id := subs[id].(role := Observe, lease := None)];
        SendLocked(id, Revoked(reason));
      }
      controller := None;
    }

    method ExpireControllerLocked(now: int)
      requires Valid()
      modifies this
      ensures Valid() && State() == Expire(old(State()), now)
      ensures Inv(old(State())) ==> Inv(State())
    {
      hide Inv;
      if Inv(State()) {
        ExpireInv(State(), now);
      }
      if controller.Some? && now >= controller.value.expiresAt {
        RevokeControllerLocked(LeaseExpired);
      }
    }

    method GrantControllerLocked(id: Id, leaseID: Id, now: int)
      requires Valid() && id in subs
      modifies this
      ensures Valid() && id in subs && State() == Grant(old(State()), id, leaseID, now)
    {
      var s := subs[id];
      subs := subs[id := s.(role := Control, lease := Some(leaseID),
                            acquired := if Names(controller, id) then s.acquired else s.acquired + 1)];
      controller := Some(Lease(id, leaseID, now + ttl));
      used, grants := used + {leaseID}, grants + [GrantRecord(id, leaseID)];
    }

    method CollectInitial(id: Id, cursor: Option<nat>) returns (initial: seq<Frame>)
      requires Valid() && id in subs
      ensures initial == InitialFrames(State(), id, subs[id].role, subs[id].lease, cursor)
    {
      hide After, Bounds, AsFrames;
      var earliest, latest := replay.ReplayBounds();
      initial := [Attached(id, subs[id].role, subs[id].lease, earliest, latest, phase)];
      if cursor.Some? {
        var frames, gap, _ := replay.ReplayAfter(cursor.value);
        ghost var head := initial;
        if gap {
          initial := initial + [ReplayGap(cursor.value, earliest, latest)];
        }
        initial := initial + AsFrames(frames);
        assert initial == head + ReplayFrames(State(), cursor.value);
      }
      if exit.Some? {
        initial := initial + [exit.value];
      }
    }

    /** attach under both locks; the role, size and permission checks come before. */
    method AttachLocked(r: AttachRequest, now: int, id: Id, leaseID: Id, resizeOk: bool) returns (result: Result<Id, ErrorCode>)
      requires Valid() && Precheck(r).None?
      modifies this
      ensures Valid() && (State(), result) == Attach(old(State()), r, now, id, leaseID, resizeOk)
      ensures Inv(old(State())) && id !in old(used) && leaseID !in old(used) && id != leaseID ==> Inv(State())
    {
      hide Inv, Expire, Revoke, Grant, Created, Registered, After;
      if Inv(State()) && id !in used && leaseID !in used && id != leaseID {
        AttachInv(State(), r, now, id, leaseID, resizeOk);
      }
      ExpireControllerLocked(now);
      if r.cursor.Some? {
        var _, _, valid := replay.ReplayAfter(r.cursor.value);
        if !valid {
          return Err(CursorInvalid);
        }
      }
      if r.role == Some(Control) && controller.Some? && !r.takeover {
        return Err(ControllerBusy);
      }
      if r.role == Some(Control) && phase == Running && !resizeOk {
        return Err(InvalidResize);
      }
      Subscribe(r, id);
      if r.role == Some(Control) {
        if r.takeover {
          RevokeControllerLocked(TakenOver);
        }
        GrantControllerLocked(id, leaseID, now);
      }
      Register(r.cursor, id);
      return Ok(id);
    }

    /** The new subscription object, not yet registered. */
    method Subscribe(r: AttachRequest, id: Id)
      requires Valid() && r.role.Some?
      modifies this
      ensures Valid() && id in subs && State() == Created(old(State()), r, id)
    {
      var first := replay.latest;
      if r.cursor.Some? {
        var frames, _, _ := replay.ReplayAfter(r.cursor.value);
        first := replay.latest - |frames|;
      }
      subs := subs[id := Subscription(r.role.value, None, r.control, [], [], None, [], first, 0)];
      used := used + {id};
    }

    method Register(cursor: Option<nat>, id: Id)
      requires Valid() && id in subs
      modifies this
      ensures Valid() && State() == Registered(old(State()), cursor, id)
    {
      var initial := CollectInitial(id, cursor);
      subs := subs[id := subs[id].(initial := initial)];
      registered := registered + {id};
    }

    method DetachLocked(id: Id)
      requires Valid()
      modifies this
      ensures Valid() && State() == Detach(old(State()), id)
      ensures Inv(old(State())) ==> Inv(State())
    {
      hide Inv;
      if Inv(State()) {
        DetachInv(State(), id);
      }
      if id !in registered {
        return;
      }
      registered := registered - {id};
      if controller.Some? && controller.value.attachment == id {
        controller := None;
      }
    }

    method TakeoverLocked(id: Id, leaseID: Id, now: int) returns (result: Result<Frame, ErrorCode>)
      requires Valid() && id in subs
      modifies this
      ensures Valid() && (State(), result) == Takeover(old(State()), id, leaseID, now)
      ensures Inv(old(State())) && leaseID !in old(used) ==> Inv(State())
    {
      hide Inv;
      if Inv(State()) && leaseID !in used {
        TakeoverInv(State(), id, leaseID, now);
      }
      if !subs[id].permitted {
        return Err(ForbiddenRole);
      }
      if id !in registered {
        return Err(AttachmentClosed);
      }
      ExpireControllerLocked(now);
      if controller.None? || controller.value.attachment != id {
        RevokeControllerLocked(TakenOver);
      }
      GrantControllerLocked(id, leaseID, now);
      var earliest, latest := replay.ReplayBounds();
      return Ok(Attached(id, Control, subs[id].lease, earliest, latest, phase));
    }

    method TouchLocked(id: Id, now: int)
      requires Valid()
      modifies this
      ensures Valid() && State() == Touch(old(State()), id, now)
      ensures Inv(old(State())) ==> Inv(State())
    {
      hide Inv;
      if Inv(State()) {
        TouchInv(State(), id, now);
      }
      if controller.Some? && controller.value.attachment == id {
        controller := Some(controller.value.(expiresAt := now + ttl));
      }
    }

    method AcknowledgeLocked(id: Id, sequence: nat, now: int) returns (refused: Option<ErrorCode>)
      requires Valid()
      modifies this
      ensures Valid() && (State(), refused) == Acknowledge(old(State()), id, sequence, now)
      ensures Inv(old(State())) ==> Inv(State())
    {
      hide Inv;
      if Inv(State()) {
        TouchInv(State(), id, now);
      }
      if id !in registered {
        return Some(AttachmentClosed);
      }
      if sequence > replay.latest {
        return Some(CursorInvalid);
      }
      TouchLocked(id, now);
      return None;
    }

    method AuthorizeControllerLocked(id: Id, leaseID: Id, now: int) returns (ok: bool)
      requires Valid()
      modifies this
      ensures Valid() && (State(), ok) == Authorize(old(State()), id, leaseID, now)
      ensures Inv(old(State())) ==> Inv(State())
    {
      hide Inv;
      if Inv(State()) {
        ExpireInv(State(), now);
      }
      ExpireControllerLocked(now);
      ok := controller.Some? && controller.value.attachment == id && controller.value.lease == leaseID;
    }

    /** The second section of input and resize, after the PTY call: other sections may have changed the lease meanwhile. */
    method RenewLocked(id: Id, leaseID: Id, now: int)
      requires Valid()
      modifies this
      ensures Valid() && State() == Renew(old(State()), id, leaseID, now)
      ensures Inv(old(State())) ==> Inv(State())
    {
      hide Inv;
      if Inv(State()) {
        TouchInv(State(), id, now);
      }
      if controller.Some? && controller.value.attachment == id && controller.value.lease == leaseID {
        controller := Some(controller.value.(expiresAt := now + ttl));
      }
    }

    /** hub.send: only what is still registered is sent to. */
    method ReplyLocked(id: Id, f: Frame)
      requires Valid()
      modifies this
      ensures Valid() && State() == Reply(old(State()), id, f)
      ensures Inv(old(State())) && !f.Output? && !f.Exit? && !f.Revoked? ==> Inv(State())
    {
      hide Inv;
      if Inv(State()) && !f.Output? && !f.Exit? && !f.Revoked? {
        ReplyInv(State(), id, f);
      }
      if id in registered {
        SendLocked(id, f);
      }
    }

    method SetProcessLocked()
      requires Valid()
      modifies this
      ensures Valid() && State() == SetProcess(old(State()))
      ensures Inv(old(State())) ==> Inv(State())
    {
      hide Inv;
      if Inv(State()) {
        SetProcessInv(State());
      }
      if phase == Starting {
        phase := Running;
      }
    }

    method PublishOutputLocked(data: Bytes)
      requires Valid()
      modifies this, replay
      ensures Valid() && State() == PublishOutput(old(State()), data)
      ensures Inv(old(State())) ==> Inv(State())
    {
      hide Inv;
      if Inv(State()) {
        PublishOutputInv(State(), data);
      }
      var chunk := replay.AppendData(data);
      history := history + [chunk];
      BroadcastLocked(Output(chunk));
    }

    method PublishExitLocked(status: int)
      requires Valid()
      modifies this
      ensures Valid() && State() == PublishExit(old(State()), status)
      ensures Inv(old(State())) ==> Inv(State())
    {
      hide Inv;
      if Inv(State()) {
        PublishExitInv(State(), status);
      }
      if exit.Some? {
        return;
      }
      phase, exit := Exited, Some(Exit(status));
      RevokeControllerLocked(AgentStopped);
      BroadcastLocked(Exit(status));
    }
  }
}
