/**
 What the operations of the terminal hub answer and leave behind, told from the state before them: who is let in, who gets
 control and who loses it, and which frame reaches whom.
 */
module HubAnswers {
  import opened Prelude
  import opened Replay
  import opened TerminalHub
  import opened HubInvariants
  import opened HubRuns
  import Bridge

  /** Somebody holds a lease whose time is not over. */
  predicate Live(h: HubState, now: int) { h.controller.Some? && now < h.controller.value.expiresAt }

  predicate HoldsLive(h: HubState, id: Id, lease: Id, now: int) {
    Live(h, now) && h.controller.value.attachment == id && h.controller.value.lease == lease
  }

  // ---------- one frame for one attachment ----------

  /** The attachment was given the frame, or dropped because its queue was full. */
  predicate Given(h: HubState, h': HubState, id: Id, f: Frame)
    requires id in h.subs && id in h'.subs
  {
    var s, s' := h.subs[id], h'.subs[id];
    if |s.queue| < h.capacity then
      s'.queue == s.queue + [f] && s'.closed == s.closed && (id in h'.registered <==> id in h.registered)
    else
      s'.queue == s.queue && id !in h'.registered && s'.closed == Some(if s.closed.Some? then s.closed.value else SlowConsumer)
  }

  predicate Untouched(h: HubState, h': HubState, id: Id) {
    (id in h.subs <==> id in h'.subs) && (id in h.registered <==> id in h'.registered)
    && (id in h.subs && id in h'.subs ==> h'.subs[id] == h.subs[id])
  }

  /** A frame reaches exactly its attachment; a drop ends the lease of the dropped attachment and no other. */
  lemma SendReaches(h: HubState, id: Id, f: Frame)
    requires id in h.subs
    ensures
      var h' := Send(h, id, f);
      && id in h'.subs && Given(h, h', id, f)
      && (forall j :: j != id ==> Untouched(h, h', j))
      && h'.controller == (if Names(h.controller, id) && |h.subs[id].queue| >= h.capacity then None else h.controller)
  {
  }

  /** A broadcast gives the frame to exactly the registered attachments. */
  lemma BroadcastReaches(h: HubState, f: Frame)
    requires h.registered <= h.subs.Keys
    ensures
      var h' := Broadcast(h, f);
      && (forall j :: j in h.registered ==> j in h'.subs && Given(h, h', j, f))
      && (forall j :: j !in h.registered ==> Untouched(h, h', j))
      && (h'.controller.Some? <==>
            h.controller.Some? &&
            (h.controller.value.attachment in h.registered ==> |h.subs[h.controller.value.attachment].queue| < h.capacity))
      && (h'.controller.Some? ==> h'.controller == h.controller)
  {
  }

  /** An answer reaches an attachment exactly while it is registered. */
  lemma ReplyReaches(h: HubState, id: Id, f: Frame)
    requires h.registered <= h.subs.Keys
    ensures id in h.registered ==> id in Reply(h, id, f).subs && Given(h, Reply(h, id, f), id, f)
    ensures id !in h.registered ==> Reply(h, id, f) == h
  {
  }

  // ---------- losing control ----------

  /** A registered attachment is an observer without a lease now and was told why, or dropped. */
  predicate Demoted(h: HubState, h': HubState, j: Id, reason: Reason) {
    j in h.registered && j in h.subs ==>
      j in h'.subs && h'.subs[j].lease.None? && h'.subs[j].role == Observe && Given(h, h', j, Revoked(reason))
  }

  /** That happened to the holder of the lease and to nobody else. */
  ghost predicate Deposed(h: HubState, h': HubState, reason: Reason)
    requires h.registered <= h.subs.Keys && h.controller.Some?
  {
    var id := h.controller.value.attachment;
    Demoted(h, h', id, reason) && forall j :: j != id || j !in h.registered ==> Untouched(h, h', j)
  }

  lemma RevokeDeposes(h: HubState, reason: Reason)
    requires h.registered <= h.subs.Keys
    ensures Revoke(h, reason).controller.None?
    ensures h.controller.Some? ==> Deposed(h, Revoke(h, reason), reason)
    ensures h.controller.None? ==> Revoke(h, reason) == h
  {
  }

  /** A lease ends by time exactly when its time is over. */
  lemma ExpireExactly(h: HubState, now: int)
    requires h.registered <= h.subs.Keys
    ensures Expire(h, now).controller == if Live(h, now) then h.controller else None
    ensures h.controller.Some? && !Live(h, now) ==> Deposed(h, Expire(h, now), LeaseExpired)
    ensures h.controller.None? || Live(h, now) ==> Expire(h, now) == h
  {
    RevokeDeposes(h, LeaseExpired);
  }

  // ---------- input ----------

  /** Input and resize are authorised exactly for the holder of the lease, with that lease, before its time is over. */
  lemma AuthorizeExactly(h: HubState, id: Id, lease: Id, now: int)
    requires h.registered <= h.subs.Keys
    ensures Authorize(h, id, lease, now).1 <==> HoldsLive(h, id, lease, now)
    ensures Authorize(h, id, lease, now).0.controller == if Live(h, now) then h.controller else None
    ensures h.controller.Some? && !Live(h, now) ==> Deposed(h, Authorize(h, id, lease, now).0, LeaseExpired)
  {
    hide Expire;
    ExpireExactly(h, now);
  }

  /** An input about to be decided. */
  predicate Deciding(s: Sys, step: Step) {
    && step.DoAuthorize? && s.control.Some? && s.control.value.stage == Locked && s.control.value.op.OpInput?
  }

  /** A step accepts input exactly when it decides one of the holder of a live lease; nothing else is ever accepted. */
  lemma StepAcceptsExactly(s: Sys, step: Step)
    requires s.hub.registered <= s.hub.subs.Keys && Next(s, step).Some?
    ensures
      var s' := Next(s, step).value;
      if Deciding(s, step) && HoldsLive(s.hub, s.control.value.op.id, s.control.value.op.lease, step.now) then
        s'.accepted == s.accepted + [GrantRecord(s.control.value.op.id, s.control.value.op.lease)]
      else s'.accepted == s.accepted
  {
    hide MuStep, ControlStep, Authorize;
    if MuStep(s, step).Some? {
      OthersAcceptNothing(s, step);
    } else if ControlStep(s, step).Some? {
      OthersAcceptNothing(s, step);
    } else if step.DoAuthorize? {
      AuthorizeExactly(s.hub, s.control.value.op.id, s.control.value.op.lease, step.now);
    }
  }

  lemma OthersAcceptNothing(s: Sys, step: Step)
    requires s.hub.registered <= s.hub.subs.Keys && (MuStep(s, step).Some? || ControlStep(s, step).Some?)
    ensures !step.DoAuthorize?
    ensures MuStep(s, step).Some? ==> MuStep(s, step).value.accepted == s.accepted
    ensures ControlStep(s, step).Some? ==> ControlStep(s, step).value.accepted == s.accepted
  {
    hide PublishOutput, Reply, Touch, Take, AckSection, SetProcess, Attach, Takeover, Detach, PublishExit, Expire, AttachEvents, NewGrants;
  }

  /** Nobody waits with an input of more than a mebibyte. */
  predicate NoOversized(s: Sys) {
    s.control.Some? && s.control.value.op.OpInput? ==> |s.control.value.op.data| <= 1048576
  }

  lemma NextNoOversized(s: Sys, step: Step)
    requires s.hub.registered <= s.hub.subs.Keys && NoOversized(s) && Next(s, step).Some?
    ensures NoOversized(Next(s, step).value)
  {
    hide PublishOutput, Reply, Touch, Take, AckSection, SetProcess, Attach, Takeover, Detach, PublishExit, Expire, AttachEvents, NewGrants,
         Renew;
  }

  /** Input of a known attachment waits for its decision exactly while nobody else does and it is at most a mebibyte. */
  lemma InputWaitsExactly(s: Sys, thread: nat, id: Id, lease: Id, data: Bytes)
    requires s.hub.registered <= s.hub.subs.Keys && id in s.hub.subs
    ensures Next(s, DoAcquire(thread, OpInput(id, lease, data))).Some? <==> s.control.None? && |data| <= 1048576
  {
  }

  /** Input of more than a mebibyte is never decided, let alone accepted. */
  lemma {:induction false} OversizedIsNeverDecided(s: Sys, steps: seq<Step>, step: Step)
    requires Inv(s.hub) && NoOversized(s) && Run(s, steps).Some?
    ensures NoOversized(Run(s, steps).value)
    ensures Deciding(Run(s, steps).value, step) ==> |Run(s, steps).value.control.value.op.data| <= 1048576
  {
    hide Next, Inv;
    if steps == [] {
    } else {
      var before := steps[..|steps| - 1];
      OversizedIsNeverDecided(s, before, step);
      RunInv(s, before);
      InvWellFormed(Run(s, before).value.hub);
      NextNoOversized(Run(s, before).value, steps[|steps| - 1]);
    }
  }

  /** The step that accepted the k-th input of a run. */
  ghost predicate AcceptedAt(s: Sys, steps: seq<Step>, n: nat, record: GrantRecord) {
    && n < |steps| && Run(s, steps[..n]).Some?
    && var m := Run(s, steps[..n]).value;
    && Deciding(m, steps[n]) && HoldsLive(m.hub, record.attachment, record.lease, steps[n].now)
    && m.control.value.op.id == record.attachment && m.control.value.op.lease == record.lease
  }

  /** In every run each accepted input was one, at the moment it was decided, of the holder of a lease whose time was not over. */
  lemma {:induction false} AcceptedWasLive(s: Sys, steps: seq<Step>, k: nat) returns (n: nat)
    requires Inv(s.hub) && Run(s, steps).Some? && |s.accepted| <= k < |Run(s, steps).value.accepted|
    ensures AcceptedAt(s, steps, n, Run(s, steps).value.accepted[k])
  {
    hide Next, Inv, Deciding, HoldsLive;
    var before := steps[..|steps| - 1];
    RunInv(s, before);
    var m := Run(s, before).value;
    InvWellFormed(m.hub);
    StepAcceptsExactly(m, steps[|steps| - 1]);
    if k < |m.accepted| {
      n := AcceptedWasLive(s, before, k);
      assert before[..n] == steps[..n];
    } else {
      n := |before|;
    }
  }

  // ---------- takeover ----------

  /** The attachment has control with a fresh lease for a whole term. */
  predicate InControl(h: HubState, id: Id, lease: Id, now: int) {
    && h.controller == Some(Lease(id, lease, now + h.ttl))
    && id in h.subs && h.subs[id].role == Control && h.subs[id].lease == Some(lease)
  }

  /** A takeover succeeds exactly for a registered attachment that may control, whoever held the lease. It answers with the new
      lease, and another registered holder has none any more and is told so, or dropped. */
  lemma TakeoverTakesControl(h: HubState, id: Id, lease: Id, now: int)
    requires h.registered <= h.subs.Keys && id in h.subs
    ensures
      var (h', answer) := Takeover(h, id, lease, now);
      && (answer.Ok? <==> h.subs[id].permitted && id in h.registered)
      && (!h.subs[id].permitted ==> answer == Err(ForbiddenRole))
      && (h.subs[id].permitted && id !in h.registered ==> answer == Err(AttachmentClosed))
      && (answer.Err? ==> h' == h)
      && (answer.Ok? ==>
            && InControl(h', id, lease, now)
            && answer.value.Attached? && answer.value.attachment == id && answer.value.role == Control
            && answer.value.leaseId == Some(lease) && answer.value.phase == h.phase
            && (answer.value.earliest, answer.value.latest) == Bounds(h.replay)
            && (h.controller.Some? && h.controller.value.attachment != id ==>
                  Demoted(h, h', h.controller.value.attachment, if Live(h, now) then TakenOver else LeaseExpired)))
  {
    hide Revoke, Expire;
    ExpireExactly(h, now);
    ExpireKeepsRest(h, now);
    RevokeDeposes(Expire(h, now), TakenOver);
    RevokeKeepsRest(Expire(h, now), TakenOver);
  }

  lemma RevokeKeepsRest(h: HubState, reason: Reason)
    requires h.registered <= h.subs.Keys
    ensures
      var h' := Revoke(h, reason);
      && h'.subs.Keys == h.subs.Keys && h'.registered <= h'.subs.Keys && h'.capacity == h.capacity
      && h'.replay == h.replay && h'.ttl == h.ttl && h'.phase == h.phase && h'.exit == h.exit
  {
  }

  lemma ExpireKeepsRest(h: HubState, now: int)
    requires h.registered <= h.subs.Keys
    ensures
      var h' := Expire(h, now);
      && h'.subs.Keys == h.subs.Keys && h'.registered <= h'.subs.Keys && h'.capacity == h.capacity
      && h'.replay == h.replay && h'.ttl == h.ttl && h'.phase == h.phase && h'.exit == h.exit
  {
    RevokeKeepsRest(h, LeaseExpired);
  }

  // ---------- attach ----------

  /** Who may attach at all: a known role and a valid size, permission to observe, and to control for control. */
  lemma MayAttachExactly(r: AttachRequest)
    ensures Precheck(r).None? <==> r.role.Some? && r.sizeValid && r.observe && (r.role == Some(Control) ==> r.control)
    ensures Precheck(r) == Some(InvalidTerminalSize) <==> r.role.Some? && !r.sizeValid
    ensures Precheck(r).Some? ==> Precheck(r).value in {ForbiddenRole, InvalidTerminalSize}
  {
  }

  /** Why an attach is refused: a cursor ahead of the output, then somebody else's live lease without a takeover, then a
      terminal that cannot be resized. */
  lemma AttachAnswers(h: HubState, r: AttachRequest, now: int, id: Id, lease: Id, resizeOk: bool)
    requires h.registered <= h.subs.Keys && Precheck(r).None?
    ensures
      var answer := Attach(h, r, now, id, lease, resizeOk).1;
      var ahead := r.cursor.Some? && r.cursor.value > h.replay.latest;
      var busy := r.role == Some(Control) && Live(h, now) && !r.takeover;
      var unsized := r.role == Some(Control) && h.phase == Running && !resizeOk;
      && (answer == Ok(id) <==> !ahead && !busy && !unsized)
      && (answer == Err(CursorInvalid) <==> ahead)
      && (answer == Err(ControllerBusy) <==> !ahead && busy)
      && (answer == Err(InvalidResize) <==> !ahead && !busy && unsized)
  {
    hide Expire, Leased, Created, Registered, Newer;
    ExpireExactly(h, now);
    ExpireKeepsRest(h, now);
  }

  /** An accepted attachment is registered with an empty queue. Control comes with a fresh lease for a whole term; an observer
      has none, and a live lease stays where it is. The first frame says all this and how far the output reaches. */
  lemma AttachAdmits(h: HubState, r: AttachRequest, now: int, id: Id, lease: Id, resizeOk: bool)
    requires WellFormed(h) && Precheck(r).None? && id !in h.used && lease !in h.used && id != lease
    requires Attach(h, r, now, id, lease, resizeOk).1.Ok?
    ensures
      var h' := Attach(h, r, now, id, lease, resizeOk).0;
      && id in h'.registered && id in h'.subs && h'.subs[id].role == r.role.value && h'.subs[id].permitted == r.control
      && h'.subs[id].queue == [] && h'.subs[id].closed.None?
      && (if r.role == Some(Control) then InControl(h', id, lease, now)
          else h'.subs[id].lease.None? && h'.controller == if Live(h, now) then h.controller else None)
      && h'.subs[id].initial != []
      && h'.subs[id].initial[0] ==
         Attached(id, r.role.value, h'.subs[id].lease, Bounds(h.replay).0, Bounds(h.replay).1, h.phase)
      && (r.role == Some(Control) && h.controller.Some? ==>
            Demoted(h, h', h.controller.value.attachment, if Live(h, now) then TakenOver else LeaseExpired))
  {
    hide Revoke, Expire, Represents, After, ReplayFrames, Bounds, StartPoint;
    ExpireExactly(h, now);
    ExpireKeepsRest(h, now);
    var h1 := Expire(h, now);
    var h2 := Created(h1, r, id);
    RevokeDeposes(h2, TakenOver);
    RevokeKeepsRest(h2, TakenOver);
  }

  /** A bridge that is not asked to take over leaves a live holder in control and stops for its user; one that is takes control. */
  lemma BridgeYields(h: HubState, b: Bridge.BridgeState, takeover: bool, now: int, id: Id, lease: Id, resizeOk: bool)
    requires WellFormed(h) && id !in h.used && lease !in h.used && id != lease
    requires Live(h, now) && (b.cursor.Some? ==> b.cursor.value <= h.replay.latest) && (h.phase == Running ==> resizeOk)
    ensures
      var (h', answer) := Attach(h, Bridge.Request(b, takeover), now, id, lease, resizeOk);
      if takeover then answer == Ok(id) && InControl(h', id, lease, now)
      else answer == Err(ControllerBusy) && h' == h && Bridge.ErrorVerdict(ControllerBusy) == Bridge.Stop
  {
    hide Attach, WellFormed;
    var r := Bridge.Request(b, takeover);
    WellFormedRegistered(h);
    AttachAnswers(h, r, now, id, lease, resizeOk);
    if takeover {
      AttachAdmits(h, r, now, id, lease, resizeOk);
    } else {
      RefusedAttachLeaves(h, r, now, id, lease, resizeOk);
    }
  }

  lemma WellFormedRegistered(h: HubState)
    requires WellFormed(h)
    ensures h.registered <= h.subs.Keys
  {
  }

  /** A new connection forgets the lease and the acknowledgements of the last one, and keeps cursor and generation. */
  lemma DialForgets(b: Bridge.BridgeState)
    ensures Bridge.Dial(b) == Bridge.BridgeState(b.cursor, b.generation, None, b.notes + [Bridge.Dialled], {})
  {
  }

  /** A refused attach changes nothing but to end a lease whose time is over. */
  lemma RefusedAttachLeaves(h: HubState, r: AttachRequest, now: int, id: Id, lease: Id, resizeOk: bool)
    requires h.registered <= h.subs.Keys && Precheck(r).None? && Attach(h, r, now, id, lease, resizeOk).1.Err?
    ensures
      var h' := Attach(h, r, now, id, lease, resizeOk).0;
      if h.controller.None? || Live(h, now) then h' == h else h'.controller.None? && Deposed(h, h', LeaseExpired)
  {
    hide Expire, Leased, Created, Registered, AttachRefusal;
    ExpireExactly(h, now);
  }

  /** The second frame announces what is missing behind the cursor, with the bounds of what is retained. */
  lemma GapAnnounced(h: HubState, id: Id, role: Role, lease: Option<Id>, cursor: nat)
    requires WellFormed(h) && cursor <= |h.history|
    ensures
      var frames := InitialFrames(h, id, role, lease, Some(cursor));
      var start := StartPoint(h, Some(cursor));
      if start > cursor then
        |frames| > 1 && frames[1] == ReplayGap(cursor, Bounds(h.replay).0, Bounds(h.replay).1)
      else |frames| > 1 ==> !frames[1].ReplayGap?
  {
    hide After, Bounds, Represents;
    AfterValid(h, cursor);
    StartPointBounds(h, Some(cursor));
    assert h.exit.Some? ==> h.exit.value.Exit?;
  }

  lemma AfterValid(h: HubState, cursor: nat)
    requires WellFormed(h) && cursor <= |h.history|
    ensures After(h.replay, cursor).valid
  {
    hide After, Evicted;
    AfterExact(h.replay, h.history, cursor);
  }

  /** The bounds a client is told: the first retained sequence and the latest one. */
  lemma BoundsExactly(b: Buffer, history: seq<Chunk>)
    requires Represents(b, history)
    ensures Bounds(b).1 == |history|
    ensures
      var evicted := Evicted(b.maxBytes, b.maxFrames, history);
      Bounds(b).0 == if evicted < |history| then evicted + 1 else |history|
  {
  }

  // ---------- keeping control ----------

  /** The term of the lease is renewed exactly for its holder: by any sign of life, by an acknowledgement that is not ahead, and
      after a PTY call if the lease is still the same. */
  lemma RenewsExactly(h: HubState, id: Id, lease: Id, sequence: nat, now: int)
    ensures Touch(h, id, now) == if Names(h.controller, id) then Extended(h, now) else h
    ensures Renew(h, id, lease, now) == if Names(h.controller, id) && h.controller.value.lease == lease then Extended(h, now) else h
    ensures
      var (h', refused) := Acknowledge(h, id, sequence, now);
      && (refused.None? <==> id in h.registered && sequence <= h.replay.latest)
      && (refused == Some(AttachmentClosed) <==> id !in h.registered)
      && (refused == Some(CursorInvalid) <==> id in h.registered && sequence > h.replay.latest)
      && h' == if refused.None? && Names(h.controller, id) then Extended(h, now) else h
  {
  }

  function Extended(h: HubState, now: int): HubState {
    if h.controller.None? then h else h.(controller := Some(h.controller.value.(expiresAt := now + h.ttl)))
  }

  /** Detaching takes the attachment and its lease away, once, and nothing of anybody else. */
  lemma DetachExactly(h: HubState, id: Id)
    ensures
      var h' := Detach(h, id);
      && id !in h'.registered && Detach(h', id) == h'
      && (forall j :: j != id ==> Untouched(h, h', j))
      && h'.controller == (if id in h.registered && Names(h.controller, id) then None else h.controller)
  {
  }

  // ---------- output and exit ----------

  /** One read of the process is the next frame for exactly the registered attachments. */
  lemma OutputReaches(h: HubState, data: Bytes)
    requires h.registered <= h.subs.Keys
    ensures
      var h' := PublishOutput(h, data);
      && h'.replay.latest == h.replay.latest + 1
      && (forall j :: j in h.registered ==> j in h'.subs && Given(h, h', j, Output(Chunk(h.replay.latest + 1, data))))
      && (forall j :: j !in h.registered ==> Untouched(h, h', j))
  {
    hide Trimmed;
    BroadcastReaches(h.(replay := Append(h.replay, data), history := h.history + [Chunk(h.replay.latest + 1, data)]),
                     Output(Chunk(h.replay.latest + 1, data)));
  }

  /** The first exit ends the lease and reaches every registered attachment, the holder after its notice; a later one does
      nothing. */
  lemma ExitReaches(h: HubState, status: int)
    requires h.registered <= h.subs.Keys
    ensures
      var h' := PublishExit(h, status);
      && (h.exit.Some? ==> h' == h)
      && (h.exit.None? ==>
            && h'.phase == Exited && h'.exit == Some(Exit(status)) && h'.controller.None?
            && (forall j :: j in h.registered && !Names(h.controller, j) ==> j in h'.subs && Given(h, h', j, Exit(status)))
            && (forall j :: j in h.registered && Names(h.controller, j) ==>
                  j in h'.subs && h'.subs[j].lease.None? &&
                  (|h.subs[j].queue| + 1 < h.capacity ==>
                     h'.subs[j].queue == h.subs[j].queue + [Revoked(AgentStopped), Exit(status)])))
  {
    hide Revoke, Broadcast;
    var h1 := h.(phase := Exited, exit := Some(Exit(status)));
    RevokeDeposes(h1, AgentStopped);
    RevokeKeepsRest(h1, AgentStopped);
    BroadcastReaches(Revoke(h1, AgentStopped), Exit(status));
    BroadcastKeepsRest(Revoke(h1, AgentStopped), Exit(status));
  }

  lemma BroadcastKeepsRest(h: HubState, f: Frame)
    requires h.registered <= h.subs.Keys
    ensures Broadcast(h, f).phase == h.phase && Broadcast(h, f).exit == h.exit
    ensures forall j :: j in h.subs ==> j in Broadcast(h, f).subs && Broadcast(h, f).subs[j].lease == h.subs[j].lease
  {
  }

  /** A process that is set is running, unless it has exited already. */
  lemma SetProcessExactly(h: HubState)
    ensures SetProcess(h) == h.(phase := if h.phase == Exited then Exited else Running)
  {
  }
}
