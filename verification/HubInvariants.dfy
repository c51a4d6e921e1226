/**
 What every operation of the terminal hub keeps: the exact hand-over from replay to live output,
 the exit discipline and the lease bookkeeping of every attachment.
 */
module HubInvariants {
  import opened Prelude
  import opened Replay
  import opened TerminalHub

  // ---------- reading a frame stream ----------

  function Outputs(fs: seq<Frame>): seq<Chunk> {
    if fs == [] then []
    else Outputs(fs[..|fs| - 1]) + (if fs[|fs| - 1].Output? then [fs[|fs| - 1].chunk] else [])
  }

  function Exits(fs: seq<Frame>): nat {
    if fs == [] then 0 else Exits(fs[..|fs| - 1]) + (if fs[|fs| - 1].Exit? then 1 else 0)
  }

  function Revocations(fs: seq<Frame>): nat {
    if fs == [] then 0 else Revocations(fs[..|fs| - 1]) + (if fs[|fs| - 1].Revoked? then 1 else 0)
  }

  lemma StreamAppend(fs: seq<Frame>, f: Frame)
    ensures Outputs(fs + [f]) == Outputs(fs) + (if f.Output? then [f.chunk] else [])
    ensures Exits(fs + [f]) == Exits(fs) + (if f.Exit? then 1 else 0)
    ensures Revocations(fs + [f]) == Revocations(fs) + (if f.Revoked? then 1 else 0)
  {
    assert (fs + [f])[..|fs|] == fs;
  }

  lemma EmptyStream()
    ensures Outputs([]) == [] && Exits([]) == 0 && Revocations([]) == 0
  {
  }

  lemma {:induction false} ReplayedStream(fs: seq<Frame>, chunks: seq<Chunk>)
    ensures Outputs(fs + AsFrames(chunks)) == Outputs(fs) + chunks
    ensures Exits(fs + AsFrames(chunks)) == Exits(fs)
    ensures Revocations(fs + AsFrames(chunks)) == Revocations(fs)
  {
    hide Outputs, Exits, Revocations;
    if chunks == [] {
      assert fs + AsFrames(chunks) == fs;
    } else {
      var last := |chunks| - 1;
      ReplayedStream(fs, chunks[..last]);
      StreamAppend(fs + AsFrames(chunks[..last]), Output(chunks[last]));
      assert fs + AsFrames(chunks) == (fs + AsFrames(chunks[..last])) + [Output(chunks[last])];
      assert chunks == chunks[..last] + [chunks[last]];
    }
  }

  /** Everything an attachment was ever given: its initial frames, then all frames ever queued to it. */
  function Stream(s: Subscription): seq<Frame> {
    s.initial + s.taken + s.queue
  }

  lemma StreamFrame(s: Subscription, t: Subscription)
    requires t.initial == s.initial && t.taken == s.taken && t.queue == s.queue
    ensures Stream(t) == Stream(s)
  {
  }

  lemma OfferedStream(s: Subscription, f: Frame, capacity: nat)
    ensures Stream(Offered(s, f, capacity)) == if |s.queue| < capacity then Stream(s) + [f] else Stream(s)
  {
    assert Stream(s.(queue := s.queue + [f])) == Stream(s) + [f];
  }

  // ---------- the invariant ----------

  predicate WellFormed(h: HubState) {
    && h.registered <= h.subs.Keys <= h.used
    && (h.controller.Some? ==>
          && h.controller.value.attachment in h.subs
          && h.grants != []
          && h.grants[|h.grants| - 1] == GrantRecord(h.controller.value.attachment, h.controller.value.lease))
    && (forall i :: 0 <= i < |h.grants| ==> h.grants[i].lease in h.used)
    && (forall i, j :: 0 <= i < j < |h.grants| ==> h.grants[i].lease != h.grants[j].lease)
    && Represents(h.replay, h.history)
    && (h.phase == Exited <==> h.exit.Some?)
    && (h.exit.Some? ==> h.exit.value.Exit?)
  }

  /** The stream is a gapless piece of the output history, and reaches its end while the attachment is registered. */
  predicate StreamExact(h: HubState, id: Id)
    requires id in h.subs
  {
    var s := h.subs[id];
    var outputs := Outputs(Stream(s));
    && 0 <= s.start
    && s.start + |outputs| <= |h.history|
    && outputs == h.history[s.start..s.start + |outputs|]
    && (id in h.registered ==> s.start + |outputs| == |h.history|)
  }

  predicate ExitExact(h: HubState, id: Id)
    requires id in h.subs
  {
    var exits := Exits(Stream(h.subs[id]));
    && exits <= 1
    && (exits == 1 ==> h.exit.Some?)
    && (id in h.registered && h.exit.Some? ==> exits == 1)
  }

  /** The attachment and the hub agree on the lease, and every acquisition but a current one was followed by a notice. */
  predicate LeaseExact(h: HubState, id: Id)
    requires id in h.subs
  {
    var s := h.subs[id];
    id in h.registered ==>
      && (s.lease.Some? <==> Names(h.controller, id))
      && (s.lease.Some? ==> s.lease.value == h.controller.value.lease)
      && (s.role == Control <==> s.lease.Some?)
      && s.acquired == Revocations(Stream(s)) + (if Names(h.controller, id) then 1 else 0)
  }

  predicate Sound(h: HubState, id: Id)
    requires id in h.subs
  {
    StreamExact(h, id) && ExitExact(h, id) && LeaseExact(h, id)
  }

  predicate Inv(h: HubState) {
    && WellFormed(h)
    && forall id :: id in h.subs ==> Sound(h, id)
  }

  // ---------- the parts of an operation, one attachment at a time ----------

  lemma SendSound(h: HubState, id: Id, f: Frame, j: Id)
    requires WellFormed(h) && id in h.subs && j in h.subs && Sound(h, j)
    requires !f.Output? && !f.Exit? && !f.Revoked?
    ensures Sound(Send(h, id, f), j)
  {
    hide Represents, Outputs, Exits, Revocations, Stream;
    if j == id {
      OfferedStream(h.subs[j], f, h.capacity);
      StreamAppend(Stream(h.subs[j]), f);
    }
  }

  /** Revoking the lease of a registered attachment, as seen by that attachment. */
  lemma RevokedController(h: HubState, reason: Reason, j: Id)
    requires WellFormed(h) && j in h.registered && Names(h.controller, j)
    ensures
      var s, s' := h.subs[j], Revoke(h, reason).subs[j];
      && Stream(s') == (if Full(h, j) then Stream(s) else Stream(s) + [Revoked(reason)])
      && s'.start == s.start && s'.acquired == s.acquired && s'.role == Observe && s'.lease.None?
      && (j in Revoke(h, reason).registered <==> !Full(h, j))
  {
    hide Represents, Stream;
    var s := h.subs[j].(role := Observe, lease := None);
    StreamFrame(h.subs[j], s);
    OfferedStream(s, Revoked(reason), h.capacity);
  }

  lemma RevokeSound(h: HubState, reason: Reason, j: Id)
    requires WellFormed(h) && j in h.subs && Sound(h, j)
    ensures j in Revoke(h, reason).subs && Sound(Revoke(h, reason), j)
  {
    hide Represents, Outputs, Exits, Revocations, Stream;
    if Names(h.controller, j) && j in h.registered {
      RevokedSound(h, reason, j);
    }
  }

  lemma RevokedSound(h: HubState, reason: Reason, j: Id)
    requires WellFormed(h) && j in h.registered && Names(h.controller, j) && Sound(h, j)
    ensures Sound(Revoke(h, reason), j)
  {
    hide Represents, Outputs, Exits, Revocations, Stream, Revoke;
    RevokedController(h, reason, j);
    RevokeKeepsHistory(h, reason);
    StreamAppend(Stream(h.subs[j]), Revoked(reason));
  }

  lemma RevokeKeepsHistory(h: HubState, reason: Reason)
    requires h.registered <= h.subs.Keys
    ensures Revoke(h, reason).history == h.history && Revoke(h, reason).exit == h.exit
    ensures Revoke(h, reason).controller.None? && Revoke(h, reason).subs.Keys == h.subs.Keys
  {
  }

  lemma RevokeWellFormed(h: HubState, reason: Reason)
    requires WellFormed(h)
    ensures WellFormed(Revoke(h, reason))
  {
  }

  lemma RevokeInv(h: HubState, reason: Reason)
    requires Inv(h)
    ensures Inv(Revoke(h, reason)) && Revoke(h, reason).controller.None?
    ensures Revoke(h, reason).subs.Keys == h.subs.Keys && Revoke(h, reason).used == h.used
    ensures Revoke(h, reason).registered <= h.registered
  {
    hide Sound, Represents;
    RevokeWellFormed(h, reason);
    forall j | j in Revoke(h, reason).subs
      ensures Sound(Revoke(h, reason), j)
    {
      RevokeSound(h, reason, j);
    }
  }

  lemma ExpireInv(h: HubState, now: int)
    requires Inv(h)
    ensures Inv(Expire(h, now)) && !Expired(Expire(h, now), now)
    ensures Expire(h, now).subs.Keys == h.subs.Keys && Expire(h, now).used == h.used
    ensures Expire(h, now).registered <= h.registered
  {
    RevokeInv(h, LeaseExpired);
  }

  /** A lease is granted only while no other attachment holds one. */
  lemma GrantInv(h: HubState, id: Id, lease: Id, now: int)
    requires Inv(h) && id in h.subs && lease !in h.used
    requires h.controller.None? || Names(h.controller, id)
    ensures Inv(Grant(h, id, lease, now))
  {
    hide Represents, Outputs, Exits, Revocations;
    var h' := Grant(h, id, lease, now);
    forall j | j in h'.subs
      ensures Sound(h', j)
    {
      assert Sound(h, j);
      assert Stream(h'.subs[j]) == Stream(h.subs[j]);
    }
    assert h'.registered <= h'.subs.Keys <= h'.used;
    forall i, j | 0 <= i < j < |h'.grants|
      ensures h'.grants[i].lease != h'.grants[j].lease
    {
      assert h.grants[i].lease in h.used;
    }
  }

  // ---------- attach ----------

  lemma CreatedInv(h: HubState, r: AttachRequest, id: Id)
    requires Inv(h) && r.role.Some? && id !in h.used
    requires r.cursor.Some? ==> After(h.replay, r.cursor.value).valid
    ensures Inv(Created(h, r, id))
  {
    hide Sound, Represents, After, StartPoint;
    var h' := Created(h, r, id);
    forall j | j in h'.subs
      ensures Sound(h', j)
    {
      if j == id {
        NewcomerSound(h, r, id);
      } else {
        OthersSound(h, r, id, j);
      }
    }
  }

  lemma NewcomerSound(h: HubState, r: AttachRequest, id: Id)
    requires WellFormed(h) && r.role.Some? && id !in h.used
    requires r.cursor.Some? ==> After(h.replay, r.cursor.value).valid
    ensures Sound(Created(h, r, id), id)
  {
    hide Outputs, Exits, Revocations, Represents, After, StartPoint;
    var s := Created(h, r, id).subs[id];
    StartPointBounds(h, r.cursor);
    EmptyStream();
    assert Stream(s) == [];
    assert h.history[s.start..s.start] == [];
  }

  lemma OthersSound(h: HubState, r: AttachRequest, id: Id, j: Id)
    requires j in h.subs && j != id && r.role.Some? && Sound(h, j)
    ensures Sound(Created(h, r, id), j)
  {
    hide Outputs, Exits, Revocations, Stream, StartPoint;
  }

  lemma StartPointBounds(h: HubState, cursor: Option<nat>)
    requires WellFormed(h)
    requires cursor.Some? ==> After(h.replay, cursor.value).valid
    ensures 0 <= StartPoint(h, cursor) <= |h.history|
    ensures cursor.None? ==> StartPoint(h, cursor) == |h.history|
    ensures cursor.Some? ==> After(h.replay, cursor.value).frames == h.history[StartPoint(h, cursor)..]
    ensures cursor.Some? ==> StartPoint(h, cursor) >= cursor.value
    ensures cursor.Some? ==> (After(h.replay, cursor.value).gap <==> StartPoint(h, cursor) > cursor.value)
  {
    hide Evicted, After;
    if cursor.Some? {
      AfterExact(h.replay, h.history, cursor.value);
    }
  }

  lemma ReplayPart(h: HubState, base: seq<Frame>, cursor: nat)
    ensures
      var fs := base + ReplayFrames(h, cursor);
      && Outputs(fs) == Outputs(base) + After(h.replay, cursor).frames
      && Exits(fs) == Exits(base)
      && Revocations(fs) == Revocations(base)
  {
    hide Outputs, Exits, Revocations, After;
    var r := After(h.replay, cursor);
    var gap := ReplayGap(cursor, Bounds(h.replay).0, Bounds(h.replay).1);
    StreamAppend(base, gap);
    var head := if r.gap then base + [gap] else base;
    ReplayedStream(head, r.frames);
    assert base + ReplayFrames(h, cursor) == head + AsFrames(r.frames);
  }

  /** The initial frames replay exactly the history from the start point, and one exit frame after an exit. */
  lemma InitialExact(h: HubState, id: Id, role: Role, lease: Option<Id>, cursor: Option<nat>)
    requires WellFormed(h)
    requires cursor.Some? ==> After(h.replay, cursor.value).valid
    ensures
      var fs := InitialFrames(h, id, role, lease, cursor);
      && 0 <= StartPoint(h, cursor) <= |h.history|
      && Outputs(fs) == h.history[StartPoint(h, cursor)..]
      && Exits(fs) == (if h.exit.Some? then 1 else 0)
      && Revocations(fs) == 0
  {
    hide Outputs, Exits, Revocations, After, Represents, ReplayFrames, Bounds;
    StartPointBounds(h, cursor);
    var attached := Attached(id, role, lease, Bounds(h.replay).0, Bounds(h.replay).1, h.phase);
    OneFrame(attached);
    var base := [attached] + (if cursor.Some? then ReplayFrames(h, cursor.value) else []);
    if cursor.Some? {
      ReplayPart(h, [attached], cursor.value);
    } else {
      assert base == [attached];
      assert h.history[|h.history|..] == [];
    }
    if h.exit.Some? {
      StreamAppend(base, h.exit.value);
    } else {
      assert base + [] == base;
    }
  }

  lemma OneFrame(f: Frame)
    ensures Outputs([f]) == (if f.Output? then [f.chunk] else [])
    ensures Exits([f]) == (if f.Exit? then 1 else 0)
    ensures Revocations([f]) == (if f.Revoked? then 1 else 0)
  {
    StreamAppend([], f);
    assert [] + [f] == [f];
  }

  /** The subscription agrees with the hub on the lease before it is registered. */
  predicate LeaseAgrees(h: HubState, id: Id)
    requires id in h.subs
  {
    var s := h.subs[id];
    && (s.lease.Some? <==> Names(h.controller, id))
    && (s.lease.Some? ==> s.lease.value == h.controller.value.lease)
    && (s.role == Control <==> s.lease.Some?)
    && s.acquired == if Names(h.controller, id) then 1 else 0
  }

  predicate Fresh(s: Subscription) {
    s.initial == [] && s.taken == [] && s.queue == []
  }

  lemma RegisteredInv(h: HubState, cursor: Option<nat>, id: Id)
    requires Inv(h) && id in h.subs && id !in h.registered
    requires cursor.Some? ==> After(h.replay, cursor.value).valid
    requires Fresh(h.subs[id]) && h.subs[id].start == StartPoint(h, cursor) && LeaseAgrees(h, id)
    ensures Inv(Registered(h, cursor, id))
  {
    hide Outputs, Exits, Revocations, After, Represents, InitialFrames, StartPoint;
    var h' := Registered(h, cursor, id);
    var s := h.subs[id];
    InitialExact(h, id, s.role, s.lease, cursor);
    forall j | j in h'.subs
      ensures Sound(h', j)
    {
      if j == id {
        assert Stream(h'.subs[id]) == h'.subs[id].initial;
        assert h.history[s.start..|h.history|] == h.history[s.start..];
      } else {
        assert Sound(h, j);
      }
    }
  }

  lemma LeasedInv(h: HubState, r: AttachRequest, id: Id, lease: Id, now: int)
    requires Inv(h) && id in h.subs && id !in h.registered && lease !in h.used && r.role.Some?
    requires Fresh(h.subs[id]) && h.subs[id].role == r.role.value && h.subs[id].lease.None? && h.subs[id].acquired == 0
    requires !Names(h.controller, id)
    requires r.role == Some(Control) && h.controller.Some? ==> r.takeover
    ensures
      var h' := Leased(h, r, id, lease, now);
      && Inv(h') && id in h'.subs && id !in h'.registered
      && Fresh(h'.subs[id]) && h'.subs[id].start == h.subs[id].start && LeaseAgrees(h', id)
      && h'.replay == h.replay
  {
    hide Sound, Represents;
    if r.role == Some(Control) {
      RevokeInv(h, TakenOver);
      GrantInv(if r.takeover then Revoke(h, TakenOver) else h, id, lease, now);
    }
  }

  lemma AttachInv(h: HubState, r: AttachRequest, now: int, id: Id, lease: Id, resizeOk: bool)
    requires Inv(h) && Precheck(r).None? && id !in h.used && lease !in h.used && id != lease
    ensures Inv(Attach(h, r, now, id, lease, resizeOk).0)
  {
    hide Sound, Represents, After, Expire, Leased, Registered;
    var h1 := Expire(h, now);
    ExpireInv(h, now);
    if AttachRefusal(h1, r, resizeOk).None? {
      var h2 := Created(h1, r, id);
      CreatedInv(h1, r, id);
      LeasedInv(h2, r, id, lease, now);
      RegisteredInv(Leased(h2, r, id, lease, now), r.cursor, id);
    }
  }

  // ---------- the other operations ----------

  lemma DetachInv(h: HubState, id: Id)
    requires Inv(h)
    ensures Inv(Detach(h, id))
  {
    hide Represents, Outputs, Exits, Revocations, Stream;
    forall j | j in h.subs
      ensures Sound(Detach(h, id), j)
    {
      assert Sound(h, j);
    }
  }

  lemma TakeoverInv(h: HubState, id: Id, lease: Id, now: int)
    requires Inv(h) && id in h.subs && lease !in h.used
    ensures Inv(Takeover(h, id, lease, now).0)
  {
    if h.subs[id].permitted && id in h.registered {
      var h1 := Expire(h, now);
      ExpireInv(h, now);
      RevokeInv(h1, TakenOver);
      GrantInv(if Names(h1.controller, id) then h1 else Revoke(h1, TakenOver), id, lease, now);
    }
  }

  lemma TouchInv(h: HubState, id: Id, now: int)
    requires Inv(h)
    ensures Inv(Touch(h, id, now))
  {
    hide Represents, Outputs, Exits, Revocations, Stream;
    forall j | j in h.subs
      ensures Sound(Touch(h, id, now), j)
    {
      assert Sound(h, j);
    }
  }

  lemma ReplyInv(h: HubState, id: Id, f: Frame)
    requires Inv(h) && !f.Output? && !f.Exit? && !f.Revoked?
    ensures Inv(Reply(h, id, f))
  {
    hide Sound, Represents;
    if id in h.registered {
      forall j | j in h.subs
        ensures Sound(Send(h, id, f), j)
      {
        SendSound(h, id, f, j);
      }
    }
  }

  lemma TakeInv(h: HubState, id: Id)
    requires Inv(h) && id in h.subs && h.subs[id].queue != []
    ensures Inv(Take(h, id))
    ensures Stream(Take(h, id).subs[id]) == Stream(h.subs[id])
  {
    hide Represents, Outputs, Exits, Revocations;
    var h' := Take(h, id);
    var s := h.subs[id];
    assert s.queue == [s.queue[0]] + s.queue[1..];
    assert Stream(h'.subs[id]) == Stream(s);
    forall j | j in h'.subs
      ensures Sound(h', j)
    {
      assert Sound(h, j);
    }
  }

  lemma SetProcessInv(h: HubState)
    requires Inv(h)
    ensures Inv(SetProcess(h))
  {
    hide Represents, Outputs, Exits, Revocations, Stream;
    forall j | j in h.subs
      ensures Sound(SetProcess(h), j)
    {
      assert Sound(h, j);
    }
  }

  lemma PublishOutputSound(h: HubState, data: Bytes, j: Id)
    requires WellFormed(h) && j in h.subs && Sound(h, j)
    ensures Sound(PublishOutput(h, data), j)
  {
    hide Represents, Outputs, Exits, Revocations, Stream;
    var chunk := Chunk(h.replay.latest + 1, data);
    var s := h.subs[j];
    OfferedStream(s, Output(chunk), h.capacity);
    StreamAppend(Stream(s), Output(chunk));
    var outputs := Outputs(Stream(s));
    var longer := h.history + [chunk];
    assert longer[s.start..s.start + |outputs|] == outputs;
    if j in h.registered && |s.queue| < h.capacity {
      assert longer[s.start..|longer|] == outputs + [chunk];
    }
  }

  lemma LatestIsLength(h: HubState)
    requires WellFormed(h)
    ensures h.replay.latest == |h.history|
  {
  }

  lemma PublishOutputInv(h: HubState, data: Bytes)
    requires Inv(h)
    ensures Inv(PublishOutput(h, data))
  {
    hide Sound, Represents, Append;
    LatestIsLength(h);
    AppendRepresents(h.replay, h.history, data);
    forall j | j in PublishOutput(h, data).subs
      ensures Sound(PublishOutput(h, data), j)
    {
      PublishOutputSound(h, data, j);
    }
  }

  /** Revoking the lease does not depend on the process state. */
  lemma RevokeIgnoresProcess(h: HubState, phase: Phase, exit: Option<Frame>, reason: Reason)
    requires h.registered <= h.subs.Keys
    ensures Revoke(h.(phase := phase, exit := exit), reason) == Revoke(h, reason).(phase := phase, exit := exit)
  {
  }

  lemma BroadcastExitSound(h: HubState, status: int, j: Id)
    requires WellFormed(h) && h.exit.None? && j in h.subs && Sound(h, j)
    ensures Sound(Broadcast(h.(phase := Exited, exit := Some(Exit(status))), Exit(status)), j)
  {
    hide Represents, Outputs, Exits, Revocations, Stream;
    OfferedStream(h.subs[j], Exit(status), h.capacity);
    StreamAppend(Stream(h.subs[j]), Exit(status));
  }

  lemma PublishExitInv(h: HubState, status: int)
    requires Inv(h)
    ensures Inv(PublishExit(h, status))
  {
    hide Sound, Represents, Revoke;
    if h.exit.None? {
      var h1 := Revoke(h, AgentStopped);
      RevokeInv(h, AgentStopped);
      RevokeIgnoresProcess(h, Exited, Some(Exit(status)), AgentStopped);
      RevokeKeepsProcess(h, AgentStopped);
      forall j | j in h1.subs
        ensures Sound(PublishExit(h, status), j)
      {
        BroadcastExitSound(h1, status, j);
      }
    }
  }

  lemma RevokeKeepsProcess(h: HubState, reason: Reason)
    requires h.registered <= h.subs.Keys
    ensures Revoke(h, reason).exit == h.exit && Revoke(h, reason).phase == h.phase
  {
  }

  lemma NewHubInv(maxBytes: int, maxFrames: int, capacity: nat, ttl: int)
    ensures Inv(NewHub(maxBytes, maxFrames, capacity, ttl))
  {
    hide Represents;
    EmptyRepresents(maxBytes, maxFrames);
  }
}
