/**
 The terminal hub (internal/runner/hub.go) as functions on its state.

 Each function is the effect of one section that the source runs under `mu`.
 Subscription objects are kept in a map from their ID, whether registered or not: a dropped or
 detached subscription is still read by its connection. `used`, `history` and `grants`, and in a
 subscription `taken`, `start` and `acquired`, are history variables; no operation reads them.
 */
module TerminalHub {
  import opened Prelude
  import opened Replay

  /** An identifier drawn by newID; only equality is ever used. */
  type Id = nat

  datatype Role = Control | Observe

  datatype Phase = Starting | Running | Exited

  datatype Reason = TakenOver | LeaseExpired | AgentStopped

  datatype ErrorCode =
    | SlowConsumer | ForbiddenRole | InvalidTerminalSize | CursorInvalid | ControllerBusy
    | InvalidResize | AttachmentClosed | InvalidLease | NotRunning | InvalidInput | UnsupportedProtocol

  datatype Frame =
    | Attached(attachment: Id, role: Role, leaseId: Option<Id>, earliest: nat, latest: nat, phase: Phase)
    | ReplayGap(requested: nat, gapEarliest: nat, gapLatest: nat)
    | Output(chunk: Chunk)
    | Exit(status: int)
    | Revoked(reason: Reason)
    | Error(code: ErrorCode)
    | Pong(nonce: string)

  datatype Subscription = Subscription(
    role: Role, lease: Option<Id>, permitted: bool, initial: seq<Frame>, queue: seq<Frame>,
    closed: Option<ErrorCode>,
    taken: seq<Frame>,  // frames the connection's writer has taken from the queue
    start: int,         // how much of the output history precedes this attachment's stream
    acquired: nat)      // how often this attachment became the controller

  datatype Lease = Lease(attachment: Id, lease: Id, expiresAt: int)

  datatype GrantRecord = GrantRecord(attachment: Id, lease: Id)

  datatype HubState = HubState(
    capacity: nat, ttl: int, replay: Buffer, subs: map<Id, Subscription>, registered: set<Id>,
    controller: Option<Lease>, phase: Phase, exit: Option<Frame>,
    used: set<Id>, history: seq<Chunk>, grants: seq<GrantRecord>)

  datatype AttachRequest = AttachRequest(
    role: Option<Role>, sizeValid: bool, observe: bool, control: bool, cursor: Option<nat>, takeover: bool)

  function NewHub(maxBytes: int, maxFrames: int, capacity: nat, ttl: int): HubState {
    HubState(capacity, ttl, Empty(maxBytes, maxFrames), map[], {}, None, Starting, None, {}, [], [])
  }

  predicate Names(controller: Option<Lease>, id: Id) {
    controller.Some? && controller.value.attachment == id
  }

  // ---------- sending ----------

  predicate Full(h: HubState, id: Id)
    requires id in h.subs
  {
    |h.subs[id].queue| >= h.capacity
  }

  /** What sendLocked does to the subscription it is given. */
  function Offered(s: Subscription, f: Frame, capacity: nat): Subscription {
    if |s.queue| < capacity then s.(queue := s.queue + [f])
    else s.(closed := if s.closed.None? then Some(SlowConsumer) else s.closed)
  }

  function Send(h: HubState, id: Id, f: Frame): HubState
    requires id in h.subs
  {
    var h' := h.(subs := h.subs[id := Offered(h.subs[id], f, h.capacity)]);
    if Full(h, id) then
      h'.(registered := h.registered - {id}, controller := if Names(h.controller, id) then None else h.controller)
    else h'
  }

  /** One frame to every registered subscription; a full queue drops its subscription. */
  function Broadcast(h: HubState, f: Frame): HubState
    requires h.registered <= h.subs.Keys
  {
    h.(subs := (map id | id in h.subs ::
         if id in h.registered then Offered(h.subs[id], f, h.capacity) else h.subs[id]),
       registered := (set id | id in h.registered && !Full(h, id)),
       controller :=
         if h.controller.Some? && h.controller.value.attachment in h.registered && Full(h, h.controller.value.attachment)
         then None else h.controller)
  }

  // ---------- the controller lease ----------

  function Revoke(h: HubState, reason: Reason): HubState
    requires h.registered <= h.subs.Keys
  {
    if h.controller.None? then h else
    var id := h.controller.value.attachment;
    var notified :=
      if id in h.registered then
        Send(h.(subs := h.subs[id := h.subs[id].(role := Observe, lease := None)]), id, Revoked(reason))
      else h;
    notified.(controller := None)
  }

  predicate Expired(h: HubState, now: int) {
    h.controller.Some? && h.controller.value.expiresAt <= now
  }

  function Expire(h: HubState, now: int): HubState
    requires h.registered <= h.subs.Keys
  {
    if Expired(h, now) then Revoke(h, LeaseExpired) else h
  }

  function Grant(h: HubState, id: Id, lease: Id, now: int): HubState
    requires id in h.subs
  {
    var s := h.subs[id];
    h.(subs := h.subs[id := s.(role := Control, lease := Some(lease),
                               acquired := if Names(h.controller, id) then s.acquired else s.acquired + 1)],
       controller := Some(Lease(id, lease, now + h.ttl)),
       used := h.used + {lease},
       grants := h.grants + [GrantRecord(id, lease)])
  }

  // ---------- attach, detach, takeover ----------

  function AsFrames(chunks: seq<Chunk>): seq<Frame> {
    seq(|chunks|, i requires 0 <= i < |chunks| => Output(chunks[i]))
  }

  function ReplayFrames(h: HubState, cursor: nat): seq<Frame> {
    var r := After(h.replay, cursor);
    (if r.gap then [ReplayGap(cursor, Bounds(h.replay).0, Bounds(h.replay).1)] else []) + AsFrames(r.frames)
  }

  function InitialFrames(h: HubState, id: Id, role: Role, lease: Option<Id>, cursor: Option<nat>): seq<Frame> {
    [Attached(id, role, lease, Bounds(h.replay).0, Bounds(h.replay).1, h.phase)]
    + (if cursor.Some? then ReplayFrames(h, cursor.value) else [])
    + (if h.exit.Some? then [h.exit.value] else [])
  }

  function StartPoint(h: HubState, cursor: Option<nat>): int {
    if cursor.Some? then h.replay.latest - |After(h.replay, cursor.value).frames| else h.replay.latest
  }

  /** Why an attach is refused before any lock is taken. */
  function Precheck(r: AttachRequest): Option<ErrorCode> {
    if r.role.None? then Some(ForbiddenRole)
    else if !r.sizeValid then Some(InvalidTerminalSize)
    else if !r.observe then Some(ForbiddenRole)
    else if r.role == Some(Control) && !r.control then Some(ForbiddenRole)
    else None
  }

  /** Why an attach is refused under the locks, after an expired lease was cleared. */
  function AttachRefusal(h: HubState, r: AttachRequest, resizeOk: bool): Option<ErrorCode> {
    if r.cursor.Some? && !After(h.replay, r.cursor.value).valid then Some(CursorInvalid)
    else if r.role == Some(Control) && h.controller.Some? && !r.takeover then Some(ControllerBusy)
    else if r.role == Some(Control) && h.phase == Running && !resizeOk then Some(InvalidResize)
    else None
  }

  /** The new subscription object before it is granted anything. */
  function Created(h: HubState, r: AttachRequest, id: Id): HubState
    requires r.role.Some?
  {
    h.(subs := h.subs[id := Subscription(r.role.value, None, r.control, [], [], None, [], StartPoint(h, r.cursor), 0)],
       used := h.used + {id})
  }

  /** The lease part of attach: only a control attachment is granted one. */
  function Leased(h: HubState, r: AttachRequest, id: Id, lease: Id, now: int): HubState
    requires h.registered <= h.subs.Keys && id in h.subs
  {
    if r.role != Some(Control) then h
    else
      var h1 := if r.takeover then Revoke(h, TakenOver) else h;
      Grant(h1, id, lease, now)
  }

  /** The last part of attach: fix the initial frames and subscribe. */
  function Registered(h: HubState, cursor: Option<nat>, id: Id): HubState
    requires id in h.subs
  {
    var s := h.subs[id];
    h.(subs := h.subs[id := s.(initial := InitialFrames(h, id, s.role, s.lease, cursor))],
       registered := h.registered + {id})
  }

  function Attach(h: HubState, r: AttachRequest, now: int, id: Id, lease: Id, resizeOk: bool): (HubState, Result<Id, ErrorCode>)
    requires h.registered <= h.subs.Keys && Precheck(r).None?
  {
    var h1 := Expire(h, now);
    var refusal := AttachRefusal(h1, r, resizeOk);
    if refusal.Some? then (h1, Err(refusal.value))
    else
      var h2 := Created(h1, r, id);
      var h3 := Leased(h2, r, id, lease, now);
      (Registered(h3, r.cursor, id), Ok(id))
  }

  function Detach(h: HubState, id: Id): HubState {
    if id !in h.registered then h
    else h.(registered := h.registered - {id}, controller := if Names(h.controller, id) then None else h.controller)
  }

  function Takeover(h: HubState, id: Id, lease: Id, now: int): (HubState, Result<Frame, ErrorCode>)
    requires h.registered <= h.subs.Keys && id in h.subs
  {
    if !h.subs[id].permitted then (h, Err(ForbiddenRole))
    else if id !in h.registered then (h, Err(AttachmentClosed))
    else
      var h1 := Expire(h, now);
      var h2 := if Names(h1.controller, id) then h1 else Revoke(h1, TakenOver);
      var h3 := Grant(h2, id, lease, now);
      (h3, Ok(Attached(id, Control, h3.subs[id].lease, Bounds(h3.replay).0, Bounds(h3.replay).1, h3.phase)))
  }

  // ---------- liveness, acknowledgement, authorisation ----------

  function Touch(h: HubState, id: Id, now: int): HubState {
    if Names(h.controller, id) then h.(controller := Some(h.controller.value.(expiresAt := now + h.ttl))) else h
  }

  function Acknowledge(h: HubState, id: Id, sequence: nat, now: int): (HubState, Option<ErrorCode>) {
    if id !in h.registered then (h, Some(AttachmentClosed))
    else if sequence > h.replay.latest then (h, Some(CursorInvalid))
    else (Touch(h, id, now), None)
  }

  predicate Holds(h: HubState, id: Id, lease: Id) {
    Names(h.controller, id) && h.controller.value.lease == lease
  }

  function Authorize(h: HubState, id: Id, lease: Id, now: int): (HubState, bool)
    requires h.registered <= h.subs.Keys
  {
    var h1 := Expire(h, now);
    (h1, Holds(h1, id, lease))
  }

  function Renew(h: HubState, id: Id, lease: Id, now: int): HubState {
    if Holds(h, id, lease) then Touch(h, id, now) else h
  }

  // ---------- the process ----------

  function SetProcess(h: HubState): HubState {
    if h.phase == Starting then h.(phase := Running) else h
  }

  function PublishOutput(h: HubState, data: Bytes): HubState
    requires h.registered <= h.subs.Keys
  {
    var chunk := Chunk(h.replay.latest + 1, data);
    Broadcast(h.(replay := Append(h.replay, data), history := h.history + [chunk]), Output(chunk))
  }

  function PublishExit(h: HubState, status: int): HubState
    requires h.registered <= h.subs.Keys
  {
    if h.exit.Some? then h
    else Broadcast(Revoke(h.(phase := Exited, exit := Some(Exit(status))), AgentStopped), Exit(status))
  }

  /** hub.send: a frame for one attachment, if it is still registered. */
  function Reply(h: HubState, id: Id, f: Frame): HubState
    requires h.registered <= h.subs.Keys
  {
    if id in h.registered then Send(h, id, f) else h
  }

  /** The connection's writer takes the oldest queued frame. */
  function Take(h: HubState, id: Id): HubState
    requires id in h.subs && h.subs[id].queue != []
  {
    var s := h.subs[id];
    h.(subs := h.subs[id := s.(queue := s.queue[1..], taken := s.taken + [s.queue[0]])])
  }
}
