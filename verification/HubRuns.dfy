/**
 All interleavings of the hub's clients, its reaper and its process.

 Sections under `mu` alone are single steps. Operations under `controlMu` first acquire it and then
 run; input and resize additionally release `mu` around the PTY call, so they take five steps while
 any `mu` section may run in between.
 */
module HubRuns {
  import opened Prelude
  import opened Replay
  import opened TerminalHub
  import opened HubInvariants

  const MAX_INPUT := 1024 * 1024

  datatype Op =
    | OpAttach(request: AttachRequest)
    | OpDetach(id: Id)
    | OpTakeover(id: Id)
    | OpExit(status: int)
    | OpReap
    | OpInput(id: Id, lease: Id, data: Bytes)
    | OpResize(id: Id, lease: Id)

  datatype Stage = Locked | Authorised | InPty | PtyDone

  /** The holder of controlMu; `openedAt` is the log index of its authorisation, and `live` says that the process had not
      exited when its PTY call began. */
  datatype Hold = Hold(thread: nat, op: Op, stage: Stage, openedAt: nat, live: bool)

  datatype Event =
    | Granted(record: GrantRecord)
    | AttachResize
    | Opened(thread: nat, attachment: Id)
    | PtyBegin(thread: nat, attachment: Id)
    | PtyEnd(thread: nat, attachment: Id, ok: bool)
    | Closed(thread: nat, attachment: Id)

  /** `readDone` and `exited` are set by the process; `accepted` logs authorised input, and `log` grants and PTY calls. */
  datatype Sys = Sys(
    hub: HubState, control: Option<Hold>, readDone: bool, exited: bool, accepted: seq<GrantRecord>, log: seq<Event>)

  datatype Step =
    | DoSetProcess
    | DoOutput(data: Bytes)
    | DoReadEnds
    | DoProcessExits
    | DoTouch(id: Id, now: int)
    | DoAck(id: Id, sequence: nat, now: int)
    | DoReply(id: Id, frame: Frame)
    | DoTake(id: Id)
    | DoAcquire(thread: nat, op: Op)
    | DoAttach(now: int, id: Id, lease: Id, resizeOk: bool)
    | DoDetach
    | DoTakeover(now: int, lease: Id)
    | DoExit
    | DoReap(now: int)
    | DoAuthorize(now: int)
    | DoPtyBegin
    | DoPtyEnd(ok: bool)
    | DoRenew(now: int)

  function NewSys(maxBytes: int, maxFrames: int, capacity: nat, ttl: int): Sys {
    Sys(NewHub(maxBytes, maxFrames, capacity, ttl), None, false, false, [], [])
  }

  predicate Holding(s: Sys, stage: Stage) {
    s.control.Some? && s.control.value.stage == stage
  }

  function NewGrants(before: HubState, after: HubState): seq<Event> {
    if |after.grants| > |before.grants| then [Granted(after.grants[|after.grants| - 1])] else []
  }

  /** The frames a server sends in answer to client frames are none of the hub's own announcements. */
  predicate ReplyFrame(f: Frame) {
    !f.Output? && !f.Exit? && !f.Revoked? && !f.ReplayGap? && f != Error(CursorInvalid)
  }

  /** An ack is answered only when it is refused. */
  function AckSection(h: HubState, id: Id, sequence: nat, now: int): HubState
    requires h.registered <= h.subs.Keys
  {
    var (h1, refused) := Acknowledge(h, id, sequence, now);
    if refused.Some? then Reply(h1, id, Error(refused.value)) else h1
  }

  // ---------- steps under mu alone ----------

  function MuStep(s: Sys, step: Step): Option<Sys>
    requires s.hub.registered <= s.hub.subs.Keys
  {
    match step
    case DoSetProcess => Some(s.(hub := SetProcess(s.hub)))
    case DoOutput(data) => if s.readDone then None else Some(s.(hub := PublishOutput(s.hub, data)))
    case DoReadEnds => Some(s.(readDone := true))
    case DoProcessExits => if s.readDone then Some(s.(exited := true)) else None
    case DoTouch(id, now) => Some(s.(hub := Touch(s.hub, id, now)))
    case DoAck(id, sequence, now) => Some(s.(hub := AckSection(s.hub, id, sequence, now)))
    case DoReply(id, f) => if ReplyFrame(f) then Some(s.(hub := Reply(s.hub, id, f))) else None
    case DoTake(id) =>
      if id in s.hub.subs && s.hub.subs[id].queue != [] then Some(s.(hub := Take(s.hub, id))) else None
    case _ => None
  }

  // ---------- steps under controlMu and mu ----------

  /** What has to hold before an operation asks for controlMu at all. */
  predicate MayAsk(s: Sys, op: Op) {
    match op
    case OpAttach(r) => Precheck(r).None?
    case OpTakeover(id) => id in s.hub.subs
    case OpInput(id, _, data) => id in s.hub.subs && |data| <= MAX_INPUT
    case OpResize(id, _) => id in s.hub.subs
    case OpExit(_) => s.exited
    case _ => true
  }

  function Release(s: Sys, h: HubState, events: seq<Event>): Sys {
    s.(hub := h, control := None, log := s.log + events)
  }

  function AttachEvents(h: HubState, r: AttachRequest, now: int, resizeOk: bool): seq<Event>
    requires h.registered <= h.subs.Keys
  {
    var refusal := AttachRefusal(Expire(h, now), r, resizeOk);
    if r.role == Some(Control) && h.phase == Running && (refusal.None? || refusal == Some(InvalidResize))
    then [AttachResize] else []
  }

  function ControlStep(s: Sys, step: Step): Option<Sys>
    requires s.hub.registered <= s.hub.subs.Keys
  {
    match step
    case DoAcquire(thread, op) =>
      if s.control.None? && MayAsk(s, op) then Some(s.(control := Some(Hold(thread, op, Locked, 0, false)))) else None
    case DoAttach(now, id, lease, resizeOk) =>
      if Holding(s, Locked) && s.control.value.op.OpAttach? && Precheck(s.control.value.op.request).None?
         && id !in s.hub.used && lease !in s.hub.used && id != lease && (s.exited ==> !resizeOk) then
        var r := s.control.value.op.request;
        var h := Attach(s.hub, r, now, id, lease, resizeOk).0;
        Some(Release(s, h, AttachEvents(s.hub, r, now, resizeOk) + NewGrants(s.hub, h)))
      else None
    case DoDetach =>
      if Holding(s, Locked) && s.control.value.op.OpDetach?
      then Some(Release(s, Detach(s.hub, s.control.value.op.id), [])) else None
    case DoTakeover(now, lease) =>
      if Holding(s, Locked) && s.control.value.op.OpTakeover? && s.control.value.op.id in s.hub.subs && lease !in s.hub.used then
        var h := Takeover(s.hub, s.control.value.op.id, lease, now).0;
        Some(Release(s, h, NewGrants(s.hub, h)))
      else None
    case DoExit =>
      if Holding(s, Locked) && s.control.value.op.OpExit? && s.exited
      then Some(Release(s, PublishExit(s.hub, s.control.value.op.status), [])) else None
    case DoReap(now) =>
      if Holding(s, Locked) && s.control.value.op.OpReap? then Some(Release(s, Expire(s.hub, now), [])) else None
    case _ => None
  }

  // ---------- input and resize, which leave mu around the PTY call ----------

  predicate PtyOp(op: Op) { op.OpInput? || op.OpResize? }

  function PtyStep(s: Sys, step: Step): Option<Sys>
    requires s.hub.registered <= s.hub.subs.Keys
  {
    if s.control.None? || !PtyOp(s.control.value.op) then None else
    var c := s.control.value;
    match step
    case DoAuthorize(now) =>
      if c.stage != Locked then None else
      var (h, ok) := Authorize(s.hub, c.op.id, c.op.lease, now);
      if !ok then Some(Release(s, h, []))
      else Some(s.(hub := h, control := Some(c.(stage := Authorised, openedAt := |s.log|)),
                   accepted := if c.op.OpInput? then s.accepted + [GrantRecord(c.op.id, c.op.lease)] else s.accepted,
                   log := s.log + [Opened(c.thread, c.op.id)]))
    case DoPtyBegin =>
      if c.stage != Authorised then None
      else Some(s.(control := Some(c.(stage := InPty, live := !s.exited)), log := s.log + [PtyBegin(c.thread, c.op.id)]))
    case DoPtyEnd(ok) =>
      if c.stage != InPty || (ok && !c.live) then None
      else if ok then Some(s.(control := Some(c.(stage := PtyDone)), log := s.log + [PtyEnd(c.thread, c.op.id, true)]))
      else Some(Release(s, s.hub, [PtyEnd(c.thread, c.op.id, false), Closed(c.thread, c.op.id)]))
    case DoRenew(now) =>
      if c.stage != PtyDone then None
      else Some(Release(s, Renew(s.hub, c.op.id, c.op.lease, now), [Closed(c.thread, c.op.id)]))
    case _ => None
  }

  function Next(s: Sys, step: Step): Option<Sys>
    requires s.hub.registered <= s.hub.subs.Keys
  {
    var mu := MuStep(s, step);
    if mu.Some? then mu else
    var control := ControlStep(s, step);
    if control.Some? then control else PtyStep(s, step)
  }

  /** The state after a run, or nothing when some step was not enabled. */
  ghost function Run(s: Sys, steps: seq<Step>): Option<Sys> {
    if steps == [] then Some(s)
    else
      var before := Run(s, steps[..|steps| - 1]);
      if before.Some? && before.value.hub.registered <= before.value.hub.subs.Keys
      then Next(before.value, steps[|steps| - 1]) else None
  }

  // ---------- the hub invariant along every run ----------

  lemma MuStepInv(s: Sys, step: Step)
    requires Inv(s.hub) && MuStep(s, step).Some?
    ensures Inv(MuStep(s, step).value.hub)
  {
    hide Inv, Touch, Reply, Take, PublishOutput, SetProcess;
    assert WellFormed(s.hub) by { InvWellFormed(s.hub); }
    match step
    case DoSetProcess => SetProcessInv(s.hub);
    case DoOutput(data) => PublishOutputInv(s.hub, data);
    case DoReadEnds =>
    case DoProcessExits =>
    case DoTouch(id, now) => TouchInv(s.hub, id, now);
    case DoAck(id, sequence, now) =>
      TouchInv(s.hub, id, now);
      var refused := Acknowledge(s.hub, id, sequence, now).1;
      if refused.Some? {
        ReplyInv(s.hub, id, Error(refused.value));
      }
    case DoReply(id, f) => ReplyInv(s.hub, id, f);
    case DoTake(id) => TakeInv(s.hub, id);
  }

  lemma InvWellFormed(h: HubState)
    requires Inv(h)
    ensures WellFormed(h)
  {
  }

  lemma ControlStepInv(s: Sys, step: Step)
    requires Inv(s.hub) && ControlStep(s, step).Some?
    ensures Inv(ControlStep(s, step).value.hub)
  {
    hide Inv, Attach, Takeover, Detach, PublishExit, Expire, AttachEvents, NewGrants;
    InvWellFormed(s.hub);
    match step
    case DoAcquire(thread, op) =>
    case DoAttach(now, id, lease, resizeOk) => AttachInv(s.hub, s.control.value.op.request, now, id, lease, resizeOk);
    case DoDetach => DetachInv(s.hub, s.control.value.op.id);
    case DoTakeover(now, lease) => TakeoverInv(s.hub, s.control.value.op.id, lease, now);
    case DoExit => PublishExitInv(s.hub, s.control.value.op.status);
    case DoReap(now) => ExpireInv(s.hub, now);
  }

  lemma PtyStepInv(s: Sys, step: Step)
    requires Inv(s.hub) && PtyStep(s, step).Some?
    ensures Inv(PtyStep(s, step).value.hub)
  {
    hide Inv, Expire, Touch;
    InvWellFormed(s.hub);
    var c := s.control.value;
    match step
    case DoAuthorize(now) => ExpireInv(s.hub, now);
    case DoPtyBegin =>
    case DoPtyEnd(ok) =>
    case DoRenew(now) => TouchInv(s.hub, c.op.id, now);
  }

  lemma NextInv(s: Sys, step: Step)
    requires Inv(s.hub) && Next(s, step).Some?
    ensures Inv(Next(s, step).value.hub)
  {
    hide Inv, MuStep, ControlStep, PtyStep;
    InvWellFormed(s.hub);
    if MuStep(s, step).Some? {
      MuStepInv(s, step);
    } else if ControlStep(s, step).Some? {
      ControlStepInv(s, step);
    } else {
      PtyStepInv(s, step);
    }
  }

  /** Every attachment's stream, exit frame and lease stay exact along every run. */
  lemma {:induction false} RunInv(s: Sys, steps: seq<Step>)
    requires Inv(s.hub) && Run(s, steps).Some?
    ensures Inv(Run(s, steps).value.hub)
  {
    hide Inv, Next;
    if steps == [] {
    } else {
      RunInv(s, steps[..|steps| - 1]);
      NextInv(Run(s, steps[..|steps| - 1]).value, steps[|steps| - 1]);
    }
  }
}
