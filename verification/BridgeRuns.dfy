/**
 The bridge client composed with the terminal hub: any hub step, any number of runner generations,
 connections, losses, reconnects and restarts. What the bridge shows is delivered in order and every jump is announced.
 */
module BridgeRuns {
  import opened Prelude
  import opened Replay
  import opened TerminalHub
  import opened HubInvariants
  import opened HubRuns
  import opened HubLifecycle
  import opened StreamGrowth
  import opened Bridge

  /** The connection of the bridge: its attachment, how many frames it has read, and the cursor it attached with. */
  datatype Link = Down | Up(id: Id, received: nat, from: Option<nat>) | Halted

  /** What the bridge keeps in its file. */
  datatype Saved = Saved(cursor: Option<nat>, generation: Option<Id>)

  /** `mine` are the attachments the bridge ever had at this runner, `flying` the acknowledgements it ever sent to it. `base` is
      where the bridge's account of this runner begins in its notes. */
  datatype World = World(
    sys: Sys, bridge: BridgeState, saved: Saved, link: Link, mine: set<Id>, flying: set<(Id, nat)>, generation: Id,
    base: nat)

  datatype Act =
    | HubStep(step: Step)
    | Connect(takeover: bool, thread: nat, now: int, id: Id, lease: Id, resizeOk: bool)
    | Receive(written: bool)
    | ReceiveClose
    | Lose
    | Store
    | Restart(torn: bool)
    | NewRunner(maxBytes: int, maxFrames: int, capacity: nat, ttl: int, generation: Id)
    | AckArrives(id: Id, sequence: nat, now: int)

  predicate Ready(w: World) { w.sys.hub.registered <= w.sys.hub.subs.Keys }

  function Wire(w: World, id: Id): seq<Frame>
    requires id in w.sys.hub.subs
  {
    OnWire(w.sys.hub.subs[id])
  }

  function AfterVerdict(link: Link, v: Verdict): Link {
    if v == Continue then link else if v == Stop then Halted else Down
  }

  /** attach: take controlMu, run, release; the answer of a refused attach is its first and only frame. */
  function ConnectStep(w: World, a: Act): Option<World>
    requires Ready(w) && a.Connect?
  {
    if w.link != Down || w.sys.control.Some? then None else
    var r := Request(w.bridge, a.takeover);
    var locked := w.sys.(control := Some(Hold(a.thread, OpAttach(r), Locked, 0, false)));
    var next := Next(locked, DoAttach(a.now, a.id, a.lease, a.resizeOk));
    if next.None? then None else
    var result := Attach(w.sys.hub, r, a.now, a.id, a.lease, a.resizeOk).1;
    var dialled := Dial(w.bridge);
    if result.Ok? then
      Some(w.(sys := next.value, bridge := dialled, link := Up(a.id, 0, w.bridge.cursor), mine := w.mine + {a.id}))
    else
      var (b, v) := HandleFirst(dialled, Error(result.error), w.generation);
      Some(w.(sys := next.value, bridge := b, link := AfterVerdict(Down, v)))
  }

  /** One frame reaches the bridge. */
  function FrameStep(w: World, f: Frame, written: bool): World
    requires w.link.Up?
  {
    var (b, v) :=
      if w.link.received == 0 then HandleFirst(w.bridge, f, w.generation) else HandleFrame(w.bridge, f, written);
    w.(bridge := b,
       base := if v == Reset then |b.notes| else w.base,
       link := AfterVerdict(w.link.(received := w.link.received + 1), v),
       flying := w.flying + (if f.Output? then {(w.link.id, f.chunk.sequence)} else {}))
  }

  /** Frames of the connection that the bridge has not read yet. */
  predicate Waiting(w: World) { w.link.Up? && w.link.id in w.sys.hub.subs && w.link.received < |Wire(w, w.link.id)| }

  /** The bridge is killed or has stopped, and is opened again with what its file holds. It may die between writing a frame
      and remembering it. */
  function Restarted(w: World, torn: bool): World
    requires torn ==> Torn(w)
  {
    var notes := if torn then w.bridge.notes + [Wrote(Wire(w, w.link.id)[w.link.received].chunk)] else w.bridge.notes;
    var restored := notes + [Restored(w.saved.cursor)];
    w.(bridge := BridgeState(w.saved.cursor, w.saved.generation, None, restored, {}), link := Down,
       base := if w.saved.cursor.Some? && w.saved.generation != Some(w.generation) then |restored| else w.base)
  }

  /** Another runner takes the place of this one: its hub is new, and nothing in flight reaches it. */
  function Replaced(w: World, sys: Sys, generation: Id): World {
    w.(sys := sys, link := if w.link.Up? then Down else w.link, mine := {}, flying := {}, generation := generation,
       base := |w.bridge.notes|)
  }

  /** newID never repeats. */
  predicate NeverSeen(w: World, generation: Id) {
    generation != w.generation && w.bridge.generation != Some(generation) && w.saved.generation != Some(generation)
  }

  /** The bridge holds the cursor of another runner. */
  predicate Stale(w: World) { w.bridge.cursor.Some? && w.bridge.generation != Some(w.generation) }

  /** What the bridge showed since its account of this runner began. */
  function Account(w: World): seq<Note> {
    if w.base <= |w.bridge.notes| then w.bridge.notes[w.base..] else []
  }

  predicate Torn(w: World) { Waiting(w) && w.link.received > 0 && Wire(w, w.link.id)[w.link.received].Output? }

  function Do(w: World, a: Act): Option<World>
    requires Ready(w)
  {
    match a
    case HubStep(step) =>
      var next := Next(w.sys, step);
      if next.Some? && (step.DoAck? ==> step.id !in w.mine) then Some(w.(sys := next.value)) else None
    case Connect(_, _, _, _, _, _) => ConnectStep(w, a)
    case Receive(written) =>
      if Waiting(w) then Some(FrameStep(w, Wire(w, w.link.id)[w.link.received], written)) else None
    case ReceiveClose =>
      if w.link.Up? && w.link.id in w.sys.hub.subs && w.sys.hub.subs[w.link.id].closed.Some?
      then Some(FrameStep(w, Error(SlowConsumer), true)) else None
    case Lose => if w.link.Up? then Some(w.(link := Down)) else None
    case Store => Some(w.(saved := Saved(w.bridge.cursor, w.bridge.generation)))
    case Restart(torn) => if torn ==> Torn(w) then Some(Restarted(w, torn)) else None
    case NewRunner(maxBytes, maxFrames, capacity, ttl, generation) =>
      if NeverSeen(w, generation) then Some(Replaced(w, NewSys(maxBytes, maxFrames, capacity, ttl), generation)) else None
    case AckArrives(id, sequence, now) =>
      if (id, sequence) in w.flying then Some(w.(sys := w.sys.(hub := AckSection(w.sys.hub, id, sequence, now)))) else None
  }

  ghost function Runs(w: World, acts: seq<Act>): Option<World> {
    if acts == [] then Some(w)
    else
      var before := Runs(w, acts[..|acts| - 1]);
      if before.Some? && Ready(before.value) then Do(before.value, acts[|acts| - 1]) else None
  }

  // ---------- what was delivered ----------

  /** The last sequence the bridge knows to have written. */
  function LastWritten(notes: seq<Note>): Option<nat> {
    if notes == [] then None
    else
      var n := notes[|notes| - 1];
      if n.Wrote? then Some(n.chunk.sequence) else if n.Restored? then n.from else LastWritten(notes[..|notes| - 1])
  }

  /** A restart from a file that was behind what had been written. */
  predicate Lags(notes: seq<Note>, k: nat)
    requires k < |notes|
  {
    notes[k].Restored? && notes[k].from != LastWritten(notes[..k])
  }

  /** A gap was announced on the current connection and nothing has been written since. */
  predicate Announced(notes: seq<Note>) {
    notes != [] && notes[|notes| - 1].GapNotice?
  }

  /** The next output is above the last one written, and a jump is announced. */
  predicate Follows(notes: seq<Note>, n: Note)
    requires n.Wrote?
  {
    LastWritten(notes).Some? ==>
      var p := LastWritten(notes).value;
      p < n.chunk.sequence && (n.chunk.sequence > p + 1 ==> Announced(notes))
  }

  /** Output is written in increasing order, and a jump only right after its announcement on the same connection. */
  predicate Delivered(notes: seq<Note>) {
    notes == [] ||
    (var before, n := notes[..|notes| - 1], notes[|notes| - 1];
     && Delivered(before)
     && (n.Wrote? ==> Follows(before, n)))
  }

  /** What was written is what the process output under that number. */
  predicate Genuine(notes: seq<Note>, history: seq<Chunk>) {
    forall i :: 0 <= i < |notes| ==>
      && (notes[i].Wrote? ==>
            1 <= notes[i].chunk.sequence <= |history| && history[notes[i].chunk.sequence - 1] == notes[i].chunk)
      && (notes[i].Restored? && notes[i].from.Some? ==> 1 <= notes[i].from.value <= |history|)
  }

  // ---------- the invariant ----------

  /** The attachment the bridge dialled, as its first frames tell. */
  predicate FirstFrames(s: Subscription, from: Option<nat>) {
    && s.initial != []
    && s.initial[0].Attached? && s.initial[0].role == Control && s.initial[0].leaseId.Some?
    && (from.Some? ==> from.value <= s.start)
    && (from.Some? && from.value < s.start ==> |s.initial| > 1 && s.initial[1].ReplayGap?)
  }

  predicate LinkOk(w: World) {
    w.link.Up? ==>
      && w.link.id in w.mine && w.link.id in w.sys.hub.subs
      && var s := w.sys.hub.subs[w.link.id];
      && FirstFrames(s, w.link.from)
      && w.link.received <= |OnWire(s)|
      && var seen := Outputs(OnWire(s)[..w.link.received]);
      && w.bridge.cursor == (if seen == [] then w.link.from else Some(s.start + |seen|))
      && (w.link.received > 0 ==> w.bridge.generation == Some(w.generation))
      && (seen == [] && w.link.from.Some? && w.link.from.value < s.start && w.link.received >= 2 ==> Announced(Account(w)))
  }

  predicate MineOk(w: World) {
    forall j :: j in w.mine ==> j in w.sys.hub.subs && Clean(w.sys.hub.subs[j])
  }

  predicate FlyingOk(w: World) {
    forall p :: p in w.flying ==> p.0 in w.mine && p.1 <= |w.sys.hub.history|
  }

  predicate NotesOk(w: World) {
    && w.base <= |w.bridge.notes|
    && Delivered(Account(w))
    && Genuine(Account(w), w.sys.hub.history)
    && (w.bridge.cursor.Some? ==> w.bridge.generation.Some?)
    && (if Stale(w) then Silent(Account(w)) else w.bridge.cursor == LastWritten(Account(w)))
  }

  predicate Silent(notes: seq<Note>) { forall n <- notes :: !n.Wrote? && !n.Restored? }

  /** The file is never ahead of the bridge. */
  predicate SavedOk(w: World) {
    && (w.saved.cursor.Some? ==> w.saved.generation.Some?)
    && (w.saved.cursor.Some? && w.saved.generation == Some(w.generation) ==>
          w.bridge.cursor.Some? && !Stale(w) && 1 <= w.saved.cursor.value <= w.bridge.cursor.value)
  }

  predicate WInv(w: World) {
    && Inv(w.sys.hub) && ExitAfterReads(w.sys)
    && MineOk(w) && FlyingOk(w) && LinkOk(w) && NotesOk(w) && SavedOk(w)
  }

  // ---------- notes ----------

  lemma NoteAppend(notes: seq<Note>, n: Note)
    ensures LastWritten(notes + [n]) ==
      if n.Wrote? then Some(n.chunk.sequence) else if n.Restored? then n.from else LastWritten(notes)
    ensures Announced(notes + [n]) <==> n.GapNotice?
    ensures !n.Wrote? && Delivered(notes) ==> Delivered(notes + [n])
    ensures n.Wrote? && Delivered(notes) && Follows(notes, n) ==> Delivered(notes + [n])
  {
    assert (notes + [n])[..|notes|] == notes;
  }

  lemma {:induction false} LastIsGenuine(notes: seq<Note>, history: seq<Chunk>)
    requires Genuine(notes, history) && LastWritten(notes).Some?
    ensures 1 <= LastWritten(notes).value <= |history|
  {
    if notes[|notes| - 1].Wrote? || notes[|notes| - 1].Restored? {
    } else {
      LastIsGenuine(notes[..|notes| - 1], history);
    }
  }

  lemma AccountAppend(w: World, w': World, n: Note)
    requires w.base <= |w.bridge.notes| && w'.base == w.base && w'.bridge.notes == w.bridge.notes + [n]
    ensures Account(w') == Account(w) + [n]
  {
  }

  // ---------- hub steps and acknowledgements ----------

  lemma LinkGrows(w: World, sys: Sys)
    requires LinkOk(w)
    requires w.link.Up? && w.link.id in w.sys.hub.subs ==>
      w.link.id in sys.hub.subs && Grows(w.sys.hub.subs[w.link.id], sys.hub.subs[w.link.id])
    ensures LinkOk(w.(sys := sys))
  {
    hide Outputs, Stream, Clean;
    if w.link.Up? {
      var s, t := w.sys.hub.subs[w.link.id], sys.hub.subs[w.link.id];
      assert OnWire(t)[..w.link.received] == OnWire(s)[..w.link.received];
    }
  }

  /** The bridge's own account survives whatever the hub does, as long as its streams only grow. */
  lemma WorldGrows(w: World, sys: Sys)
    requires WInv(w) && Inv(sys.hub) && ExitAfterReads(sys) && w.sys.hub.history <= sys.hub.history
    requires forall j :: j in w.mine ==> j in sys.hub.subs && Grows(w.sys.hub.subs[j], sys.hub.subs[j])
    ensures WInv(w.(sys := sys))
  {
    hide Inv, Outputs, Delivered, LastWritten, Clean, Stream, OnWire, LinkOk;
    assert LinkOk(w.(sys := sys)) by { LinkGrows'(w, sys); }
  }

  lemma LinkGrows'(w: World, sys: Sys)
    requires LinkOk(w)
    requires forall j :: j in w.mine ==> j in w.sys.hub.subs && j in sys.hub.subs && Grows(w.sys.hub.subs[j], sys.hub.subs[j])
    ensures LinkOk(w.(sys := sys))
  {
    hide Grows, Outputs;
    LinkGrows(w, sys);
  }

  lemma HubStepKeeps(w: World, step: Step)
    requires WInv(w) && Next(w.sys, step).Some? && (step.DoAck? ==> step.id !in w.mine)
    ensures WInv(w.(sys := Next(w.sys, step).value))
  {
    hide Inv, Next, Grows, LinkOk, NotesOk, FlyingOk, Clean, ExitAfterReads;
    InvWellFormed(w.sys.hub);
    NextInv(w.sys, step);
    NextProcess(w.sys, step);
    forall j | j in w.mine
      ensures j in Next(w.sys, step).value.hub.subs && Grows(w.sys.hub.subs[j], Next(w.sys, step).value.hub.subs[j])
    {
      NextGrows(w.sys, step, j);
    }
    WorldGrows(w, Next(w.sys, step).value);
  }

  /** An acknowledgement the bridge sent is never ahead of the runner. */
  lemma AckIsAccepted(w: World, id: Id, sequence: nat, now: int)
    requires WellFormed(w.sys.hub) && FlyingOk(w) && (id, sequence) in w.flying
    ensures sequence <= w.sys.hub.replay.latest
    ensures Acknowledge(w.sys.hub, id, sequence, now).1 != Some(CursorInvalid)
  {
    hide WellFormed;
    LatestIsLength(w.sys.hub);
    assert (id, sequence).1 <= |w.sys.hub.history|;
  }

  lemma AckKeeps(w: World, id: Id, sequence: nat, now: int)
    requires WInv(w) && sequence <= w.sys.hub.replay.latest
    ensures WInv(w.(sys := w.sys.(hub := AckSection(w.sys.hub, id, sequence, now))))
  {
    hide Inv, Next, Grows, LinkOk, NotesOk, FlyingOk, Clean, AckSection;
    InvWellFormed(w.sys.hub);
    AckIsNoCursorError(w.sys.hub, id, sequence, now);
    var step := DoAck(id, sequence, now);
    var s' := w.sys.(hub := AckSection(w.sys.hub, id, sequence, now));
    assert Next(w.sys, step) == Some(s') by { AckIsAStep(w.sys, id, sequence, now); }
    NextInv(w.sys, step);
    NextProcess(w.sys, step);
    forall j | j in w.mine
      ensures j in s'.hub.subs && Grows(w.sys.hub.subs[j], s'.hub.subs[j])
    {
      NextGrows(w.sys, step, j);
    }
    WorldGrows(w, s');
  }

  lemma AckIsNoCursorError(h: HubState, id: Id, sequence: nat, now: int)
    requires sequence <= h.replay.latest
    ensures Acknowledge(h, id, sequence, now).1 != Some(CursorInvalid)
  {
  }

  lemma AckIsAStep(s: Sys, id: Id, sequence: nat, now: int)
    requires s.hub.registered <= s.hub.subs.Keys
    ensures Next(s, DoAck(id, sequence, now)) == Some(s.(hub := AckSection(s.hub, id, sequence, now)))
  {
  }

  // ---------- connecting ----------

  /** The bridge's attach is refused as ahead of the runner exactly when its cursor is another runner's and beyond this one's
      output. */
  lemma AttachIsNotAhead(w: World, takeover: bool, now: int, id: Id, lease: Id, resizeOk: bool)
    requires WInv(w)
    ensures Attach(w.sys.hub, Request(w.bridge, takeover), now, id, lease, resizeOk).1 == Err(CursorInvalid) <==>
      Stale(w) && w.bridge.cursor.value > w.sys.hub.replay.latest
  {
    hide Sound, LinkOk, Delivered, After, Evicted, Leased, Registered, Genuine, LastWritten;
    ExpireInv(w.sys.hub, now);
    var h := Expire(w.sys.hub, now);
    RevokeSameProcess(w.sys.hub, LeaseExpired);
    LatestIsLength(h);
    RevokeKeepsReplay(w.sys.hub, LeaseExpired);
    if w.bridge.cursor.Some? {
      AfterExact(h.replay, h.history, w.bridge.cursor.value);
      if !Stale(w) {
        LastIsGenuine(Account(w), w.sys.hub.history);
      }
    }
  }

  lemma RevokeKeepsReplay(h: HubState, reason: Reason)
    requires h.registered <= h.subs.Keys
    ensures Revoke(h, reason).replay == h.replay
  {
  }

  lemma InitialIsClean(h: HubState, id: Id, role: Role, lease: Option<Id>, cursor: Option<nat>)
    requires h.exit.Some? ==> h.exit.value.Exit?
    ensures CURSOR_ERROR !in InitialFrames(h, id, role, lease, cursor)
  {
    hide After, Bounds;
  }

  /** What a successful control attach hands out. */
  lemma AttachHandsOut(h: HubState, r: AttachRequest, now: int, id: Id, lease: Id, resizeOk: bool)
    requires Inv(h) && Precheck(r).None? && r.role == Some(Control) && id !in h.used && lease !in h.used && id != lease
    requires Attach(h, r, now, id, lease, resizeOk).1.Ok?
    ensures
      var h' := Attach(h, r, now, id, lease, resizeOk).0;
      && id in h'.subs && FirstFrames(h'.subs[id], r.cursor) && Clean(h'.subs[id])
      && h'.subs[id].taken == [] && h'.subs[id].queue == []
  {
    hide Sound, Represents, After, Bounds, Expire, Revoke;
    var h1 := Expire(h, now);
    ExpireInv(h, now);
    var h2 := Created(h1, r, id);
    CreatedInv(h1, r, id);
    RevokeInv(h2, TakenOver);
    StartPointBounds(h1, r.cursor);
    var h3 := Leased(h2, r, id, lease, now);
    var g := if r.takeover then Revoke(h2, TakenOver) else h2;
    assert h3 == Grant(g, id, lease, now);
    assert g.subs[id] == h2.subs[id] && g.replay == h1.replay && g.exit == h1.exit by { RevokeLeavesOthers(h2, TakenOver, id); }
    var s := h3.subs[id];
    InitialIsClean(h3, id, s.role, s.lease, r.cursor);
    var t := Registered(h3, r.cursor, id).subs[id];
    assert t.initial == InitialFrames(h3, id, Control, Some(lease), r.cursor);
    assert Stream(t) == t.initial;
  }

  lemma RevokeLeavesOthers(h: HubState, reason: Reason, id: Id)
    requires h.registered <= h.subs.Keys && id in h.subs && id !in h.registered
    ensures Revoke(h, reason).subs[id] == h.subs[id] && Revoke(h, reason).replay == h.replay && Revoke(h, reason).exit == h.exit
  {
  }

  lemma DialKeepsNotes(w: World)
    requires NotesOk(w)
    ensures NotesOk(w.(bridge := Dial(w.bridge)))
  {
    hide Delivered, LastWritten;
    AccountAppend(w, w.(bridge := Dial(w.bridge)), Dialled);
    NoteAppend(Account(w), Dialled);
  }

  lemma ConnectKeeps(w: World, a: Act)
    requires WInv(w) && a.Connect? && ConnectStep(w, a).Some?
    ensures WInv(ConnectStep(w, a).value)
  {
    hide Inv, Next, Attach, Grows, Clean, FirstFrames, Delivered, LastWritten, Outputs, Genuine;
    InvWellFormed(w.sys.hub);
    var w' := ConnectStep(w, a).value;
    var r := Request(w.bridge, a.takeover);
    var locked := w.sys.(control := Some(Hold(a.thread, OpAttach(r), Locked, 0, false)));
    var step := DoAttach(a.now, a.id, a.lease, a.resizeOk);
    var w1 := w.(sys := locked, link := Down);
    assert WInv(w1);
    HubStepKeeps(w1, step);
    DialKeepsNotes(w1.(sys := Next(locked, step).value));
    AttachStepIs(locked, r, step);
    if w'.link.Up? {
      AttachHandsOut(w.sys.hub, r, a.now, a.id, a.lease, a.resizeOk);
      EmptyStream();
      assert OnWire(w'.sys.hub.subs[a.id])[..0] == [];
    }
  }

  lemma AttachStepIs(s: Sys, r: AttachRequest, step: Step)
    requires s.hub.registered <= s.hub.subs.Keys && step.DoAttach? && Next(s, step).Some?
    requires s.control.Some? && s.control.value.op == OpAttach(r)
    ensures Precheck(r).None? && step.id !in s.hub.used && step.lease !in s.hub.used && step.id != step.lease
    ensures Next(s, step).value.hub == Attach(s.hub, r, step.now, step.id, step.lease, step.resizeOk).0
  {
    hide Attach, AttachEvents, NewGrants;
  }

  // ---------- frames ----------

  /** The next frame on the wire, if it is output, is the next chunk of the history. */
  lemma NextOutput(h: HubState, id: Id, n: nat)
    requires Inv(h) && id in h.subs && n < |OnWire(h.subs[id])| && OnWire(h.subs[id])[n].Output?
    ensures
      var s := h.subs[id];
      var seen := Outputs(OnWire(s)[..n]);
      && Outputs(OnWire(s)[..n + 1]) == seen + [OnWire(s)[n].chunk]
      && 0 <= s.start + |seen| < |h.history|
      && OnWire(s)[n].chunk == h.history[s.start + |seen|]
      && OnWire(s)[n].chunk.sequence == s.start + |seen| + 1
  {
    hide Outputs, Exits, Revocations, Evicted, WellFormed;
    var s := h.subs[id];
    var wire := OnWire(s);
    WireAppend(wire, n);
    assert Sound(h, id);
    assert Stream(s) == wire + s.queue;
    assert Stream(s)[..n + 1] == wire[..n + 1];
    OutputsPrefix(Stream(s), n + 1);
    var seen, all := Outputs(wire[..n]), Outputs(Stream(s));
    assert all[|seen|] == wire[n].chunk;
    InvNumbered(h);
  }

  lemma InvNumbered(h: HubState)
    requires WellFormed(h)
    ensures Numbered(h.history)
  {
  }

  lemma WireAppend(wire: seq<Frame>, n: nat)
    requires n < |wire|
    ensures Outputs(wire[..n + 1]) == Outputs(wire[..n]) + (if wire[n].Output? then [wire[n].chunk] else [])
  {
    assert wire[..n + 1] == wire[..n] + [wire[n]];
    StreamAppend(wire[..n], wire[n]);
  }

  /** Frames that end the connection leave the account alone, except for a cursor error. */
  lemma ClosingFrameKeeps(w: World, f: Frame)
    requires WInv(w) && w.link.Up? && f.Error? && f != CURSOR_ERROR
    ensures WInv(FrameStep(w, f, true))
  {
    hide Inv, Clean, Delivered, LastWritten, Genuine, Outputs, OnWire, Grows;
  }

  /** The answer to attach is read. */
  lemma FirstFrameKeeps(w: World, written: bool)
    requires WInv(w) && w.link.Up? && w.link.received == 0 && 0 < |Wire(w, w.link.id)|
    ensures WInv(FrameStep(w, Wire(w, w.link.id)[0], written))
  {
    hide Inv, Clean, Delivered, LastWritten, Genuine, Outputs, Grows, Silent;
    var s := w.sys.hub.subs[w.link.id];
    assert OnWire(s)[0] == s.initial[0];
    WireAppend(OnWire(s), 0);
    assert OnWire(s)[..0 + 1] == OnWire(s)[..1];
    var w' := FrameStep(w, OnWire(s)[0], written);
    if Stale(w) {
      NewAccount(w);
      assert Account(w') == [];
    } else {
      SameAccount(w, w');
    }
  }

  lemma NewAccount(w: World)
    ensures LastWritten([]) == None && Delivered([]) && Genuine([], w.sys.hub.history)
  {
  }

  /** The frame on the wire may be written and noted. */
  lemma NextFollows(w: World)
    requires WInv(w) && Torn(w)
    ensures
      var chunk := Wire(w, w.link.id)[w.link.received].chunk;
      && Follows(Account(w), Wrote(chunk)) && Genuine(Account(w) + [Wrote(chunk)], w.sys.hub.history)
      && (w.bridge.cursor.Some? ==> w.bridge.cursor.value < chunk.sequence)
  {
    hide Inv, Clean, Delivered, LastWritten, Outputs, Grows;
    var s := w.sys.hub.subs[w.link.id];
    var n := w.link.received;
    NextOutput(w.sys.hub, w.link.id, n);
    if n == 1 {
      assert |s.initial| > 1 ==> OnWire(s)[1] == s.initial[1];
    }
  }

  /** Output is written, remembered and acknowledged. */
  lemma OutputFrameKeeps(w: World)
    requires WInv(w) && Torn(w)
    ensures WInv(FrameStep(w, Wire(w, w.link.id)[w.link.received], true))
  {
    hide Inv, Clean, Delivered, LastWritten, Outputs, Grows, Account, Genuine, Follows, FirstFrames;
    var s := w.sys.hub.subs[w.link.id];
    var n := w.link.received;
    var note := Wrote(OnWire(s)[n].chunk);
    NextFollows(w);
    NextOutput(w.sys.hub, w.link.id, n);
    NoteAppend(Account(w), note);
    AccountAppend(w, FrameStep(w, OnWire(s)[n], true), note);
  }

  /** Any other frame on the wire. */
  lemma OtherFrameKeeps(w: World, written: bool)
    requires WInv(w) && Waiting(w) && 0 < w.link.received
    requires var f := Wire(w, w.link.id)[w.link.received]; !f.Output? || !written
    ensures WInv(FrameStep(w, Wire(w, w.link.id)[w.link.received], written))
  {
    hide Inv, Delivered, LastWritten, Outputs, Grows, Account, Genuine, FirstFrames, Stream;
    var s := w.sys.hub.subs[w.link.id];
    var n := w.link.received;
    var f := OnWire(s)[n];
    NeverCursorError(s, n);
    WireAppend(OnWire(s), n);
    if f.ReplayGap? {
      NoteAppend(Account(w), GapNotice(f.requested));
      AccountAppend(w, FrameStep(w, f, written), GapNotice(f.requested));
      GapIsGenuine(Account(w), w.sys.hub.history, f.requested);
    } else {
      SameAccount(w, FrameStep(w, f, written));
      if f.Output? {
        NextOutput(w.sys.hub, w.link.id, n);
      }
      if n == 1 {
        SecondFrame(s, w.link.from);
      }
    }
  }

  /** Where something is missing behind the cursor, the second frame announces it. */
  lemma SecondFrame(s: Subscription, from: Option<nat>)
    requires FirstFrames(s, from) && 1 < |OnWire(s)| && !OnWire(s)[1].ReplayGap?
    ensures from.Some? ==> from.value == s.start
  {
    assert |s.initial| > 1 ==> OnWire(s)[1] == s.initial[1];
  }

  lemma NeverCursorError(s: Subscription, n: nat)
    requires Clean(s) && n < |OnWire(s)|
    ensures OnWire(s)[n] != CURSOR_ERROR
  {
    assert Stream(s)[n] == OnWire(s)[n];
  }

  lemma GapIsGenuine(notes: seq<Note>, history: seq<Chunk>, requested: nat)
    requires Genuine(notes, history)
    ensures Genuine(notes + [GapNotice(requested)], history)
  {
  }

  lemma SameAccount(w: World, w': World)
    requires w'.base == w.base && w'.bridge.notes == w.bridge.notes
    ensures Account(w') == Account(w)
  {
  }

  // ---------- every run ----------

  lemma DoKeeps(w: World, a: Act)
    requires WInv(w) && Ready(w) && Do(w, a).Some?
    ensures WInv(Do(w, a).value)
  {
    hide WInv, Next, AckSection, FrameStep, ConnectStep;
    match a
    case HubStep(step) => HubStepKeeps(w, step);
    case Connect(_, _, _, _, _, _) => ConnectKeeps(w, a);
    case Receive(written) =>
      if w.link.received == 0 {
        FirstFrameKeeps(w, written);
      } else if Wire(w, w.link.id)[w.link.received].Output? && written {
        OutputFrameKeeps(w);
      } else {
        OtherFrameKeeps(w, written);
      }
    case ReceiveClose => ClosingFrameKeeps(w, Error(SlowConsumer));
    case Lose => LoseKeeps(w);
    case Store => StoreKeeps(w);
    case Restart(torn) => RestartKeeps(w, torn);
    case NewRunner(maxBytes, maxFrames, capacity, ttl, generation) =>
      NewHubInv(maxBytes, maxFrames, capacity, ttl);
      ReplacedKeeps(w, NewSys(maxBytes, maxFrames, capacity, ttl), generation);
    case AckArrives(id, sequence, now) =>
      AckReaches(w, id, sequence);
      AckKeeps(w, id, sequence, now);
  }

  lemma AckReaches(w: World, id: Id, sequence: nat)
    requires WInv(w)
    ensures (id, sequence) in w.flying ==> sequence <= w.sys.hub.replay.latest
  {
    hide LinkOk, NotesOk, MineOk, SavedOk, Sound, Represents;
    if (id, sequence) in w.flying {
      InvWellFormed(w.sys.hub);
      AckIsAccepted(w, id, sequence, 0);
    }
  }

  lemma LoseKeeps(w: World)
    requires WInv(w)
    ensures WInv(w.(link := Down))
  {
    hide Inv, Delivered, LastWritten, Outputs, Genuine, Clean;
  }

  lemma StoreKeeps(w: World)
    requires WInv(w)
    ensures WInv(w.(saved := Saved(w.bridge.cursor, w.bridge.generation)))
  {
    hide Inv, Delivered, LastWritten, Outputs, Clean;
    if w.bridge.cursor.Some? && !Stale(w) {
      LastIsGenuine(Account(w), w.sys.hub.history);
    }
  }

  /** The account when the bridge dies: a torn frame is written and not remembered. */
  function AtDeath(w: World, torn: bool): seq<Note>
    requires torn ==> Torn(w)
  {
    if torn then Account(w) + [Wrote(Wire(w, w.link.id)[w.link.received].chunk)] else Account(w)
  }

  lemma AccountRestarted(w: World, torn: bool)
    requires (torn ==> Torn(w)) && w.base <= |w.bridge.notes|
    ensures
      var w' := Restarted(w, torn);
      && w'.base <= |w'.bridge.notes|
      && Account(w') == (if Stale(w') then [] else AtDeath(w, torn) + [Restored(w.saved.cursor)])
  {
  }

  lemma RestartKeeps(w: World, torn: bool)
    requires WInv(w) && (torn ==> Torn(w))
    ensures WInv(Restarted(w, torn))
  {
    hide Inv, Clean, Delivered, LastWritten, Outputs, Follows, LinkOk, Account, Torn, Wire;
    AccountRestarted(w, torn);
    NewAccount(w);
    if torn {
      NextFollows(w);
      NoteAppend(Account(w), AtDeath(w, torn)[|Account(w)|]);
    }
    NoteAppend(AtDeath(w, torn), Restored(w.saved.cursor));
    if w.bridge.cursor.Some? && !Stale(w) {
      LastIsGenuine(Account(w), w.sys.hub.history);
    }
    assert LinkOk(Restarted(w, torn)) by { DownIsOk(Restarted(w, torn)); }
  }

  lemma ReplacedKeeps(w: World, sys: Sys, generation: Id)
    requires WInv(w) && NeverSeen(w, generation) && Inv(sys.hub) && ExitAfterReads(sys)
    ensures WInv(Replaced(w, sys, generation))
  {
    hide Inv, Delivered, LastWritten, Outputs, Genuine;
    NewAccount(Replaced(w, sys, generation));
    assert Account(Replaced(w, sys, generation)) == [];
  }

  lemma DownIsOk(w: World)
    requires w.link.Down?
    ensures LinkOk(w)
  {
  }

  /** End to end, in every run of bridge and runners: the account of the current runner is genuine output in increasing
      order, and a jump is always announced on the same connection. */
  lemma {:induction false} DeliveryIsOrdered(w: World, acts: seq<Act>)
    requires WInv(w) && Runs(w, acts).Some?
    ensures
      var w' := Runs(w, acts).value;
      && WInv(w')
      && Delivered(Account(w'))
      && Genuine(Account(w'), w'.sys.hub.history)
      && (if Stale(w') then Silent(Account(w')) else w'.bridge.cursor == LastWritten(Account(w')))
  {
    hide Do, Inv, Delivered, Genuine, LastWritten, MineOk, FlyingOk, LinkOk, Account, Silent;
    if acts == [] {
    } else {
      DeliveryIsOrdered(w, acts[..|acts| - 1]);
      DoKeeps(Runs(w, acts[..|acts| - 1]).value, acts[|acts| - 1]);
    }
  }

  /** A bridge that has shown nothing yet, in front of a hub in any state a run can reach. */
  lemma FreshBridge(sys: Sys, generation: Id)
    requires Inv(sys.hub) && ExitAfterReads(sys)
    ensures WInv(NewWorld(sys, generation))
  {
    hide Inv;
  }

  function NewWorld(sys: Sys, generation: Id): World {
    World(sys, BridgeState(None, None, None, [], {}), Saved(None, None), Down, {}, {}, generation, 0)
  }

  // ---------- the cursor of another runner ----------

  /** Nothing is written under the cursor of another runner: whatever an act writes is output of the current runner, written
      by a bridge that has accepted its generation. */
  lemma WritesCurrentOutput(w: World, a: Act)
    requires WInv(w) && Ready(w) && Do(w, a).Some?
    ensures
      var w' := Do(w, a).value;
      && w.bridge.notes <= w'.bridge.notes
      && forall i :: |w.bridge.notes| <= i < |w'.bridge.notes| && w'.bridge.notes[i].Wrote? ==>
           && !Stale(w) && w.bridge.generation == Some(w.generation)
           && w'.bridge.notes[i].chunk in w.sys.hub.history
  {
    hide Inv, Next, Attach, Clean, Delivered, LastWritten, Genuine, Outputs, Silent, AckSection, Account, FirstFrames;
    if Torn(w) {
      NextOutput(w.sys.hub, w.link.id, w.link.received);
    }
  }

  /** The first answer of a new runner to a stale cursor throws it away and starts a new account. */
  lemma StaleIsReset(w: World, written: bool)
    requires WInv(w) && Stale(w) && Waiting(w)
    ensures
      var w' := Do(w, Receive(written)).value;
      && Do(w, Receive(written)).Some? && w'.link.Down? && !Stale(w')
      && w'.bridge.cursor.None? && w'.bridge.generation == Some(w.generation) && Account(w') == []
  {
    hide Inv, Clean, Delivered, LastWritten, Genuine, Outputs, Silent;
    var s := w.sys.hub.subs[w.link.id];
    assert OnWire(s)[0] == s.initial[0];
  }

  /** The sequences written strictly increase over all connections and restarts, except across a restart from a file that
      was behind. */
  lemma {:induction false} WrittenIncreases(notes: seq<Note>, i: nat, j: nat)
    requires Delivered(notes) && i < j < |notes| && notes[i].Wrote? && notes[j].Wrote?
    ensures notes[i].chunk.sequence < notes[j].chunk.sequence || exists k :: i < k < j && Lags(notes, k)
    decreases |notes|
  {
    var before := notes[..|notes| - 1];
    if j == |before| {
      LastIsAbove(before, i);
      LagsBefore(notes, before, i, j);
    } else {
      WrittenIncreases(before, i, j);
      LagsBefore(notes, before, i, j);
    }
  }

  lemma LagsBefore(notes: seq<Note>, before: seq<Note>, i: nat, j: nat)
    requires j < |notes| && before == notes[..|notes| - 1]
    ensures (exists k :: i < k < j && Lags(before, k)) ==> exists k :: i < k < j && Lags(notes, k)
  {
    if k :| i < k < j && Lags(before, k) {
      assert before[..k] == notes[..k];
      assert Lags(notes, k);
    }
  }

  lemma {:induction false} LastIsAbove(notes: seq<Note>, i: nat)
    requires Delivered(notes) && i < |notes| && notes[i].Wrote?
    ensures
      || (LastWritten(notes).Some? && notes[i].chunk.sequence <= LastWritten(notes).value)
      || exists k :: i < k < |notes| && Lags(notes, k)
  {
    var before := notes[..|notes| - 1];
    if i == |before| {
    } else {
      LastIsAbove(before, i);
      LagsBefore(notes, before, i, |before|);
      assert Lags(notes, |before|) <==> notes[|before|].Restored? && notes[|before|].from != LastWritten(before);
    }
  }

  /** A file of the current runner starts the bridge at or behind what was written, and lags exactly when it is behind. */
  lemma RestartNeverAhead(w: World, torn: bool)
    requires WInv(w) && (torn ==> Torn(w)) && w.saved.cursor.Some? && w.saved.generation == Some(w.generation)
    ensures
      var account := Account(Restarted(w, torn));
      var last := LastWritten(AtDeath(w, torn));
      && account == AtDeath(w, torn) + [Restored(w.saved.cursor)]
      && last.Some? && w.saved.cursor.value <= last.value
      && (Lags(account, |account| - 1) <==> w.saved.cursor.value < last.value)
  {
    hide Inv, Clean, Delivered, LastWritten, Outputs, Follows, LinkOk, Account, Torn, Wire;
    AccountRestarted(w, torn);
    var account := Account(Restarted(w, torn));
    assert account[..|account| - 1] == AtDeath(w, torn);
    if torn {
      NextFollows(w);
      NoteAppend(Account(w), AtDeath(w, torn)[|Account(w)|]);
    }
  }

  /** What the runner replays to a bridge restarted at `saved` holds output already written up to `last` exactly when the file
      was behind and the runner still retains some of that output. */
  lemma RepeatsExactly(b: Buffer, history: seq<Chunk>, saved: nat, last: nat)
    requires Represents(b, history) && saved <= last <= |history|
    ensures
      (exists c :: c in After(b, saved).frames && c.sequence <= last) <==>
      saved < last && Evicted(b.maxBytes, b.maxFrames, history) < last
  {
    hide After, Evicted, Trimmed;
    AfterExact(b, history, saved);
    var start := Max(Evicted(b.maxBytes, b.maxFrames, history), saved);
    var frames := After(b, saved).frames;
    hide Represents;
    assert Numbered(history) by { RepresentsNumbered(b, history); }
    if start < last {
      assert frames[0] == history[start] && frames[0] in frames;
    } else {
      forall c | c in frames ensures c.sequence > last {
        var k :| 0 <= k < |frames| && frames[k] == c;
        assert c == history[start + k];
      }
    }
  }

  lemma RepresentsNumbered(b: Buffer, history: seq<Chunk>)
    requires Represents(b, history)
    ensures Numbered(history)
  {
  }
}
