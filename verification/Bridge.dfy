/**
 The bridge client (internal/herdrbridge/terminal.go): what one connection does to the saved cursor and
 runner generation, frame by frame.
 */
module Bridge {
  import opened Prelude
  import opened Replay
  import opened TerminalHub

  /** What the bridge shows its user, in order; `Dialled` starts a connection, and `Restored` a bridge that reads the cursor
      from its file. */
  datatype Note = Dialled | Wrote(chunk: Chunk) | GapNotice(requested: nat) | Restored(from: Option<nat>)

  /** How a connection goes on: `Retry` and `Reset` reconnect, `Stop` asks for the user's attention. */
  datatype Verdict = Continue | Retry | Reset | Stop

  datatype BridgeState = BridgeState(
    cursor: Option<nat>, generation: Option<Id>, lease: Option<Id>, notes: seq<Note>, acks: set<nat>)

  /** bridgeProtocolError: which refusals need the user. */
  function ErrorVerdict(code: ErrorCode): Verdict {
    match code
    case ControllerBusy => Stop
    case ForbiddenRole => Stop
    case UnsupportedProtocol => Stop
    case _ => Retry
  }

  /** The answer to attach. */
  function HandleFirst(b: BridgeState, f: Frame, generation: Id): (BridgeState, Verdict) {
    if f.Error? then (b, ErrorVerdict(f.code))
    else if !f.Attached? || f.role != Control || f.leaseId.None? then (b, Retry)
    else if b.generation.Some? && b.generation.value != generation && b.cursor.Some? then
      (b.(cursor := None, generation := Some(generation)), Reset)
    else (b.(generation := Some(generation), lease := f.leaseId), Continue)
  }

  /** Every later frame; `written` tells whether the terminal took the output. */
  function HandleFrame(b: BridgeState, f: Frame, written: bool): (BridgeState, Verdict) {
    match f
    case Attached(_, role, leaseId, _, _, _) =>
      (if role == Control && leaseId.Some? then b.(lease := leaseId) else b, Continue)
    case Output(chunk) =>
      if !written then (b, Retry)
      else (b.(cursor := Some(chunk.sequence), notes := b.notes + [Wrote(chunk)], acks := b.acks + {chunk.sequence}), Continue)
    case ReplayGap(requested, _, _) => (b.(notes := b.notes + [GapNotice(requested)]), Continue)
    case Revoked(_) => (b, Stop)
    case Exit(_) => (b, Continue)
    case Error(code) => if code == CursorInvalid then (b.(cursor := None), Reset) else (b, ErrorVerdict(code))
    case Pong(_) => (b, Continue)
  }

  function Dial(b: BridgeState): BridgeState {
    b.(notes := b.notes + [Dialled], acks := {}, lease := None)
  }

  /** The attach request of the bridge; the terminal size is always valid. */
  function Request(b: BridgeState, takeover: bool): AttachRequest {
    AttachRequest(Some(Control), true, true, true, b.cursor, takeover)
  }

  /** A whole connection: the frames it delivers until one of them ends it. */
  function Connection(b: BridgeState, frames: seq<Frame>, written: seq<bool>, generation: Id): (BridgeState, Verdict)
    requires |written| == |frames|
  {
    if frames == [] then (b, Continue)
    else
      var last := |frames| - 1;
      var (before, v) := Connection(b, frames[..last], written[..last], generation);
      if v != Continue then (before, v)
      else if last == 0 then HandleFirst(before, frames[last], generation)
      else HandleFrame(before, frames[last], written[last])
  }

  /** The bridge object: the connection loop updates the saved state in place. */
  class BridgeObject {
    var cursor: Option<nat>
    var generation: Option<Id>
    var lease: Option<Id>
    ghost var notes: seq<Note>
    ghost var acks: set<nat>

    ghost function State(): BridgeState
      reads this
    {
      BridgeState(cursor, generation, lease, notes, acks)
    }

    method Answer(f: Frame, runner: Id) returns (v: Verdict)
      modifies this
      ensures (State(), v) == HandleFirst(old(State()), f, runner)
    {
      if f.Error? {
        return ErrorVerdict(f.code);
      }
      if !f.Attached? || f.role != Control || f.leaseId.None? {
        return Retry;
      }
      if generation.Some? && generation.value != runner && cursor.Some? {
        cursor := None;
        generation := Some(runner);
        return Reset;
      }
      generation := Some(runner);
      lease := f.leaseId;
      return Continue;
    }

    method Handle(f: Frame, written: bool) returns (v: Verdict)
      modifies this
      ensures (State(), v) == HandleFrame(old(State()), f, written)
    {
      v := Continue;
      match f {
        case Attached(_, role, leaseId, _, _, _) =>
          if role == Control && leaseId.Some? {
            lease := leaseId;
          }
        case Output(chunk) =>
          if !written {
            return Retry;
          }
          cursor := Some(chunk.sequence);
          notes, acks := notes + [Wrote(chunk)], acks + {chunk.sequence};
        case ReplayGap(requested, _, _) =>
          notes := notes + [GapNotice(requested)];
        case Revoked(_) =>
          v := Stop;
        case Exit(_) =>
        case Error(code) =>
          if code == CursorInvalid {
            cursor := None;
            return Reset;
          }
          v := ErrorVerdict(code);
        case Pong(_) =>
      }
    }

    /** The loop of one connection over the frames that reach it. */
    method RunConnection(frames: seq<Frame>, written: seq<bool>, runner: Id) returns (v: Verdict)
      requires |written| == |frames|
      modifies this
      ensures (State(), v) == Connection(old(State()), frames, written, runner)
    {
      hide HandleFirst, HandleFrame;
      v := Continue;
      var i := 0;
      assert frames[..0] == [] && written[..0] == [];
      while i < |frames| && v == Continue
        invariant 0 <= i <= |frames|
        invariant (State(), v) == Connection(old(State()), frames[..i], written[..i], runner)
      {
        ghost var b := State();
        if i == 0 {
          v := Answer(frames[i], runner);
        } else {
          v := Handle(frames[i], written[i]);
        }
        assert frames[..i + 1][..i] == frames[..i] && written[..i + 1][..i] == written[..i];
        i := i + 1;
      }
      Ended(old(State()), frames, written, runner, i);
      assert frames[..|frames|] == frames && written[..|written|] == written;
    }
  }

  /** Nothing is read after the frame that ended the connection. */
  lemma {:induction false} Ended(b: BridgeState, frames: seq<Frame>, written: seq<bool>, generation: Id, n: nat)
    requires |written| == |frames| && n <= |frames|
    requires n == |frames| || Connection(b, frames[..n], written[..n], generation).1 != Continue
    ensures Connection(b, frames, written, generation) == Connection(b, frames[..n], written[..n], generation)
    decreases |frames|
  {
    if n == |frames| {
      assert frames[..n] == frames && written[..n] == written;
    } else {
      var last := |frames| - 1;
      assert frames[..last][..n] == frames[..n] && written[..last][..n] == written[..n];
      Ended(b, frames[..last], written[..last], generation, n);
    }
  }

  /** A saved cursor of another runner generation is thrown away by the first answer, and nothing is written before the
      next connection, whatever frames follow. */
  lemma NewGenerationResets(b: BridgeState, frames: seq<Frame>, written: seq<bool>, runner: Id)
    requires |written| == |frames| && frames != []
    requires b.cursor.Some? && b.generation.Some? && b.generation.value != runner
    requires frames[0].Attached? && frames[0].role == Control && frames[0].leaseId.Some?
    ensures Connection(b, frames, written, runner) == (b.(cursor := None, generation := Some(runner)), Reset)
  {
    assert frames[..1][..0] == [] && frames[..1][0] == frames[0];
    Ended(b, frames, written, runner, 1);
  }

  /** An attach that is answered by a refusal shows nothing and keeps the cursor; it needs the user exactly when another
      controller is busy, the role is forbidden or the protocol is unknown. */
  lemma RefusalKeepsCursor(b: BridgeState, code: ErrorCode, frames: seq<Frame>, written: seq<bool>, runner: Id)
    requires |written| == |frames| && frames != [] && frames[0] == Error(code)
    ensures
      var (b', v) := Connection(b, frames, written, runner);
      && b' == b && v in {Stop, Retry}
      && (v == Stop <==> code == ControllerBusy || code == ForbiddenRole || code == UnsupportedProtocol)
  {
    assert frames[..1][..0] == [] && frames[..1][0] == frames[0];
    Ended(b, frames, written, runner, 1);
  }

  /** What a later frame does: the cursor moves exactly to output that was written and away on a cursor error, a gap is
      shown, and only these frames end the connection. */
  lemma FrameAnswer(b: BridgeState, f: Frame, written: bool)
    ensures
      var (b', v) := HandleFrame(b, f, written);
      && (f.Output? && written ==> b'.cursor == Some(f.chunk.sequence) && f.chunk.sequence in b'.acks)
      && (f == Error(CursorInvalid) ==> b'.cursor.None?)
      && (!(f.Output? && written) && f != Error(CursorInvalid) ==> b'.cursor == b.cursor && b'.acks == b.acks)
      && b'.notes == b.notes +
         (if f.Output? && written then [Wrote(f.chunk)] else if f.ReplayGap? then [GapNotice(f.requested)] else [])
      && b'.lease == (if f.Attached? && f.role == Control && f.leaseId.Some? then f.leaseId else b.lease)
      && b'.generation == b.generation
      && (v == Continue <==> !f.Error? && !f.Revoked? && (f.Output? ==> written))
      && (v == Stop <==> f.Revoked? || (f.Error? && f.code in {ControllerBusy, ForbiddenRole, UnsupportedProtocol}))
      && (v == Reset <==> f == Error(CursorInvalid))
  {
  }
}
