/**
 The guarantees of the terminal runner, its bridge and the work queue from their initial states: what holds after any
 run whatever.
 */
module Guarantees {
  import opened Prelude
  import opened Replay
  import opened TerminalHub
  import opened HubInvariants
  import opened HubRuns
  import HubSafety
  import HubLeases
  import HubLifecycle
  import Bridge
  import BridgeRuns
  import Queue = WorkQueue

  /** Whatever clients, reaper and process do, in any interleaving: every attachment has an exact stream, exit frame and
      lease; PTY calls exclude every grant of control; and accepted input forms lease blocks in grant order. */
  lemma HubGuarantee(maxBytes: int, maxFrames: int, capacity: nat, ttl: int, steps: seq<Step>)
    requires Run(NewSys(maxBytes, maxFrames, capacity, ttl), steps).Some?
    ensures
      var s := Run(NewSys(maxBytes, maxFrames, capacity, ttl), steps).value;
      && Represents(s.hub.replay, s.hub.history)
      && (forall id :: id in s.hub.subs ==> StreamExact(s.hub, id) && ExitExact(s.hub, id) && LeaseExact(s.hub, id))
      && HubSafety.GrantsOf(s.log) == s.hub.grants && HubSafety.Exclusive(s.log) && HubSafety.PtyWithinCalls(s.log)
      && HubLeases.InGrantOrder(s.accepted, s.hub.grants) && HubLeases.DistinctLeases(s.hub.grants)
      && HubLifecycle.ExitAfterReads(s)
  {
    hide Next, StreamExact, ExitExact, LeaseExact, Represents,
         HubSafety.Exclusive, HubSafety.PtyWithinCalls, HubSafety.GrantsOf, HubLeases.InGrantOrder, HubLeases.DistinctLeases;
    var start := NewSys(maxBytes, maxFrames, capacity, ttl);
    NewHubInv(maxBytes, maxFrames, capacity, ttl);
    NothingYet(maxBytes, maxFrames, capacity, ttl);
    RunInv(start, steps);
    HubSafety.PtyCallsAreExclusive(start, steps);
    HubLeases.AcceptedInputInLeaseBlocks(start, steps);
    HubLifecycle.ProcessMovesForward(start, steps);
    var s := Run(start, steps).value;
    forall id | id in s.hub.subs ensures StreamExact(s.hub, id) && ExitExact(s.hub, id) && LeaseExact(s.hub, id) {
      assert Sound(s.hub, id);
    }
  }

  lemma NothingYet(maxBytes: int, maxFrames: int, capacity: nat, ttl: int)
    ensures HubSafety.LogMatches(NewSys(maxBytes, maxFrames, capacity, ttl))
    ensures HubLeases.InGrantOrder([], [])
  {
  }

  /** A bridge that starts with nothing, in front of a new runner, over any number of connections, restarts and further
      runners: what it writes of the current runner is genuine output, in strictly increasing order but for restarts from a
      file that was behind, and a jump is announced. No acknowledgement is ahead of the runner, and an attach only with the
      cursor of another runner. */
  lemma BridgeGuarantee(
    maxBytes: int, maxFrames: int, capacity: nat, ttl: int, generation: Id, acts: seq<BridgeRuns.Act>, w: BridgeRuns.World)
    requires BridgeRuns.Runs(BridgeRuns.NewWorld(NewSys(maxBytes, maxFrames, capacity, ttl), generation), acts) == Some(w)
    ensures BridgeRuns.Delivered(BridgeRuns.Account(w)) && BridgeRuns.Genuine(BridgeRuns.Account(w), w.sys.hub.history)
    ensures
      var notes := BridgeRuns.Account(w);
      forall i, j :: 0 <= i < j < |notes| && notes[i].Wrote? && notes[j].Wrote? ==>
        notes[i].chunk.sequence < notes[j].chunk.sequence || exists k :: i < k < j && BridgeRuns.Lags(notes, k)
    ensures BridgeRuns.Stale(w) ==> BridgeRuns.Silent(BridgeRuns.Account(w))
    ensures forall p :: p in w.flying ==> p.1 <= w.sys.hub.replay.latest
    ensures w.sys.hub.registered <= w.sys.hub.subs.Keys
    ensures forall takeover, now, id, lease, resizeOk ::
      Attach(w.sys.hub, Bridge.Request(w.bridge, takeover), now, id, lease, resizeOk).1 == Err(CursorInvalid) ==>
      BridgeRuns.Stale(w) && w.bridge.cursor.value > w.sys.hub.replay.latest
  {
    hide BridgeRuns.Do, Attach, Inv, BridgeRuns.Delivered, BridgeRuns.Genuine, BridgeRuns.MineOk, BridgeRuns.LinkOk,
         BridgeRuns.LastWritten, BridgeRuns.Account, BridgeRuns.Silent;
    var sys := NewSys(maxBytes, maxFrames, capacity, ttl);
    NewHubInv(maxBytes, maxFrames, capacity, ttl);
    BridgeRuns.FreshBridge(sys, generation);
    BridgeRuns.DeliveryIsOrdered(BridgeRuns.NewWorld(sys, generation), acts);
    var notes := BridgeRuns.Account(w);
    forall i, j | 0 <= i < j < |notes| && notes[i].Wrote? && notes[j].Wrote?
      ensures notes[i].chunk.sequence < notes[j].chunk.sequence || exists k :: i < k < j && BridgeRuns.Lags(notes, k)
    {
      BridgeRuns.WrittenIncreases(notes, i, j);
    }
    InvWellFormed(w.sys.hub);
    LatestIsLength(w.sys.hub);
    forall takeover, now, id, lease, resizeOk
      ensures Attach(w.sys.hub, Bridge.Request(w.bridge, takeover), now, id, lease, resizeOk).1 == Err(CursorInvalid) ==>
        BridgeRuns.Stale(w) && w.bridge.cursor.value > w.sys.hub.replay.latest
    {
      BridgeRuns.AttachIsNotAhead(w, takeover, now, id, lease, resizeOk);
    }
  }

  /** The queue of a new controller, in any interleaving: one token per pending ID and no lost wake-up. */
  lemma QueueGuarantee(capacity: nat, workers: nat, maxRetries: nat, steps: seq<Queue.Step>, id: Queue.Id)
    requires Queue.Run(Queue.NewQueue(capacity, workers, maxRetries), steps).Some? && id != Queue.NO_ID
    ensures
      var q := Queue.Run(Queue.NewQueue(capacity, workers, maxRetries), steps).value;
      Queue.OneToken(q, id) && q.inFlight[id] <= 1 && (id in q.owed ==> Queue.Awake(q, id))
  {
    hide Queue.Next, Queue.Awake;
    var q := Queue.NewQueue(capacity, workers, maxRetries);
    Queue.OneTokenPerId(q, steps, id);
    Queue.NoLostWakeup(q, steps, id);
    Queue.NeverTwoWorkers(Queue.Run(q, steps).value, id);
  }
}
